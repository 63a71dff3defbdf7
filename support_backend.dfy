/** The support backend's request table (backend/app.py): the module-level
    dictionary `active_requests` and the handlers that read and update it. The
    Microsoft Graph and token calls are outside the model: what they answered
    arrives as a parameter, and what the backend asked of them is returned. */
module SupportBackend {
  import opened Common

  /** The `'status'` of a request. */
  datatype Status = Pending | Responded | Aborted

  /** One entry of `active_requests`. A key the code has not set is None, and the
      `processed_messages` set the code creates on first use is the empty set here. */
  datatype Request = Request(
    userName: string,
    userEmail: string,
    message: string,
    timestamp: string,
    status: Status,
    teamsChatId: Option<string>,
    initialMessageId: Option<string>,
    processed: set<string>)

  /** A Teams chat message as Graph returns it: whether its body is HTML, whether
      it is the echo of a user message the backend posted (the `From ...:` pattern
      at backend/app.py:539), its text with tags stripped, and the sender's display name. */
  datatype GraphMessage = GraphMessage(isHtml: bool, isUserEcho: bool, text: string, displayName: Option<string>)

  /** What fetching one message from Graph gives: no token, no usable answer (a
      status other than 200 or an exception, both caught), or the message. */
  datatype Fetch = NoAccessToken | Unavailable | Fetched(msg: GraphMessage)

  /** The payload of a `support_response` relayed to the request's room. */
  datatype Relay = Relay(message: string, responderName: string)

  /** One call of `fetch_and_process_chat_message` on one entry: the new entry and
      the relayed reply, or the KeyError raised when the entry has no Teams chat. */
  datatype StepResult = Done(entry: Request, relay: Option<Relay>) | MissingChat

  /** `fetch_and_process_chat_message` (backend/app.py:504-580) on the entry of its
      request: messages already processed are skipped before anything else, the
      initial message is skipped, a user echo is only marked processed, and any
      other message marks the request responded and is relayed once. */
  function Process(e: Request, messageId: string, f: Fetch): (r: StepResult)
    ensures messageId in e.processed ==> r == Done(e, None)
    ensures r.MissingChat? <==> messageId !in e.processed && f != NoAccessToken && e.teamsChatId.None?
    ensures r.Done? ==> r.entry == e.(status := r.entry.status, processed := r.entry.processed)
    ensures r.Done? ==> r.entry.processed == e.processed || r.entry.processed == e.processed + {messageId}
    ensures (r.Done? && r.relay.Some?) <==>
              && messageId !in e.processed && e.teamsChatId.Some? && f.Fetched?
              && Some(messageId) != e.initialMessageId && !(f.msg.isHtml && f.msg.isUserEcho)
    ensures r.Done? && r.relay.Some? ==>
              && messageId in r.entry.processed && r.entry.status == Responded
              && r.relay.value.message == f.msg.text
              && r.relay.value.responderName == (if f.msg.displayName.Some? then f.msg.displayName.value else "Support Agent")
    ensures r.Done? && r.relay.None? ==> r.entry.status == e.status
    ensures r.Done? && r.relay.None? && messageId !in e.processed ==>
              (messageId in r.entry.processed <==>
                 e.teamsChatId.Some? && f.Fetched? && Some(messageId) != e.initialMessageId
                 && f.msg.isHtml && f.msg.isUserEcho)
    ensures Some(messageId) == e.initialMessageId ==> r.MissingChat? || r == Done(e, None)
  {
    if messageId in e.processed then Done(e, None)
    else if f.NoAccessToken? then Done(e, None)
    else if e.teamsChatId.None? then MissingChat
    else if f.Unavailable? then Done(e, None)
    else if Some(messageId) == e.initialMessageId then Done(e, None)
    else if f.msg.isHtml && f.msg.isUserEcho then Done(e.(processed := e.processed + {messageId}), None)
    else
      var from := if f.msg.displayName.Some? then f.msg.displayName.value else "Support Agent";
      Done(e.(status := Responded, processed := e.processed + {messageId}), Some(Relay(f.msg.text, from)))
  }

  /** Notifications about one request, processed one after another: the final
      entry and the ids of the messages relayed, in order. A KeyError leaves the
      entry as it was. */
  function Run(e: Request, steps: seq<(string, Fetch)>): (Request, seq<string>)
    decreases |steps|
  {
    if steps == [] then (e, [])
    else
      match Process(e, steps[0].0, steps[0].1)
      case MissingChat => Run(e, steps[1..])
      case Done(next, relay) =>
        var rest := Run(next, steps[1..]);
        (rest.0, (if relay.Some? then [steps[0].0] else []) + rest.1)
  }

  /** Duplicate suppression: however often and in whatever order Graph notifies
      about messages of one request, each message id is relayed at most once, only
      if it was not processed already, and it ends up processed. */
  lemma {:induction false} RelayedAtMostOnce(e: Request, steps: seq<(string, Fetch)>)
    ensures var (final, ids) := Run(e, steps);
            && e.processed <= final.processed
            && (forall k :: 0 <= k < |ids| ==> ids[k] !in e.processed && ids[k] in final.processed)
            && (forall j, k :: 0 <= j < k < |ids| ==> ids[j] != ids[k])
    decreases |steps|
  {
    if steps != [] {
      match Process(e, steps[0].0, steps[0].1)
      case MissingChat =>
        RelayedAtMostOnce(e, steps[1..]);
      case Done(next, relay) =>
        RelayedAtMostOnce(next, steps[1..]);
    }
  }

  /** One element of SUPPORT_TEAM_MEMBERS: its `userId`, None when the lookup by
      e-mail failed (backend/app.py:638-668). */
  datatype TeamMember = TeamMember(userId: Option<string>)

  /** An `aadUserConversationMember` with role owner, bound to the user with this id. */
  datatype ChatMember = ChatMember(userId: string)

  /** The members list of a new Teams chat (backend/app.py:304-312): one owner per
      team member with a truthy user id, in team order. A one-member team gives
      that member or nothing, and MembersAppend splits any team, so together they
      fix the order and the multiplicity of the list. */
  function Members(team: seq<TeamMember>): (r: seq<ChatMember>)
    ensures |team| == 1 ==> r == if Truthy(team[0].userId) then [ChatMember(team[0].userId.value)] else []
    ensures |r| <= |team|
    ensures forall k :: 0 <= k < |r| ==> r[k].userId != "" && exists j :: 0 <= j < |team| && team[j].userId == Some(r[k].userId)
    ensures forall j :: 0 <= j < |team| && Truthy(team[j].userId) ==> ChatMember(team[j].userId.value) in r
  {
    if team == [] then []
    else
      var last := team[|team| - 1];
      var prefix := Members(team[..|team| - 1]);
      assert forall j :: 0 <= j < |team| - 1 ==> team[..|team| - 1][j] == team[j];
      prefix + (if Truthy(last.userId) then [ChatMember(last.userId.value)] else [])
  }

  /** The members of two teams one after the other are the members of the first
      followed by those of the second: one entry per team member, in team order. */
  lemma {:induction false} MembersAppend(a: seq<TeamMember>, b: seq<TeamMember>)
    ensures Members(a + b) == Members(a) + Members(b)
    decreases |b|
  {
    if b == [] {
      assert a + b == a;
    } else {
      var b' := b[..|b| - 1];
      assert (a + b)[..|a + b| - 1] == a + b';
      MembersAppend(a, b');
    }
  }

  /** The loop at backend/app.py:304-312. */
  method BuildMembers(team: seq<TeamMember>) returns (members: seq<ChatMember>)
    ensures members == Members(team)
  {
    members := [];
    var i := 0;
    while i < |team|
      invariant 0 <= i <= |team|
      invariant members == Members(team[..i])
    {
      var userId := team[i].userId;
      if Truthy(userId) {
        members := members + [ChatMember(userId.value)];
      }
      assert team[..i + 1][..i] == team[..i];
      i := i + 1;
    }
    assert team[..i] == team;
  }

  /** The JSON body of `POST /api/support`; a field the body lacks is None. */
  datatype SupportForm = SupportForm(message: Option<string>, userName: Option<string>, userEmail: Option<string>, chatHistory: Option<string>)

  /** How the attempt to create the Teams chat ended: no application token, an
      exception before the answer, or an answer with its status and chat id. */
  datatype ChatCreation = NoAppToken | CreationRaised | ChatAnswered(status: int, chatId: Option<string>)

  /** The result of posting the initial message to the new chat: falsy, or a
      message record with its id. */
  datatype InitialPost = PostFailed | Posted(messageId: Option<string>)

  /** An HTTP response of the API: status code and the JSON fields. */
  datatype ApiResponse = ApiResponse(code: int, success: bool, message: string, requestId: Option<string>)

  /** A message posted to a Teams chat on the user's behalf. */
  datatype TeamsPost = TeamsPost(chatId: string, author: string, text: string)

  /** Where an emit goes: the room named after a request, or back to the calling client. */
  datatype Target = ToRoom(room: string) | ToSender

  datatype ServerEvent =
    | SupportResponse(requestId: string, message: string, responderName: string)
    | UnregisterSuccess(requestId: string)
    | SocketError(message: string)
    | UserMessageEcho(payload: string)

  datatype Emission = Emission(target: Target, event: ServerEvent)

  /** A `send_test_response` background reply scheduled for a request. */
  datatype TestReply = TestReply(requestId: string, message: string)

  /** The id of the created chat: only an answer of 200 or 201 that carries an id
      (without one, `chat_info['id']` raises and the fallback runs). */
  function CreatedChat(c: ChatCreation): (r: Option<string>)
    ensures r.Some? <==> c.ChatAnswered? && (c.status == 200 || c.status == 201) && c.chatId.Some?
  {
    if c.ChatAnswered? && (c.status == 200 || c.status == 201) then c.chatId else None
  }

  /** The note returned by `POST /api/support` on each of its four paths. */
  function SubmitNote(c: ChatCreation): string
  {
    match c
    case NoAppToken => "Support request submitted (fallback mode)"
    case CreationRaised => "Support request submitted (fallback mode - exception)"
    case ChatAnswered(status, chatId) =>
      if status != 200 && status != 201 then "Support request submitted (fallback mode - chat creation failed)"
      else if chatId.None? then "Support request submitted (fallback mode - exception)"
      else "Support request submitted successfully"
  }

  /** A notification of the Graph webhook: its `clientState` and `resourceData.id`. */
  datatype Notification = Notification(clientState: Option<string>, messageId: string)

  datatype NotificationReply = ValidationEcho(token: string) | Accepted | InternalError

  /** The effect of one notification on the table: the new table, the emissions
      and the (request id, message id) of each reply they relay, or the KeyError
      that aborts the batch. */
  datatype Delivery = Delivery(table: map<string, Request>, emitted: seq<Emission>, relayed: seq<(string, string)>, raised: bool)

  function RelayEmission(requestId: string, relay: Option<Relay>): seq<Emission>
  {
    if relay.Some? then [Emission(ToRoom(requestId), SupportResponse(requestId, relay.value.message, relay.value.responderName))] else []
  }

  /** One pass of the loop at backend/app.py:493-500: only a `clientState` that is a
      key of the table is processed. No request is added or removed, at most one
      reply is emitted, and a KeyError leaves the table as it was. */
  function Deliver(t: map<string, Request>, n: Notification, f: Fetch): (d: Delivery)
    ensures d.table.Keys == t.Keys
    ensures |d.emitted| <= 1 && |d.relayed| == |d.emitted|
    ensures d.emitted != [] ==> n.clientState.Some? && d.relayed == [(n.clientState.value, n.messageId)]
    ensures d.raised ==> d.table == t && d.emitted == []
    ensures !(n.clientState.Some? && n.clientState.value in t) ==> d == Delivery(t, [], [], false)
  {
    if n.clientState.Some? && n.clientState.value in t then
      match Process(t[n.clientState.value], n.messageId, f)
      case MissingChat => Delivery(t, [], [], true)
      case Done(e, relay) =>
        Delivery(t[n.clientState.value := e], RelayEmission(n.clientState.value, relay),
                 if relay.Some? then [(n.clientState.value, n.messageId)] else [], false)
    else Delivery(t, [], [], false)
  }

  /** The first `count` notifications of a batch, processed in order; processing
      stops at the first KeyError. Each notification relays at most one reply. */
  function Batch(t: map<string, Request>, ns: seq<Notification>, fs: seq<Fetch>, count: nat): (d: Delivery)
    requires count <= |ns| == |fs|
    ensures |d.emitted| <= count
  {
    if count == 0 then Delivery(t, [], [], false)
    else
      var before := Batch(t, ns, fs, count - 1);
      if before.raised then before
      else
        var d := Deliver(before.table, ns[count - 1], fs[count - 1]);
        Delivery(d.table, before.emitted + d.emitted, before.relayed + d.relayed, d.raised)
  }

  lemma {:induction false} BatchRaisedStays(t: map<string, Request>, ns: seq<Notification>, fs: seq<Fetch>, i: nat, count: nat)
    requires i <= count <= |ns| == |fs|
    requires Batch(t, ns, fs, i).raised
    ensures Batch(t, ns, fs, count) == Batch(t, ns, fs, i)
  {
    if count > i {
      BatchRaisedStays(t, ns, fs, i, count - 1);
    }
  }

  /** A batch whose notifications all carry a `clientState` that is not a key of the
      table causes no processing at all. Whatever it carries, a batch never adds or
      removes a request. */
  lemma {:induction false} BatchKeepsKeys(t: map<string, Request>, ns: seq<Notification>, fs: seq<Fetch>, count: nat)
    requires count <= |ns| == |fs|
    ensures Batch(t, ns, fs, count).table.Keys == t.Keys
    ensures (forall k :: 0 <= k < count ==> !(ns[k].clientState.Some? && ns[k].clientState.value in t)) ==>
              Batch(t, ns, fs, count) == Delivery(t, [], [], false)
  {
    if count > 0 {
      BatchKeepsKeys(t, ns, fs, count - 1);
    }
  }

  /** Every (request id, message id) pair of `relayed` names a request of the
      table that has that message among its processed ones. */
  ghost predicate Tracks(table: map<string, Request>, relayed: seq<(string, string)>)
  {
    forall k :: 0 <= k < |relayed| ==>
      relayed[k].0 in table && relayed[k].1 in table[relayed[k].0].processed
  }

  /** Writing an entry keeps the table tracking what was relayed, as long as the
      entry keeps the processed messages of the one it replaces, or no relayed
      message belongs to its key. */
  lemma TracksAfterWrite(table: map<string, Request>, relayed: seq<(string, string)>, id: string, e: Request)
    requires Tracks(table, relayed)
    requires (id in table && table[id].processed <= e.processed) || id !in table
    ensures Tracks(table[id := e], relayed)
  {
  }

  class Backend {
    var activeRequests: map<string, Request>
    var rooms: set<string>              // the rooms the client has joined
    var outbox: seq<Emission>           // every socket emit, in order
    var testReplies: seq<TestReply>     // background test replies scheduled
    ghost var relayed: seq<(string, string)>   // (request id, Teams message id) of every relayed message

    /** Every relayed message is marked processed in its request, and no message
        of a request has been relayed twice. */
    ghost predicate Valid()
      reads this
    {
      Tracks(activeRequests, relayed) && (forall j, k :: 0 <= j < k < |relayed| ==> relayed[j] != relayed[k])
    }

    constructor ()
      ensures Valid()
      ensures activeRequests == map[] && rooms == {} && outbox == [] && testReplies == [] && relayed == []
    {
      activeRequests, rooms, outbox, testReplies, relayed := map[], {}, [], [], [];
    }

    /** `POST /api/message` (backend/app.py:183-253): three ordered rejections, then
        one post to the request's Teams chat whose result `delivered` decides the
        answer. The table is not changed on any path. */
    method SendFollowupMessage(requestId: Option<string>, message: Option<string>, delivered: bool)
      returns (resp: ApiResponse, post: Option<TeamsPost>)
      ensures !Truthy(requestId) || !Truthy(message) ==>
                resp == ApiResponse(400, false, "Missing requestId or message", None) && post == None
      ensures Truthy(requestId) && Truthy(message) && requestId.value !in activeRequests ==>
                resp == ApiResponse(404, false, "Unknown request ID", None) && post == None
      ensures Truthy(requestId) && Truthy(message) && requestId.value in activeRequests
              && !Truthy(activeRequests[requestId.value].teamsChatId) ==>
                resp == ApiResponse(400, false, "No Teams chat associated with this request", None) && post == None
      ensures post.Some? <==> Truthy(requestId) && Truthy(message) && requestId.value in activeRequests
                              && Truthy(activeRequests[requestId.value].teamsChatId)
      ensures post.Some? ==>
                && post.value == TeamsPost(activeRequests[requestId.value].teamsChatId.value,
                                           activeRequests[requestId.value].userName, message.value)
                && resp.success == delivered
                && resp == (if delivered then ApiResponse(200, true, "Message sent successfully", None)
                            else ApiResponse(500, false, "Failed to send message to Teams", None))
    {
      post := None;
      if !Truthy(requestId) || !Truthy(message) {
        return ApiResponse(400, false, "Missing requestId or message", None), post;
      }
      if requestId.value !in activeRequests {
        return ApiResponse(404, false, "Unknown request ID", None), post;
      }
      var entry := activeRequests[requestId.value];
      if !Truthy(entry.teamsChatId) {
        return ApiResponse(400, false, "No Teams chat associated with this request", None), post;
      }
      post := Some(TeamsPost(entry.teamsChatId.value, entry.userName, message.value));
      if !delivered {
        return ApiResponse(500, false, "Failed to send message to Teams", None), post;
      }
      resp := ApiResponse(200, true, "Message sent successfully", None);
    }

    /** `POST /api/support` (backend/app.py:256-422). A fresh id (uuid4) is entered as
        pending with the form's name, e-mail and message before anything else; the
        answer is a success carrying that id on every path. The Teams chat id is
        recorded only when creation answered 200 or 201 with an id, the initial
        message id only after that; when no chat was created a test reply is
        scheduled. `members` is the member list of a creation request that was
        answered. */
    method SubmitSupportRequest(form: SupportForm, requestId: string, now: string, team: seq<TeamMember>,
                                creation: ChatCreation, initial: InitialPost)
      returns (resp: ApiResponse, members: Option<seq<ChatMember>>)
      requires Valid() && requestId !in activeRequests
      modifies this`activeRequests, this`testReplies
      ensures Valid()
      ensures resp == ApiResponse(200, true, SubmitNote(creation), Some(requestId))
      ensures var chat := CreatedChat(creation);
              activeRequests == old(activeRequests)[requestId := Request(
                  if form.userName.Some? then form.userName.value else "Anonymous User",
                  OrEmpty(form.userEmail), OrEmpty(form.message), now, Pending, chat,
                  if chat.Some? && initial.Posted? && Truthy(initial.messageId) then initial.messageId else None,
                  {})]
      ensures testReplies == old(testReplies)
                + (if CreatedChat(creation).None? then [TestReply(requestId, "This is a test response to: " + OrEmpty(form.message))] else [])
      ensures members == if creation.ChatAnswered? then Some(Members(team)) else None
    {
      var userMessage := OrEmpty(form.message);
      var userName := if form.userName.Some? then form.userName.value else "Anonymous User";
      TracksAfterWrite(activeRequests, relayed, requestId, Request(userName, OrEmpty(form.userEmail), userMessage, now, Pending, None, None, {}));
      activeRequests := activeRequests[requestId := Request(userName, OrEmpty(form.userEmail), userMessage, now, Pending, None, None, {})];
      members := AttachTeamsChat(requestId, team, creation, initial);
      assert activeRequests == old(activeRequests)[requestId := activeRequests[requestId]];
      if CreatedChat(creation).None? {
        testReplies := testReplies + [TestReply(requestId, "This is a test response to: " + userMessage)];
      }
      resp := ApiResponse(200, true, SubmitNote(creation), Some(requestId));
    }

    /** The Teams part of `POST /api/support` (backend/app.py:284-403) on the entry
        just inserted: the member list is built once creation is attempted with a
        token, the chat id is recorded only when creation answered 200 or 201 with
        an id, and the initial message id only after that and only when the post
        returned a truthy id. Nothing else in the table changes. */
    method AttachTeamsChat(requestId: string, team: seq<TeamMember>, creation: ChatCreation, initial: InitialPost)
      returns (members: Option<seq<ChatMember>>)
      requires Valid() && requestId in activeRequests && activeRequests[requestId].teamsChatId.None?
      modifies this`activeRequests
      ensures Valid()
      ensures var chat := CreatedChat(creation);
              activeRequests == old(activeRequests)[requestId := old(activeRequests)[requestId].(
                teamsChatId := chat,
                initialMessageId := if chat.Some? && initial.Posted? && Truthy(initial.messageId) then initial.messageId else old(activeRequests)[requestId].initialMessageId)]
      ensures members == if creation.ChatAnswered? then Some(Members(team)) else None
    {
      members := None;
      if creation.NoAppToken? || creation.CreationRaised? {
        return;
      }
      var list := BuildMembers(team);
      members := Some(list);
      if (creation.status != 200 && creation.status != 201) || creation.chatId.None? {
        return;
      }
      TracksAfterWrite(activeRequests, relayed, requestId, activeRequests[requestId].(teamsChatId := creation.chatId));
      activeRequests := activeRequests[requestId := activeRequests[requestId].(teamsChatId := creation.chatId)];
      if initial.Posted? && Truthy(initial.messageId) {
        TracksAfterWrite(activeRequests, relayed, requestId, activeRequests[requestId].(initialMessageId := initial.messageId));
        activeRequests := activeRequests[requestId := activeRequests[requestId].(initialMessageId := initial.messageId)];
      }
    }

    /** `fetch_and_process_chat_message` (backend/app.py:504-580), updating the entry
        in place; `raised` reports the KeyError, which an id the table does not hold
        raises too once a token was obtained. */
    method FetchAndProcess(requestId: string, messageId: string, f: Fetch) returns (raised: bool)
      requires Valid()
      modifies this`activeRequests, this`outbox, this`relayed
      ensures Valid()
      ensures requestId !in old(activeRequests) ==>
                raised == !f.NoAccessToken? && unchanged(this`activeRequests, this`outbox, this`relayed)
      ensures requestId in old(activeRequests) ==>
              match Process(old(activeRequests[requestId]), messageId, f)
              case MissingChat => raised && unchanged(this`activeRequests, this`outbox, this`relayed)
              case Done(e, relay) =>
                && !raised
                && activeRequests == old(activeRequests)[requestId := e]
                && outbox == old(outbox) + RelayEmission(requestId, relay)
                && relayed == old(relayed) + (if relay.Some? then [(requestId, messageId)] else [])
    {
      if requestId !in activeRequests {
        return !f.NoAccessToken?;
      }
      var entry := activeRequests[requestId];
      if messageId in entry.processed || f.NoAccessToken? {
        return false;
      }
      if entry.teamsChatId.None? {
        return true;
      }
      if f.Unavailable? || Some(messageId) == entry.initialMessageId {
        return false;
      }
      var msg := f.msg;
      if msg.isHtml && msg.isUserEcho {
        activeRequests := activeRequests[requestId := entry.(processed := entry.processed + {messageId})];
        return false;
      }
      var from := if msg.displayName.Some? then msg.displayName.value else "Support Agent";
      activeRequests := activeRequests[requestId := activeRequests[requestId].(status := Responded)];
      outbox := outbox + [Emission(ToRoom(requestId), SupportResponse(requestId, msg.text, from))];
      activeRequests := activeRequests[requestId := activeRequests[requestId].(processed := activeRequests[requestId].processed + {messageId})];
      relayed := relayed + [(requestId, messageId)];
      raised := false;
    }

    /** One pass of the loop at backend/app.py:493-500: the notification is
        processed only when its `clientState` names a request in the table. */
    method HandleNotification(n: Notification, f: Fetch) returns (raised: bool)
      requires Valid()
      modifies this`activeRequests, this`outbox, this`relayed
      ensures Valid()
      ensures var d := Deliver(old(activeRequests), n, f);
              && activeRequests == d.table && outbox == old(outbox) + d.emitted && raised == d.raised
              && relayed == old(relayed) + d.relayed
    {
      raised := false;
      if n.clientState.Some? && n.clientState.value in activeRequests {
        raised := FetchAndProcess(n.clientState.value, n.messageId, f);
      }
    }

    /** `POST /api/notifications` (backend/app.py:481-502): a validation request is
        answered with its token and nothing else happens; otherwise each notification
        is handled in order, and a KeyError aborts the batch with an internal error. */
    method HandleNotifications(validationToken: Option<string>, notifications: seq<Notification>, fetches: seq<Fetch>)
      returns (reply: NotificationReply)
      requires Valid() && |fetches| == |notifications|
      modifies this`activeRequests, this`outbox, this`relayed
      ensures Valid()
      ensures Truthy(validationToken) ==>
                reply == ValidationEcho(validationToken.value) && unchanged(this`activeRequests, this`outbox, this`relayed)
      ensures !Truthy(validationToken) ==>
                var d := Batch(old(activeRequests), notifications, fetches, |notifications|);
                && activeRequests == d.table
                && outbox == old(outbox) + d.emitted
                && reply == (if d.raised then InternalError else Accepted)
                && relayed == old(relayed) + d.relayed
    {
      if Truthy(validationToken) {
        return ValidationEcho(validationToken.value);
      }
      var raised := HandleBatch(notifications, fetches);
      reply := if raised then InternalError else Accepted;
    }

    /** The loop at backend/app.py:493-500 over the notifications of one request to
        the webhook, stopping at the first KeyError. */
    method HandleBatch(notifications: seq<Notification>, fetches: seq<Fetch>) returns (raised: bool)
      requires Valid() && |fetches| == |notifications|
      modifies this`activeRequests, this`outbox, this`relayed
      ensures Valid()
      ensures var d := Batch(old(activeRequests), notifications, fetches, |notifications|);
              && activeRequests == d.table && outbox == old(outbox) + d.emitted && raised == d.raised
              && relayed == old(relayed) + d.relayed
    {
      ghost var t0, o0, r0 := activeRequests, outbox, relayed;
      ghost var done := Delivery(t0, [], [], false);
      raised := false;
      var i := 0;
      while i < |notifications| && !raised
        invariant 0 <= i <= |notifications|
        invariant Valid()
        invariant done == Batch(t0, notifications, fetches, i)
        invariant raised == done.raised && activeRequests == done.table && outbox == o0 + done.emitted
        invariant relayed == r0 + done.relayed
      {
        ghost var d := Deliver(activeRequests, notifications[i], fetches[i]);
        raised := HandleNotification(notifications[i], fetches[i]);
        done := Delivery(d.table, done.emitted + d.emitted, done.relayed + d.relayed, d.raised);
        assert done == Batch(t0, notifications, fetches, i + 1);
        i := i + 1;
      }
      if raised {
        BatchRaisedStays(t0, notifications, fetches, i, |notifications|);
      }
    }

    /** The socket `register` event (backend/app.py:587-603): join the request's room
        and, if that request has already been answered, tell the caller so. */
    method HandleRegister(requestId: Option<string>)
      modifies this`rooms, this`outbox
      ensures Truthy(requestId) ==>
                && rooms == old(rooms) + {requestId.value}
                && outbox == old(outbox) +
                     (if requestId.value in activeRequests && activeRequests[requestId.value].status == Responded
                      then [Emission(ToSender, SupportResponse(requestId.value, "A response has already been provided. Please check your history.", "System"))]
                      else [])
      ensures !Truthy(requestId) ==> unchanged(this`rooms, this`outbox)
    {
      if Truthy(requestId) {
        var id := requestId.value;
        rooms := rooms + {id};
        if id in activeRequests && activeRequests[id].status == Responded {
          outbox := outbox + [Emission(ToSender, SupportResponse(id, "A response has already been provided. Please check your history.", "System"))];
        }
      }
    }

    /** The socket `user_message_echo` event (backend/app.py:605-610). */
    method HandleUserMessage(room: Option<string>, payload: string)
      modifies this`outbox
      ensures outbox == old(outbox) + (if Truthy(room) then [Emission(ToRoom(room.value), UserMessageEcho(payload))] else [])
    {
      if Truthy(room) {
        outbox := outbox + [Emission(ToRoom(room.value), UserMessageEcho(payload))];
      }
    }

    /** The socket `unregister` event (backend/app.py:619-636): leave the room,
        confirm, and mark a known request aborted; without an id, report an error
        and change nothing else. */
    method HandleUnregister(requestId: Option<string>)
      requires Valid()
      modifies this`rooms, this`outbox, this`activeRequests
      ensures Valid()
      ensures Truthy(requestId) ==>
                && rooms == old(rooms) - {requestId.value}
                && outbox == old(outbox) + [Emission(ToSender, UnregisterSuccess(requestId.value))]
                && activeRequests == (if requestId.value in old(activeRequests)
                                      then old(activeRequests)[requestId.value := old(activeRequests)[requestId.value].(status := Aborted)]
                                      else old(activeRequests))
      ensures !Truthy(requestId) ==>
                && outbox == old(outbox) + [Emission(ToSender, SocketError("No request ID provided for unregistration"))]
                && unchanged(this`rooms, this`activeRequests)
    {
      if Truthy(requestId) {
        var id := requestId.value;
        rooms := rooms - {id};
        outbox := outbox + [Emission(ToSender, UnregisterSuccess(id))];
        if id in activeRequests {
          activeRequests := activeRequests[id := activeRequests[id].(status := Aborted)];
        }
      } else {
        outbox := outbox + [Emission(ToSender, SocketError("No request ID provided for unregistration"))];
      }
    }
  }
}
