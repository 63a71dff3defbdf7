/** The chat client's session state (frontend/src/App.js): the React state
    variables become the fields of one object, every handler becomes a method
    that changes exactly the fields it names, and the collaborators are made
    explicit: the browser's sessionStorage is a map field, the socket is the
    `connected` flag, the request id its handlers captured (`boundTo`) and the
    list of events the client emitted (`outbox`), and each pending `setTimeout`
    callback is an entry of `pending`. HTTP results arrive as parameters. */
module ChatClient {
  import opened Common
  import opened Transcript
  import opened Dialogue

  // sessionStorage keys.
  const RequestIdKey := "currentRequestId"
  const UserNameKey := "userName"
  const UserEmailKey := "userEmail"

  const FollowupFallback := "Failed to send follow-up message"
  const TicketFallback := "Failed to submit support request"
  const TransportFallback := "Failed to connect to support server"

  /** The customer record the greeting effect fills in (frontend/src/App.js:53-59). */
  datatype Profile = Profile(name: string, email: string, company: string, plan: string, activeServices: seq<string>)

  const SimulatedProfile := Profile("Customer A", "abc@123.com", "Acme Corp", "Enterprise", ["VM Hosting", "Storage", "CDN"])

  /** A scheduled bot reply (a `setTimeout` callback not yet fired). */
  datatype Deferred = OptionReply(option: Choice) | Deflection

  /** An event the client emits on its socket. */
  datatype ClientEmit = Register(requestId: string) | Unregister(requestId: string)

  /** The HTTP request a send makes. A new ticket carries the bot transcript as it
      was when the request was made; the `chatHistory` field of its body is that
      transcript's Summary (frontend/src/App.js:380-382). */
  datatype ApiCall =
    | CreateTicket(message: string, userName: string, userEmail: string, transcript: seq<Message>)
    | SendFollowup(requestId: string, message: string)

  /** How that request ended: a JSON answer (`data.success`, `data.requestId`,
      `data.message`, with "" standing for a missing field), or a thrown error
      with its message. */
  datatype ApiOutcome = Answered(success: bool, requestId: string, message: string) | Raised(message: string)

  function ReplyFor(d: Deferred): Reply
  {
    match d
    case OptionReply(option) => Respond(option)
    case Deflection => Deflect()
  }

  function Lookup(store: map<string, string>, key: string): Option<string>
  {
    if key in store then Some(store[key]) else None
  }

  /** The ticket a possibly-missing id stands for: a falsy id stands for none. */
  function Ticket(id: Option<string>): Option<string>
  {
    if Truthy(id) then id else None
  }

  /** `sessionStorage.setItem(key, value)` guarded by `if (value)`. */
  function Remember(store: map<string, string>, key: string, value: string): map<string, string>
  {
    if value != "" then store[key := value] else store
  }

  function ProfileName(info: Option<Profile>): string
  {
    if info.Some? then info.value.name else ""
  }

  function ProfileEmail(info: Option<Profile>): string
  {
    if info.Some? then info.value.email else ""
  }

  predicate Delivered(outcome: ApiOutcome)
  {
    outcome.Answered? && outcome.success
  }

  /** The error message for a failed send; `fallback` is the default for a JSON answer
      with `success: false`, a thrown error has its own default. */
  function FailureNotice(outcome: ApiOutcome, fallback: string, now: Timestamp): Message
  {
    match outcome
    case Answered(_, _, detail) => ErrorNotice(detail, fallback, now)
    case Raised(detail) => ErrorNotice(detail, TransportFallback, now)
  }

  predicate IsWhitespace(c: char)
  {
    c in {' ', '\t', '\n', '\r', '\U{000B}', '\U{000C}', '\U{00A0}', '\U{1680}', '\U{2028}', '\U{2029}',
          '\U{202F}', '\U{205F}', '\U{3000}', '\U{FEFF}'}
    || ('\U{2000}' <= c <= '\U{200A}')
  }

  /** `!text.trim()`. */
  predicate IsBlank(text: string)
  {
    forall k :: 0 <= k < |text| ==> IsWhitespace(text[k])
  }

  class ChatSession {
    var messages: seq<Message>         // the human-ticket thread
    var chatHistory: seq<Message>      // the bot transcript
    var suggestedOptions: seq<Choice>
    var chatbotActive: bool
    var endChat: bool
    var isLoading: bool
    var requestId: Option<string>
    var userName: string
    var userEmail: string
    var userInfo: Option<Profile>
    var storage: map<string, string>   // sessionStorage
    var connected: bool                // socketRef.current.connected
    var boundTo: Option<string>        // the requestId the current socket's handlers captured
    var outbox: seq<ClientEmit>        // every emit on the socket, in order
    var pending: seq<Deferred>         // scheduled bot replies, in firing order

    /** The sender shown on the user's own messages (frontend/src/App.js:67, 291,
        315): the typed name, else the profile's name, else 'You'; never empty. */
    function SenderName(): (r: string)
      reads this
      ensures r != ""
      ensures userName != "" ==> r == userName
      ensures userName == "" && ProfileName(userInfo) != "" ==> r == ProfileName(userInfo)
      ensures userName == "" && ProfileName(userInfo) == "" ==> r == "You"
    {
      Or(Or(userName, ProfileName(userInfo)), "You")
    }

    /** The stored ticket id, if storage holds a truthy one. */
    function StoredTicket(): Option<string>
      reads this
    {
      Ticket(Lookup(storage, RequestIdKey))
    }

    /** The live ticket id and the stored one agree. */
    predicate Synced()
      reads this
    {
      Ticket(requestId) == StoredTicket()
    }

    /** The first render: the `useState` initial values, with the storage the
        page finds, and a socket created with `requestId` still null. */
    constructor (saved: map<string, string>)
      ensures messages == [] && chatHistory == [] && suggestedOptions == []
      ensures chatbotActive && !endChat && !isLoading
      ensures requestId == None && userName == "" && userEmail == "" && userInfo == None
      ensures storage == saved && !connected && boundTo == None && outbox == [] && pending == []
    {
      messages, chatHistory, suggestedOptions := [], [], [];
      chatbotActive, endChat, isLoading := true, false, false;
      requestId, userName, userEmail, userInfo := None, "", "", None;
      storage, connected, boundTo, outbox, pending := saved, false, None, [], [];
    }

    /** The greeting effect (frontend/src/App.js:30-61), which React runs whenever
        `chatbotActive` or `chatHistory` changes: an active bot with an empty
        transcript is seeded with the greeting and the initial menu. */
    method SeedGreeting(now: Timestamp)
      modifies this`chatHistory, this`suggestedOptions, this`userInfo
      ensures old(chatbotActive && chatHistory == []) ==>
                chatHistory == [BotMessage(Greeting, now)] && suggestedOptions == InitialOptions
                && userInfo == Some(SimulatedProfile)
      ensures !old(chatbotActive && chatHistory == []) ==>
                unchanged(this`chatHistory, this`suggestedOptions, this`userInfo)
    {
      if chatbotActive && |chatHistory| == 0 {
        chatHistory := [BotMessage(Greeting, now)];
        suggestedOptions := InitialOptions;
        userInfo := Some(SimulatedProfile);
      }
    }

    /** The storage-restore effect (frontend/src/App.js:464-480): truthy stored values
        replace the current ones. */
    method RestoreFromStorage()
      modifies this`requestId, this`userName, this`userEmail
      ensures requestId == if Truthy(Lookup(storage, RequestIdKey)) then Lookup(storage, RequestIdKey) else old(requestId)
      ensures userName == Or(OrEmpty(Lookup(storage, UserNameKey)), old(userName))
      ensures userEmail == Or(OrEmpty(Lookup(storage, UserEmailKey)), old(userEmail))
      ensures !Truthy(old(requestId)) ==> Synced()
    {
      var savedRequestId := Lookup(storage, RequestIdKey);
      var savedUserName := OrEmpty(Lookup(storage, UserNameKey));
      var savedUserEmail := OrEmpty(Lookup(storage, UserEmailKey));
      if Truthy(savedRequestId) {
        requestId := savedRequestId;
      }
      if savedUserName != "" {
        userName := savedUserName;
      }
      if savedUserEmail != "" {
        userEmail := savedUserEmail;
      }
    }

    /** A click on an option button (frontend/src/App.js:64-73). Buttons exist only
        while the bot is active and the chat has not ended, one for each entry of
        `suggestedOptions` (621, 660-667). The user's selection goes into the bot
        transcript at once; the reply is scheduled. */
    method SelectOption(option: Choice, now: Timestamp)
      requires chatbotActive && !endChat && option in suggestedOptions
      modifies this`chatHistory, this`pending
      ensures chatHistory == old(chatHistory) + [UserMessage(SenderName(), Label(option), now)]
      ensures pending == old(pending) + [OptionReply(option)]
    {
      chatHistory := chatHistory + [UserMessage(SenderName(), Label(option), now)];
      pending := pending + [OptionReply(option)];
    }

    /** The oldest scheduled reply fires (frontend/src/App.js:76-277, 300-311): exactly
        one bot message is appended to the transcript and the reply's option update
        and effect are applied. Nothing checks whether the conversation changed since
        the reply was scheduled. */
    method DeliverBotReply(now: Timestamp)
      requires pending != []
      modifies this`chatHistory, this`pending, this`suggestedOptions, this`chatbotActive, this`endChat
      ensures var r := ReplyFor(old(pending[0]));
              && chatHistory == old(chatHistory) + [BotMessage(r.text, now)]
              && suggestedOptions == ApplyOptions(r.options, old(suggestedOptions))
              && chatbotActive == (old(chatbotActive) && r.effect != HandOff)
              && endChat == (old(endChat) || r.effect == EndChat)
      ensures pending == old(pending[1..])
    {
      var r := ReplyFor(pending[0]);
      pending := pending[1..];
      chatHistory := chatHistory + [BotMessage(r.text, now)];
      suggestedOptions := ApplyOptions(r.options, suggestedOptions);
      chatbotActive := chatbotActive && r.effect != HandOff;
      endChat := endChat || r.effect == EndChat;
    }

    /** The send form (frontend/src/App.js:281-461); the form is shown only while the
        chat has not ended and is disabled while busy (715, 722, 727). Blank text does
        nothing (284). While the bot is active the text goes to the transcript; in
        human mode it goes to the ticket thread and makes one HTTP request, returned
        as `call`, whose result is `outcome`. */
    method Submit(text: string, now: Timestamp, outcome: ApiOutcome) returns (call: Option<ApiCall>)
      requires !endChat && !isLoading
      modifies this`chatHistory, this`pending, this`messages, this`isLoading, this`requestId,
               this`storage, this`userName, this`userEmail, this`outbox
      ensures IsBlank(text) ==> call == None && unchanged(this)
      ensures !IsBlank(text) && old(chatbotActive) ==>
                && call == None
                && chatHistory == old(chatHistory) + [UserMessage(old(SenderName()), text, now)]
                && pending == old(pending) + [Deflection]
                && unchanged(this`messages, this`isLoading, this`requestId, this`storage,
                             this`userName, this`userEmail, this`outbox)
      ensures !IsBlank(text) && !old(chatbotActive) && Truthy(old(requestId)) ==>
                && call == Some(SendFollowup(old(requestId).value, text))
                && messages == old(messages) + [UserMessage(old(SenderName()), text, now)]
                                + (if Delivered(outcome) then [] else [FailureNotice(outcome, FollowupFallback, now)])
                && isLoading == Delivered(outcome)
                && unchanged(this`chatHistory, this`pending, this`requestId, this`storage,
                             this`userName, this`userEmail, this`outbox)
      ensures !IsBlank(text) && !old(chatbotActive) && !Truthy(old(requestId)) ==>
                && call == Some(CreateTicket(text,
                                             Or(Or(old(userName), ProfileName(old(userInfo))), "Anonymous User"),
                                             Or(Or(old(userEmail), ProfileEmail(old(userInfo))), "anonymous@example.com"),
                                             old(chatHistory)))
                && userName == Or(old(userName), ProfileName(old(userInfo)))
                && userEmail == Or(old(userEmail), ProfileEmail(old(userInfo)))
                && unchanged(this`chatHistory, this`pending)
                && (Delivered(outcome) ==>
                      && requestId == Some(outcome.requestId)
                      && storage == Remember(Remember(old(storage), UserNameKey, userName), UserEmailKey, userEmail)[RequestIdKey := outcome.requestId]
                      && outbox == old(outbox) + (if connected then [Register(outcome.requestId)] else [])
                      && messages == old(messages) + [UserMessage(old(SenderName()), text, now), SystemNotice(Submitted, now)]
                      && isLoading)
                && (!Delivered(outcome) ==>
                      && requestId == old(requestId)
                      && storage == Remember(Remember(old(storage), UserNameKey, userName), UserEmailKey, userEmail)
                      && outbox == old(outbox)
                      && messages == old(messages) + [UserMessage(old(SenderName()), text, now), FailureNotice(outcome, TicketFallback, now)]
                      && !isLoading)
      ensures old(Synced()) ==> Synced()
    {
      call := None;
      if IsBlank(text) {
        return;
      }
      if chatbotActive {
        TypeToBot(text, now);
      } else if Truthy(requestId) {
        call := PostFollowup(text, now, outcome);
      } else {
        call := OpenTicket(text, now, outcome);
      }
    }

    /** Typed text while the bot is active (frontend/src/App.js:288-311): the user's
        message goes into the transcript and the fixed deflection is scheduled; the
        text is never looked up in the option table. */
    method TypeToBot(text: string, now: Timestamp)
      modifies this`chatHistory, this`pending
      ensures chatHistory == old(chatHistory) + [UserMessage(SenderName(), text, now)]
      ensures pending == old(pending) + [Deflection]
    {
      chatHistory := chatHistory + [UserMessage(SenderName(), text, now)];
      pending := pending + [Deflection];
    }

    /** A send in human mode when a ticket exists (frontend/src/App.js:313-359,
        439-456): the message joins the thread and the client is busy; a failed
        answer or a thrown error appends one error message and clears the busy
        flag, a success leaves the client busy until a reply or a socket error. */
    method PostFollowup(text: string, now: Timestamp, outcome: ApiOutcome) returns (call: Option<ApiCall>)
      requires Truthy(requestId)
      modifies this`messages, this`isLoading
      ensures call == Some(SendFollowup(requestId.value, text))
      ensures messages == old(messages) + [UserMessage(SenderName(), text, now)]
                          + (if Delivered(outcome) then [] else [FailureNotice(outcome, FollowupFallback, now)])
      ensures isLoading == Delivered(outcome)
    {
      messages := messages + [UserMessage(SenderName(), text, now)];
      isLoading := true;
      call := Some(SendFollowup(requestId.value, text));
      if !Delivered(outcome) {
        messages := messages + [FailureNotice(outcome, FollowupFallback, now)];
        isLoading := false;
      }
    }

    /** The identity writes before a new ticket (frontend/src/App.js:364-377): a typed
        name (or e-mail) is stored; failing that, the profile's is stored and adopted. */
    method StoreIdentity()
      modifies this`storage, this`userName, this`userEmail
      ensures userName == Or(old(userName), ProfileName(userInfo))
      ensures userEmail == Or(old(userEmail), ProfileEmail(userInfo))
      ensures storage == Remember(Remember(old(storage), UserNameKey, userName), UserEmailKey, userEmail)
    {
      if userName != "" {
        storage := storage[UserNameKey := userName];
      } else if userInfo.Some? && userInfo.value.name != "" {
        storage := storage[UserNameKey := userInfo.value.name];
        userName := userInfo.value.name;
      }
      if userEmail != "" {
        storage := storage[UserEmailKey := userEmail];
      } else if userInfo.Some? && userInfo.value.email != "" {
        storage := storage[UserEmailKey := userInfo.value.email];
        userEmail := userInfo.value.email;
      }
    }

    /** The first send in human mode (frontend/src/App.js:313-323, 360-400): the
        message joins the thread, the client is busy, the identity is stored and a
        new ticket is requested with the transcript's summary; `outcome` is then
        applied by RecordTicket. */
    method OpenTicket(text: string, now: Timestamp, outcome: ApiOutcome) returns (call: Option<ApiCall>)
      modifies this`messages, this`isLoading, this`requestId, this`storage, this`userName,
               this`userEmail, this`outbox
      ensures call == Some(CreateTicket(text,
                                        Or(Or(old(userName), ProfileName(userInfo)), "Anonymous User"),
                                        Or(Or(old(userEmail), ProfileEmail(userInfo)), "anonymous@example.com"),
                                        chatHistory))
      ensures userName == Or(old(userName), ProfileName(userInfo))
      ensures userEmail == Or(old(userEmail), ProfileEmail(userInfo))
      ensures var stored := Remember(Remember(old(storage), UserNameKey, userName), UserEmailKey, userEmail);
              var sent := old(messages) + [UserMessage(old(SenderName()), text, now)];
              if Delivered(outcome) then
                && requestId == Some(outcome.requestId)
                && storage == stored[RequestIdKey := outcome.requestId]
                && outbox == old(outbox) + (if connected then [Register(outcome.requestId)] else [])
                && messages == sent + [SystemNotice(Submitted, now)]
                && isLoading
              else
                && requestId == old(requestId)
                && storage == stored
                && outbox == old(outbox)
                && messages == sent + [FailureNotice(outcome, TicketFallback, now)]
                && !isLoading
    {
      messages := messages + [UserMessage(SenderName(), text, now)];
      isLoading := true;
      // The request body reads the name and e-mail from before StoreIdentity.
      var bodyName := Or(Or(userName, ProfileName(userInfo)), "Anonymous User");
      var bodyEmail := Or(Or(userEmail, ProfileEmail(userInfo)), "anonymous@example.com");
      StoreIdentity();
      call := Some(CreateTicket(text, bodyName, bodyEmail, chatHistory));
      RecordTicket(outcome, now);
    }

    /** The answer to a new-ticket request (frontend/src/App.js:402-456). On success
        the id becomes the live and the stored ticket, is registered if the socket is
        connected, and the "submitted" notice is appended; the client stays busy. On
        failure one error message is appended, the busy flag is cleared and still no
        ticket exists. */
    method RecordTicket(outcome: ApiOutcome, now: Timestamp)
      modifies this`messages, this`isLoading, this`requestId, this`storage, this`outbox
      ensures Delivered(outcome) ==>
                && requestId == Some(outcome.requestId)
                && storage == old(storage)[RequestIdKey := outcome.requestId]
                && outbox == old(outbox) + (if connected then [Register(outcome.requestId)] else [])
                && messages == old(messages) + [SystemNotice(Submitted, now)]
                && isLoading == old(isLoading)
      ensures !Delivered(outcome) ==>
                && unchanged(this`requestId, this`storage, this`outbox)
                && messages == old(messages) + [FailureNotice(outcome, TicketFallback, now)]
                && !isLoading
    {
      if Delivered(outcome) {
        requestId := Some(outcome.requestId);
        storage := storage[RequestIdKey := outcome.requestId];
        if connected {
          outbox := outbox + [Register(outcome.requestId)];
        }
        messages := messages + [SystemNotice(Submitted, now)];
      } else {
        messages := messages + [FailureNotice(outcome, TicketFallback, now)];
        isLoading := false;
      }
    }

    /** The socket effect's body (frontend/src/App.js:485): a fresh socket whose
        handlers capture the current `requestId`; it is not connected yet. */
    method OpenChannel()
      modifies this`boundTo, this`connected
      ensures boundTo == requestId && !connected
    {
      boundTo := requestId;
      connected := false;
    }

    /** The socket effect's cleanup (frontend/src/App.js:546-554), run before the
        effect re-runs on every `requestId` change and on unmount: it unregisters
        whatever id storage holds NOW, then disconnects. When storage is in step
        with `requestId` that is the new id, not the one the socket was bound to. */
    method CloseChannel()
      modifies this`outbox, this`connected
      ensures outbox == old(outbox) + (if StoredTicket().Some? then [Unregister(StoredTicket().value)] else [])
      ensures Synced() && Truthy(requestId) ==> outbox == old(outbox) + [Unregister(requestId.value)]
      ensures !connected
    {
      var currentRequestId := Lookup(storage, RequestIdKey);
      if Truthy(currentRequestId) {
        outbox := outbox + [Unregister(currentRequestId.value)];
      }
      connected := false;
    }

    /** The socket's `connect` event (frontend/src/App.js:488-496): re-register the
        id the handlers captured. */
    method OnConnect()
      modifies this`connected, this`outbox
      ensures connected
      ensures outbox == old(outbox) + (if Truthy(boundTo) then [Register(boundTo.value)] else [])
    {
      connected := true;
      if Truthy(boundTo) {
        outbox := outbox + [Register(boundTo.value)];
      }
    }

    /** The socket's `disconnect` event (frontend/src/App.js:498-501). */
    method OnDisconnect()
      modifies this`connected
      ensures !connected
    {
      connected := false;
    }

    /** A `support_response` event (frontend/src/App.js:503-525): appended to the
        ticket thread, and the busy flag cleared, only when its request id is the
        one the handlers captured; any other event changes nothing. */
    method OnSupportResponse(eventRequestId: string, text: string, responderName: string, now: Timestamp)
      modifies this`messages, this`isLoading
      ensures Some(eventRequestId) == boundTo ==>
                messages == old(messages) + [AgentMessage(responderName, text, now)] && !isLoading
      ensures Some(eventRequestId) != boundTo ==> unchanged(this`messages, this`isLoading)
    {
      if Some(eventRequestId) == boundTo {
        messages := messages + [AgentMessage(responderName, text, now)];
        isLoading := false;
      }
    }

    /** A socket `error` event (frontend/src/App.js:539-543). */
    method OnError()
      modifies this`isLoading
      ensures !isLoading
    {
      isLoading := false;
    }

    /** `cleanupConversation` (frontend/src/App.js:564-575). */
    method CleanupConversation()
      modifies this`isLoading, this`outbox
      ensures !isLoading
      ensures outbox == old(outbox) + (if connected && StoredTicket().Some? then [Unregister(StoredTicket().value)] else [])
    {
      isLoading := false;
      if connected {
        var currentRequestId := Lookup(storage, RequestIdKey);
        if Truthy(currentRequestId) {
          outbox := outbox + [Unregister(currentRequestId.value)];
        }
      }
    }

    /** `startNewConversation` (frontend/src/App.js:577-589), offered only when a
        ticket exists or the chat has ended (735). Both logs are emptied, the bot is
        active again and the stored id is removed; the option list and the pending
        replies are left as they are, and the greeting effect re-seeds afterwards. */
    method StartNewConversation()
      requires Truthy(requestId) || endChat
      modifies this`isLoading, this`outbox, this`requestId, this`messages, this`chatHistory,
               this`chatbotActive, this`endChat, this`storage
      ensures !isLoading && requestId == None
      ensures messages == [] && chatHistory == [] && chatbotActive && !endChat
      ensures outbox == old(outbox) + (if connected && old(StoredTicket()).Some? then [Unregister(old(StoredTicket()).value)] else [])
      ensures storage == old(storage) - {RequestIdKey}
      ensures Synced()
    {
      CleanupConversation();
      requestId := None;
      messages := [];
      chatHistory := [];
      chatbotActive := true;
      endChat := false;
      storage := storage - {RequestIdKey};
    }
  }
}
