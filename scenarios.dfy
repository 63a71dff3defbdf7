/** Whole conversations run on a fresh ChatSession, one handler after another in
    the order React and the socket would call them. Each method returns what an
    observer of the page and of the socket would see, and its contract states it. */
module ClientScenarios {
  import opened Common
  import opened Transcript
  import opened Dialogue
  import opened ChatClient

  /** 'Talk to a support agent' hands off without clearing the menu: the bot is
      inactive and the greeting's options are still the suggested ones. */
  method TalkToAgentKeepsMenu(now: Timestamp) returns (transcript: seq<Message>, options: seq<Choice>, bot: bool)
    ensures transcript == [BotMessage(Greeting, now), UserMessage("Customer A", Label(TalkToAgent), now), BotMessage(Connecting, now)]
    ensures options == InitialOptions && !bot
  {
    HandoffPaths();
    var s := new ChatSession(map[]);
    s.SeedGreeting(now);
    s.SelectOption(TalkToAgent, now);
    s.DeliverBotReply(now);
    transcript, options, bot := s.chatHistory, s.suggestedOptions, s.chatbotActive;
  }

  /** A fresh page greets the user, who picks 'Talk to a support agent': the bot
      hands off and the next send goes to a ticket, under the profile's name. */
  method GreetThenHandOff(s: ChatSession, now: Timestamp)
    requires s.chatHistory == [] && s.chatbotActive && !s.endChat && !s.isLoading
    requires s.requestId == None && s.userName == "" && s.userEmail == "" && s.pending == []
    modifies s
    ensures !s.chatbotActive && !s.endChat && !s.isLoading && s.pending == []
    ensures s.requestId == None && s.userName == "" && s.userEmail == "" && s.userInfo == Some(SimulatedProfile)
    ensures s.messages == old(s.messages) && s.storage == old(s.storage) && s.outbox == old(s.outbox)
    ensures s.connected == old(s.connected) && s.boundTo == old(s.boundTo)
  {
    HandoffPaths();
    s.SeedGreeting(now);
    s.SelectOption(TalkToAgent, now);
    s.DeliverBotReply(now);
  }

  /** The first human-mode send opens a ticket with the profile's identity, and
      the socket effect then re-runs for the new id: its cleanup unregisters that
      same new id (it reads storage, which already holds it) before the new socket
      registers it again. */
  method TicketThenRebind(now: Timestamp) returns (call: Option<ApiCall>, emitted: seq<ClientEmit>)
    ensures call.Some? && call.value.CreateTicket? && call.value.message == "My VM is down"
    ensures call.value.userName == "Customer A" && call.value.userEmail == "abc@123.com"
    ensures emitted == [Register("B"), Unregister("B"), Register("B")]
  {
    var s := new ChatSession(map[]);
    s.OpenChannel();
    s.OnConnect();
    GreetThenHandOff(s, now);
    call := FirstTicket(s, now);
    // requestId changed: the effect's cleanup runs, then its body, then the connect event.
    s.CloseChannel();
    assert s.outbox == [Register("B"), Unregister("B")];
    s.OpenChannel();
    assert s.boundTo == Some("B");
    s.OnConnect();
    assert s.outbox == [Register("B"), Unregister("B"), Register("B")];
    emitted := s.outbox;
  }

  /** The first send after the handoff, on a connected socket with no ticket: the
      request carries the profile's name and e-mail, and the accepted ticket "B"
      becomes the live and the stored one and is registered at once. */
  method FirstTicket(s: ChatSession, now: Timestamp) returns (call: Option<ApiCall>)
    requires !s.chatbotActive && !s.endChat && !s.isLoading && s.requestId == None && s.connected
    requires s.userName == "" && s.userEmail == "" && s.userInfo == Some(SimulatedProfile)
    requires s.outbox == [] && s.storage == map[]
    modifies s
    ensures call.Some? && call.value.CreateTicket? && call.value.message == "My VM is down"
    ensures call.value.userName == "Customer A" && call.value.userEmail == "abc@123.com"
    ensures s.requestId == Some("B") && s.StoredTicket() == Some("B") && s.outbox == [Register("B")]
  {
    assert !IsWhitespace("My VM is down"[0]);
    call := s.Submit("My VM is down", now, Answered(true, "B", ""));
  }

  /** A page loaded with ticket "A" in storage, then 'Start New Conversation'. The
      restore sets `requestId`, so the socket effect re-runs: the first socket's
      cleanup unregisters "A" (storage holds it) before the second socket has
      registered it; the reset unregisters it again. A late reply for "A" then
      reaches a socket bound to no ticket and is dropped. */
  method StaleReplyAfterReset(now: Timestamp) returns (thread: seq<Message>, emitted: seq<ClientEmit>, busy: bool)
    ensures thread == [] && !busy
    ensures emitted == [Unregister("A"), Register("A"), Unregister("A")]
  {
    var s := new ChatSession(map[RequestIdKey := "A"]);
    s.RestoreFromStorage();
    s.CloseChannel();
    s.OpenChannel();
    s.OnConnect();
    s.StartNewConversation();
    s.CloseChannel();
    s.OpenChannel();
    s.OnConnect();
    s.OnSupportResponse("A", "Your VM is back up", "Agent Smith", now);
    thread, emitted, busy := s.messages, s.outbox, s.isLoading;
  }

  /** On a page loaded with ticket "A" in storage, replies for that ticket join
      the ticket thread under the responder's name, or 'Support Team' for a relay
      without a name, and clear the busy flag. The restore brings back the id but
      not human mode: the bot is still active, so the page shows the bot
      transcript and not this thread. */
  method ReplyForCurrentTicket(now: Timestamp) returns (thread: seq<Message>, emitted: seq<ClientEmit>, busy: bool, bot: bool)
    ensures thread == [AgentMessage("", "Rebooted", now), AgentMessage("Dana", "Fixed", now)]
    ensures thread[0].sender == "Support Team" && thread[1].sender == "Dana" && !busy
    ensures emitted == [Unregister("A"), Register("A")]
    ensures bot
  {
    var s := new ChatSession(map[RequestIdKey := "A"]);
    s.RestoreFromStorage();
    s.CloseChannel();
    s.OpenChannel();
    s.OnConnect();
    s.OnSupportResponse("A", "Rebooted", "", now);
    s.OnSupportResponse("A", "Fixed", "Dana", now);
    thread, emitted, busy, bot := s.messages, s.outbox, s.isLoading, s.chatbotActive;
  }

  /** After the handoff the first ticket request is refused with "quota exceeded":
      the thread holds the user's message and exactly one error message carrying
      the server's reason, the form is free again and still no ticket exists. */
  method RefusedTicket(s: ChatSession, now: Timestamp)
    requires s.chatHistory == [] && s.chatbotActive && !s.endChat && !s.isLoading
    requires s.requestId == None && s.userName == "" && s.userEmail == "" && s.pending == []
    requires s.messages == []
    modifies s
    ensures s.messages == [UserMessage("Customer A", "Need help", now), ErrorNotice("quota exceeded", TicketFallback, now)]
    ensures !s.isLoading && !s.chatbotActive && !s.endChat && s.requestId == None
  {
    GreetThenHandOff(s, now);
    assert !IsWhitespace("Need help"[0]);
    var call := s.Submit("Need help", now, Answered(false, "", "quota exceeded"));
  }

  /** A refused ticket shows the server's reason exactly once, frees the form and
      leaves no ticket, so the next send asks for a ticket again. */
  method RefusedTicketThenRetry(now: Timestamp)
    returns (firstThread: seq<Message>, busyAfterRefusal: bool, retry: Option<ApiCall>, ticket: Option<string>)
    ensures |firstThread| == 2 && firstThread[1].isError && Render(firstThread[1].text) == "Error: quota exceeded"
    ensures !busyAfterRefusal
    ensures retry.Some? && retry.value.CreateTicket? && ticket == Some("C")
  {
    var s := new ChatSession(map[]);
    RefusedTicket(s, now);
    firstThread, busyAfterRefusal := s.messages, s.isLoading;
    retry := RetryTicket(s, now);
    ticket := s.requestId;
  }

  /** Sending again after a refusal, with no ticket yet, asks for a new ticket,
      and an accepted one becomes the live ticket. */
  method RetryTicket(s: ChatSession, now: Timestamp) returns (call: Option<ApiCall>)
    requires !s.isLoading && !s.chatbotActive && !s.endChat && s.requestId == None
    modifies s
    ensures call.Some? && call.value.CreateTicket? && call.value.message == "Need help"
    ensures s.requestId == Some("C") && s.isLoading
  {
    assert !IsWhitespace("Need help"[0]);
    call := s.Submit("Need help", now, Answered(true, "C", ""));
  }

  /** Ending the chat and starting over: 'Service outage' gets the default reply,
      whose 'No, I'll try something else' ends the chat; a new conversation then
      re-seeds the transcript with the greeting and the initial menu. */
  method EndThenStartOver(now: Timestamp) returns (transcript: seq<Message>, options: seq<Choice>, ended: bool, bot: bool)
    ensures transcript == [BotMessage(Greeting, now)] && options == InitialOptions
    ensures !ended && bot
  {
    var s := new ChatSession(map[]);
    Decline(s, now);
    s.StartNewConversation();
    s.SeedGreeting(now);
    transcript, options, ended, bot := s.chatHistory, s.suggestedOptions, s.endChat, s.chatbotActive;
  }

  /** On a fresh page, 'Service outage' and then 'No, I'll try something else':
      the chat ends with nothing offered. */
  method Decline(s: ChatSession, now: Timestamp)
    requires s.chatHistory == [] && s.chatbotActive && !s.endChat && s.pending == []
    modifies s
    ensures s.endChat && s.suggestedOptions == [] && s.pending == []
  {
    MenuPaths();
    EndingPaths();
    s.SeedGreeting(now);
    Pick(s, ServiceOutage, now);
    Pick(s, TrySomethingElse, now);
  }

  /** Two quick clicks schedule two replies; the first ends the chat and the user
      starts over before the second fires. The second reply is not cancelled: it
      lands in the new transcript, and since the 'another question' reply offers
      nothing, the fresh menu is replaced by an empty one while the bot stays
      active. */
  method LateReplyCrossesReset(now: Timestamp) returns (freshMenu: seq<Choice>, transcript: seq<Message>, options: seq<Choice>, bot: bool)
    ensures freshMenu == InitialOptions
    ensures transcript == [BotMessage(Greeting, now), BotMessage(AskWhatElse, now)]
    ensures options == [] && bot
  {
    var s := new ChatSession(map[]);
    ReachResolution(s, now);
    EndWithReplyPending(s, now);
    s.StartNewConversation();
    s.SeedGreeting(now);
    freshMenu := s.suggestedOptions;
    assert s.chatHistory == [BotMessage(Greeting, now)] && s.chatbotActive;
    assert Respond(AnotherQuestion) == Reply(AskWhatElse, Replace([]), StayWithBot) by { AnotherQuestionOffersNothing(); }
    s.DeliverBotReply(now);
    transcript, options, bot := s.chatHistory, s.suggestedOptions, s.chatbotActive;
  }

  /** On a fresh page: 'Issues with my VM', 'VM won't start', 'Show troubleshooting
      steps', 'Issue resolved', each reply delivered before the next click. The
      bot then offers the another-question/that's-all pair. */
  method ReachResolution(s: ChatSession, now: Timestamp)
    requires s.chatHistory == [] && s.chatbotActive && !s.endChat && s.pending == []
    modifies s
    ensures s.chatbotActive && !s.endChat && s.pending == [] && s.suggestedOptions == [AnotherQuestion, ThatsAll]
  {
    MenuPaths();
    TroubleshootingPaths();
    s.SeedGreeting(now);
    Pick(s, VmIssues, now);
    Pick(s, VmWontStart, now);
    Pick(s, ShowSteps, now);
    Pick(s, IssueResolved, now);
  }

  /** One unhurried click: an offered option is selected and its reply fires
      before anything else happens. */
  method Pick(s: ChatSession, option: Choice, now: Timestamp)
    requires s.chatbotActive && !s.endChat && s.pending == [] && option in s.suggestedOptions
    modifies s
    ensures s.pending == []
    ensures s.suggestedOptions == ApplyOptions(Respond(option).options, old(s.suggestedOptions))
    ensures s.chatbotActive == (Respond(option).effect != HandOff)
    ensures s.endChat == (Respond(option).effect == EndChat)
  {
    s.SelectOption(option, now);
    s.DeliverBotReply(now);
  }

  /** With the another-question/that's-all pair showing, 'No, that's all for now'
      and 'Yes, I have another question' clicked before the first reply fires:
      the first reply ends the chat, the second is still scheduled. */
  method EndWithReplyPending(s: ChatSession, now: Timestamp)
    requires s.chatbotActive && !s.endChat && s.pending == [] && s.suggestedOptions == [AnotherQuestion, ThatsAll]
    modifies s
    ensures s.endChat && s.pending == [OptionReply(AnotherQuestion)]
  {
    EndingPaths();
    s.SelectOption(ThatsAll, now);
    s.SelectOption(AnotherQuestion, now);
    s.DeliverBotReply(now);
  }
}
