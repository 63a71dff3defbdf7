/** The scripted chatbot: the reply that `handleOptionSelect` gives to a selected
    option (frontend/src/App.js:64-278) and the fixed reply to typed text
    (frontend/src/App.js:300-311). Everything here is a pure value; the chat
    session applies the reply to its state. */
module Dialogue {
  import opened Common
  import opened Transcript

  /** An option button. `handleOptionSelect` is only ever called with the text of a
      button (frontend/src/App.js:662-667), and the buttons show exactly the lists
      the client writes into `suggestedOptions`: these are all the texts that ever
      occur there. Label gives the text, and two choices have the same text only if
      they are the same choice (LabelsDistinct), so comparing choices is comparing
      the texts the source compares. */
  datatype Choice =
    | VmIssues | AccountAccess | Billing | ServiceOutage | TalkToAgent
    | VmWontStart | VmSlow | VmNoConnect | DiskSpace
    | ShowSteps | ConnectMeToAgent | IssueResolved | StillProblems
    | AnotherQuestion | ThatsAll
    | ForgotPassword | AccountLocked | TwoFactor | CantLogin
    | CurrentInvoice | PaymentMethods | BillingCycle | PricingQuestions
    | ConnectAgent | TrySomethingElse | OtherIssues

  /** The text of a button, exactly as the client writes it. */
  function Label(c: Choice): string
  {
    match c
    case VmIssues => "Issues with my VM"
    case AccountAccess => "Account access problems"
    case Billing => "Billing questions"
    case ServiceOutage => "Service outage"
    case TalkToAgent => "Talk to a support agent"
    case VmWontStart => "VM won't start"
    case VmSlow => "VM is running slow"
    case VmNoConnect => "Cannot connect to VM"
    case DiskSpace => "Disk space issues"
    case ShowSteps => "Show troubleshooting steps"
    case ConnectMeToAgent => "Connect me to an agent"
    case IssueResolved => "Issue resolved"
    case StillProblems => "Still having problems"
    case AnotherQuestion => "Yes, I have another question"
    case ThatsAll => "No, that's all for now"
    case ForgotPassword => "Forgot password"
    case AccountLocked => "Account locked"
    case TwoFactor => "Two-factor authentication issues"
    case CantLogin => "Can't login"
    case CurrentInvoice => "Current invoice"
    case PaymentMethods => "Payment methods"
    case BillingCycle => "Billing cycle"
    case PricingQuestions => "Pricing questions"
    case ConnectAgent => "Yes, connect me to an agent"
    case TrySomethingElse => "No, I'll try something else"
    case OtherIssues => "Other issues"
  }

  /** The first letter and the length of each label, written out as a table in
      which no two rows agree. LabelsDistinct goes through it because two labels
      with different codes differ in an integer, which the solver settles at once,
      while comparing the 26 texts pairwise means 325 string comparisons. */
  function Code(c: Choice): (int, int)
  {
    match c
    case VmIssues => (73, 17)
    case AccountAccess => (65, 23)
    case Billing => (66, 17)
    case ServiceOutage => (83, 14)
    case TalkToAgent => (84, 23)
    case VmWontStart => (86, 14)
    case VmSlow => (86, 18)
    case VmNoConnect => (67, 20)
    case DiskSpace => (68, 17)
    case ShowSteps => (83, 26)
    case ConnectMeToAgent => (67, 22)
    case IssueResolved => (73, 14)
    case StillProblems => (83, 21)
    case AnotherQuestion => (89, 28)
    case ThatsAll => (78, 22)
    case ForgotPassword => (70, 15)
    case AccountLocked => (65, 14)
    case TwoFactor => (84, 32)
    case CantLogin => (67, 11)
    case CurrentInvoice => (67, 15)
    case PaymentMethods => (80, 15)
    case BillingCycle => (66, 13)
    case PricingQuestions => (80, 17)
    case ConnectAgent => (89, 27)
    case TrySomethingElse => (78, 27)
    case OtherIssues => (79, 12)
  }

  lemma LabelLength(c: Choice)
    ensures |Label(c)| == Code(c).1
  {
  }

  lemma LabelInitial(c: Choice)
    ensures |Label(c)| > 0 && Label(c)[0] as int == Code(c).0
  {
  }

  lemma CodeTellsChoice(a: Choice, b: Choice)
    requires Code(a) == Code(b)
    ensures a == b
  {
  }

  /** Distinct buttons carry distinct texts. */
  lemma LabelsDistinct(a: Choice, b: Choice)
    ensures Label(a) == Label(b) <==> a == b
  {
    if Label(a) == Label(b) {
      LabelLength(a);
      LabelLength(b);
      LabelInitial(a);
      LabelInitial(b);
      CodeTellsChoice(a, b);
    }
  }

  /** The menu offered by the greeting (frontend/src/App.js:44-50). */
  const InitialOptions := [VmIssues, AccountAccess, Billing, ServiceOutage, TalkToAgent]
  /** The pair offered after an unmatched option or typed text. */
  const HandoffPair := [ConnectAgent, TrySomethingElse]
  const VmOptions := [VmWontStart, VmSlow, VmNoConnect, DiskSpace, TalkToAgent]
  const AccountOptions := [ForgotPassword, AccountLocked, TwoFactor, CantLogin, TalkToAgent]
  const BillingOptions := [CurrentInvoice, PaymentMethods, BillingCycle, PricingQuestions, TalkToAgent]
  /** The menu the 'another question' case writes first (frontend/src/App.js:207-213). */
  const FollowUpMenu := [VmIssues, AccountAccess, Billing, ServiceOutage, OtherIssues]

  /** What a reply does to the session besides appending the bot message. */
  datatype Effect =
    | StayWithBot  // the bot keeps handling input
    | HandOff      // setChatbotActive(false): later input goes to a human ticket
    | EndChat      // setEndChat(true): no further input is offered

  /** What a reply does to the offered option list. */
  datatype OptionsUpdate = Keep | Replace(options: seq<Choice>)

  datatype Reply = Reply(text: Canned, options: OptionsUpdate, effect: Effect)

  /** One arm of the `switch` (frontend/src/App.js:111-273): the reply text, the
      local `newOptions`, the list the arm itself passes to setSuggestedOptions
      (if any) and its effect. */
  datatype Case = Case(text: Canned, newOptions: seq<Choice>, ownWrite: Option<seq<Choice>>, effect: Effect)

  predicate IsHandoffSentinel(option: Choice)
  {
    option == ConnectAgent || option == TalkToAgent
  }

  predicate IsEndSentinel(option: Choice)
  {
    option == TrySomethingElse
  }

  /** The labels of the `switch`, other than `default`. */
  predicate IsTableKey(option: Choice)
  {
    match option
    case VmIssues | TalkToAgent | VmWontStart | VmSlow | VmNoConnect | DiskSpace | ShowSteps
       | IssueResolved | StillProblems | ConnectMeToAgent | AnotherQuestion | ThatsAll
       | AccountAccess | Billing => true
    case _ => false
  }

  /** The `switch` on the option text. Only the 'another question' and 'that's
      all' arms write the option list themselves; the arms that hand off leave
      `newOptions` empty, and only 'that's all' ends the chat. */
  function Table(option: Choice): (r: Case)
    ensures r.ownWrite.Some? <==> option == AnotherQuestion || option == ThatsAll
    ensures r.effect == HandOff <==> option == TalkToAgent || option == StillProblems || option == ConnectMeToAgent
    ensures r.effect == HandOff ==> r.newOptions == []
    ensures r.effect == EndChat <==> option == ThatsAll
    ensures !IsTableKey(option) ==> r == Case(NoInformation, HandoffPair, None, StayWithBot)
  {
    match option
    case VmIssues => Case(AskVmIssue, VmOptions, None, StayWithBot)
    case TalkToAgent => Case(Connecting, [], None, HandOff)
    case VmWontStart | VmSlow | VmNoConnect | DiskSpace =>
      Case(OfferVmHelp, [ShowSteps, ConnectMeToAgent], None, StayWithBot)
    case ShowSteps => Case(TroubleshootingSteps, [IssueResolved, StillProblems], None, StayWithBot)
    case IssueResolved => Case(GladResolved, [AnotherQuestion, ThatsAll], None, StayWithBot)
    case StillProblems | ConnectMeToAgent => Case(Escalating, [], None, HandOff)
    case AnotherQuestion => Case(AskWhatElse, [], Some(FollowUpMenu), StayWithBot)
    case ThatsAll => Case(ThanksBye, [], Some([]), EndChat)
    case AccountAccess => Case(AskAccountIssue, AccountOptions, None, StayWithBot)
    case Billing => Case(AskBillingTopic, BillingOptions, None, StayWithBot)
    case _ => Case(NoInformation, HandoffPair, None, StayWithBot)
  }

  /** The complete deferred reply to a selected option: the two sentinel checks
      first (frontend/src/App.js:81-109), then the `switch`, then the two writes
      after it (275-276). Line 276 runs after every arm, so the list an arm
      writes itself is always overwritten by `newOptions`.
      Only the two handoff sentinels leave the option list as it is; the bot
      hands off exactly on those and on the two escalation options, and the chat
      ends exactly on the two ending options, with nothing left to choose; while
      the bot stays, a new list is offered, empty only after 'Yes, I have another
      question'; an option the switch does not know gets the default reply and
      the agent/end pair. */
  function Respond(option: Choice): (r: Reply)
    ensures r.options == Keep <==> IsHandoffSentinel(option)
    ensures r.effect == HandOff <==> IsHandoffSentinel(option) || option == StillProblems || option == ConnectMeToAgent
    ensures r.effect == EndChat <==> IsEndSentinel(option) || option == ThatsAll
    ensures r.effect == EndChat ==> r.options == Replace([])
    ensures r.effect == HandOff && r.options != Keep ==> r.options == Replace([])
    ensures r.effect == StayWithBot ==> r.options.Replace? && (r.options.options == [] <==> option == AnotherQuestion)
    ensures !IsHandoffSentinel(option) && !IsEndSentinel(option) && !IsTableKey(option) ==>
              r == Reply(NoInformation, Replace(HandoffPair), StayWithBot)
  {
    if IsHandoffSentinel(option) then Reply(Connecting, Keep, HandOff)
    else if IsEndSentinel(option) then Reply(Goodbye, Replace([]), EndChat)
    else
      var c := Table(option);
      Reply(c.text, Replace(c.newOptions), c.effect)
  }

  /** The fixed reply to text typed while the bot is active (frontend/src/App.js:300-311):
      the text is never looked up in the table, and no option's reply is this one. */
  function Deflect(): (r: Reply)
    ensures r.effect == StayWithBot && r.options == Replace(HandoffPair)
    ensures forall c: Choice :: Respond(c) != r
  {
    Reply(NeedMoreInformation, Replace(HandoffPair), StayWithBot)
  }

  /** The option list after a reply has been applied to `current`. */
  function ApplyOptions(u: OptionsUpdate, current: seq<Choice>): seq<Choice>
  {
    match u
    case Keep => current
    case Replace(os) => os
  }

  /** The `'Talk to a support agent'` arm of the switch (line 140) is dead code: the
      sentinel check at line 81 answers that text first, and leaves the option list
      as it was, where the arm would have cleared it. */
  lemma TalkToAgentArmUnreachable()
    ensures Table(TalkToAgent).effect == HandOff && Table(TalkToAgent).newOptions == []
    ensures Respond(TalkToAgent) == Reply(Connecting, Keep, HandOff)
    ensures Respond(TalkToAgent) != Reply(Table(TalkToAgent).text, Replace(Table(TalkToAgent).newOptions), Table(TalkToAgent).effect)
  {
  }

  /** The 'another question' arm writes the five-item menu, but line 276 then
      writes its empty `newOptions`: the bot stays active with nothing offered. */
  lemma AnotherQuestionOffersNothing()
    ensures Table(AnotherQuestion).ownWrite == Some(FollowUpMenu)
    ensures Respond(AnotherQuestion) == Reply(AskWhatElse, Replace([]), StayWithBot)
  {
  }

  /** The ways into a human ticket: the two handoff sentinels keep the current
      menu, the two escalation options clear it. */
  lemma HandoffPaths()
    ensures Respond(ConnectAgent) == Reply(Connecting, Keep, HandOff)
    ensures Respond(TalkToAgent) == Reply(Connecting, Keep, HandOff)
    ensures Respond(StillProblems) == Reply(Escalating, Replace([]), HandOff)
    ensures Respond(ConnectMeToAgent) == Reply(Escalating, Replace([]), HandOff)
  {
  }

  /** The VM troubleshooting path: each step keeps the bot and offers the next
      menu, up to the choice between 'resolved' and 'still having problems'. */
  lemma TroubleshootingPaths()
    ensures Respond(VmWontStart) == Reply(OfferVmHelp, Replace([ShowSteps, ConnectMeToAgent]), StayWithBot)
    ensures Respond(ShowSteps) == Reply(TroubleshootingSteps, Replace([IssueResolved, StillProblems]), StayWithBot)
  {
  }

  /** The menus the bot stays with: the VM menu, the resolution menu, and the
      default reply to an option that the table does not know. */
  lemma MenuPaths()
    ensures Respond(VmIssues) == Reply(AskVmIssue, Replace(VmOptions), StayWithBot)
    ensures Respond(IssueResolved) == Reply(GladResolved, Replace([AnotherQuestion, ThatsAll]), StayWithBot)
    ensures Respond(ServiceOutage) == Reply(NoInformation, Replace(HandoffPair), StayWithBot)
  {
  }

  /** Both ways to end the chat, each with nothing left to choose. */
  lemma EndingPaths()
    ensures Respond(ThatsAll) == Reply(ThanksBye, Replace([]), EndChat)
    ensures Respond(TrySomethingElse) == Reply(Goodbye, Replace([]), EndChat)
  {
  }
}
