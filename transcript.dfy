/** Chat messages as the client builds them, and the chat summary that a new
    ticket carries (frontend/src/App.js:380-382). */
module Transcript {

  /** An ISO-8601 time stamp; the clock is outside the model, so callers pass it in. */
  type Timestamp = string

  /** The fixed texts the client writes into its logs: the greeting
      (frontend/src/App.js:35), the bot's scripted replies (83-309) and the notice
      that a ticket was submitted (417). Words gives each exact text. */
  datatype Canned =
    | Greeting | Submitted
    | Connecting | Goodbye | AskVmIssue | OfferVmHelp | TroubleshootingSteps | GladResolved
    | Escalating | AskWhatElse | ThanksBye | AskAccountIssue | AskBillingTopic
    | NoInformation | NeedMoreInformation

  function Words(c: Canned): string
  {
    match c
    case Greeting => "Hello! I'm your support assistant. What can I help you with today?"
    case Submitted => "Your support request has been submitted. Please wait for a response."
    case Connecting => "I'll connect you with a support agent. Please provide a brief description of your issue."
    case Goodbye => "Thank you for using our support chat. If you need assistance in the future, feel free to start a new conversation."
    case AskVmIssue => "What specific issue are you experiencing with your VM?"
    case OfferVmHelp => "I understand you're having an issue with your VM. Let me try to help you with that. Would you like some troubleshooting steps or would you prefer to speak with a support agent?"
    case TroubleshootingSteps => "Here are some basic troubleshooting steps:\n\n1. Check your VM's status in the dashboard\n2. Try restarting the VM from the control panel\n3. Verify your network settings\n4. Check resource allocation (CPU, memory)\n\nDid any of these help resolve your issue?"
    case GladResolved => "Great! I'm glad we were able to resolve your issue. Is there anything else you'd like help with today?"
    case Escalating => "I'm sorry you're still experiencing issues. Let me connect you with a support agent who can help you further."
    case AskWhatElse => "What else can I help you with today?"
    case ThanksBye => "Thank you for using our support chat. If you need any further assistance, feel free to start a new conversation."
    case AskAccountIssue => "I'm sorry to hear you're having account access issues. Could you specify the problem you're experiencing?"
    case AskBillingTopic => "I can help with billing questions. What specific information are you looking for?"
    case NoInformation => "I don't have specific information about that. Would you like to speak with a support agent?"
    case NeedMoreInformation => "I think I need more information to help with that. Would you like to speak with a support agent?"
  }

  /** The `text` of a message: a fixed text, kept by name, or any other string. */
  datatype Text = Fixed(c: Canned) | Plain(s: string)

  function Render(t: Text): string
  {
    match t
    case Fixed(c) => Words(c)
    case Plain(s) => s
  }

  /** One entry of a log. The fields the client never sets on a kind of
      message (`isChatbot` on a user message, say) are false. */
  datatype Message = Message(
    sender: string,
    text: Text,
    timestamp: Timestamp,
    isUser: bool,
    isChatbot: bool,
    isSystem: bool,
    isError: bool)

  function UserMessage(sender: string, text: string, now: Timestamp): Message
  {
    Message(sender, Plain(text), now, true, false, false, false)
  }

  function BotMessage(c: Canned, now: Timestamp): Message
  {
    Message("Chatbot", Fixed(c), now, false, true, false, false)
  }

  function SystemNotice(c: Canned, now: Timestamp): Message
  {
    Message("System", Fixed(c), now, false, false, true, false)
  }

  /** A system error message: `Error: <detail || fallback>`. */
  function ErrorNotice(detail: string, fallback: string, now: Timestamp): (m: Message)
    ensures m.isSystem && m.isError && !m.isUser
    ensures detail != "" ==> Render(m.text) == "Error: " + detail
    ensures detail == "" ==> Render(m.text) == "Error: " + fallback
  {
    Message("System", Plain("Error: " + (if detail != "" then detail else fallback)), now, false, false, true, true)
  }

  /** A reply relayed from the support team (frontend/src/App.js:510-518): shown
      under the responder's name, or 'Support Team' when the relay names nobody,
      with the relayed text, and neither a user, system nor error message. */
  function AgentMessage(responder: string, text: string, now: Timestamp): (m: Message)
    ensures m.sender != ""
    ensures responder != "" ==> m.sender == responder
    ensures responder == "" ==> m.sender == "Support Team"
    ensures Render(m.text) == text && !m.isUser && !m.isSystem && !m.isError
  {
    Message(if responder != "" then responder else "Support Team", Plain(text), now, false, false, false, false)
  }

  /** One summary line, `${msg.sender}: ${msg.text}`. */
  function Line(m: Message): string
  {
    m.sender + ": " + Render(m.text)
  }

  /** `history.map(Line)`. */
  function Lines(history: seq<Message>): (r: seq<string>)
    ensures |r| == |history|
    ensures forall k :: 0 <= k < |history| ==> r[k] == Line(history[k])
  {
    if history == [] then [] else Lines(history[..|history| - 1]) + [Line(history[|history| - 1])]
  }

  /** `parts.join('\n')`. */
  function Join(parts: seq<string>): string
  {
    if parts == [] then ""
    else if |parts| == 1 then parts[0]
    else parts[0] + "\n" + Join(parts[1..])
  }

  /** The chat summary sent with a new ticket (frontend/src/App.js:380-382): one
      line per bot-transcript message, joined by newlines. It is empty exactly for
      an empty transcript (every line holds at least the ": " separator), and it
      starts with the first message's line. */
  function Summary(history: seq<Message>): (r: string)
    ensures r == "" <==> history == []
    ensures history != [] ==> Line(history[0]) <= r
  {
    if |history| > 0 then Join(Lines(history)) else ""
  }

  /** Splits a string at every newline (the inverse of Join for parts without newlines). */
  function SplitLines(s: string): (r: seq<string>)
    ensures |r| > 0
  {
    if s == [] then [""]
    else
      var rest := SplitLines(s[1..]);
      if s[0] == '\n' then [""] + rest else [[s[0]] + rest[0]] + rest[1..]
  }

  lemma {:induction false} JoinSnoc(parts: seq<string>, last: string)
    requires parts != []
    ensures Join(parts + [last]) == Join(parts) + "\n" + last
  {
    if |parts| == 1 {
      assert parts + [last] == [parts[0], last];
    } else {
      assert (parts + [last])[1..] == parts[1..] + [last];
      JoinSnoc(parts[1..], last);
    }
  }

  /** Appending a message to the transcript appends exactly its line to the summary. */
  lemma {:induction false} SummaryAppend(history: seq<Message>, m: Message)
    ensures Summary(history + [m]) == if history == [] then Line(m) else Summary(history) + "\n" + Line(m)
  {
    assert (history + [m])[..|history|] == history;
    if history != [] {
      JoinSnoc(Lines(history), Line(m));
    }
  }

  lemma {:induction false} SplitPrefix(a: string, b: string)
    requires '\n' !in a
    ensures SplitLines(a + "\n" + b) == [a] + SplitLines(b)
  {
    if a == [] {
      assert a + "\n" + b == "\n" + b;
      assert ("\n" + b)[1..] == b;
    } else {
      assert (a + "\n" + b)[1..] == a[1..] + "\n" + b;
      SplitPrefix(a[1..], b);
      assert [a[0]] + a[1..] == a;
    }
  }

  lemma {:induction false} SplitWhole(a: string)
    requires '\n' !in a
    ensures SplitLines(a) == [a]
  {
    if a != [] {
      SplitWhole(a[1..]);
      assert [a[0]] + a[1..] == a;
    }
  }

  lemma {:induction false} SplitJoin(parts: seq<string>)
    requires parts != []
    requires forall k :: 0 <= k < |parts| ==> '\n' !in parts[k]
    ensures SplitLines(Join(parts)) == parts
  {
    if |parts| == 1 {
      SplitWhole(parts[0]);
    } else {
      SplitPrefix(parts[0], Join(parts[1..]));
      SplitJoin(parts[1..]);
      assert [parts[0]] + parts[1..] == parts;
    }
  }

  /** The summary keeps one line per message, in transcript order: when no sender
      or text contains a newline, splitting the summary at newlines gives back
      exactly the lines of the transcript. */
  lemma {:induction false} SummaryRoundTrip(history: seq<Message>)
    requires history != []
    requires forall k :: 0 <= k < |history| ==> '\n' !in Line(history[k])
    ensures SplitLines(Summary(history)) == Lines(history)
  {
    SplitJoin(Lines(history));
  }
}
