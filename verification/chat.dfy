/**
  The chat widget (`AIChatTerminal`): an append-only transcript, an input line, a
  "typing" flag and an open/closed panel. A send hands the exact input text to the
  text-generation collaborator; each answer or failure appends one AI message.

  The asynchronous continuations the component schedules are explicit: the
  greeting timer armed when the panel opens on an empty transcript, and the
  outstanding collaborator calls. `now` is the clock reading (`Date.now()`) that
  the new message takes as its id and timestamp.
 */
module Chat {
  import opened Text

  datatype Sender = User | Ai

  /** A transcript entry; `stamp` is the creation time that serves as id and timestamp. */
  datatype Message = Message(stamp: int, text: string, sender: Sender)

  /** What the awaited collaborator call delivers: a text, or a thrown error. */
  datatype Reply = Resolved(text: string) | Rejected

  /**
    The component state (`isOpen`, `inputValue`, `messages`, `isTyping`) plus the
    number of armed greeting timers and of collaborator calls not yet settled.
   */
  datatype ChatState = ChatState(
    isOpen: bool,
    input: string,
    messages: seq<Message>,
    isTyping: bool,
    greetingsDue: nat,
    inFlight: nat)

  const Greeting: string := "Identity verified. Nexus AI online. How can I assist you with the Architect's data?"
  const ConnectionError: string := "\U{26A0}\U{FE0F} CONNECTION ERROR: Neural Link severed. Please try again."

  const Closed: ChatState := ChatState(false, "", [], false, 0, 0)

  /** `addMessage`: append one message at the end. */
  function AddMessage(c: ChatState, text: string, sender: Sender, now: int): (r: ChatState)
    ensures |r.messages| == |c.messages| + 1 && r.messages[..|c.messages|] == c.messages
    ensures r.messages[|c.messages|] == Message(now, text, sender)
    ensures r.(messages := c.messages) == c
  {
    assert (c.messages + [Message(now, text, sender)])[..|c.messages|] == c.messages;
    c.(messages := c.messages + [Message(now, text, sender)])
  }

  /**
    The toggle button. Opening the panel while the transcript is empty arms the
    greeting timer; the check is made at opening time, not when the timer fires.
   */
  function Toggle(c: ChatState): (r: ChatState)
    ensures r.isOpen == !c.isOpen
    ensures r.greetingsDue > c.greetingsDue <==> !c.isOpen && c.messages == []
    ensures r.greetingsDue == c.greetingsDue + (if !c.isOpen && c.messages == [] then 1 else 0)
    ensures r.(isOpen := c.isOpen, greetingsDue := c.greetingsDue) == c
  {
    var flipped := c.(isOpen := !c.isOpen);
    if flipped.isOpen && c.messages == [] then flipped.(greetingsDue := c.greetingsDue + 1) else flipped
  }

  /** The greeting timer fires: the greeting is appended to whatever the transcript holds by then. */
  function GreetingFires(c: ChatState, now: int): (r: ChatState)
    requires c.greetingsDue > 0
    ensures r.messages == c.messages + [Message(now, Greeting, Ai)]
    ensures r.greetingsDue == c.greetingsDue - 1
    ensures r.(messages := c.messages, greetingsDue := c.greetingsDue) == c
  {
    AddMessage(c, Greeting, Ai, now).(greetingsDue := c.greetingsDue - 1)
  }

  /** The send button is enabled: `!(!inputValue.trim() || isTyping)`. */
  predicate CanSend(c: ChatState) {
    Trim(c.input) != "" && !c.isTyping
  }

  /** The send button is enabled exactly when the input is not blank and no reply is pending. */
  lemma CanSendIffNotBlankAndIdle(c: ChatState)
    ensures CanSend(c) <==> !IsBlank(c.input) && !c.isTyping
  {
    TrimEmptyIffBlank(c.input);
  }

  /** The outcome of `handleSend`: the new state and the prompt passed to the collaborator, if any. */
  datatype SendResult = SendResult(chat: ChatState, request: Option<string>)

  /**
    `handleSend`: blank input is ignored; otherwise the input is cleared, the
    untrimmed text is appended as a user message, typing starts and one call
    carrying that same text is issued.
   */
  function HandleSend(c: ChatState, now: int): (r: SendResult)
    ensures IsBlank(c.input) ==> r.chat == c && r.request == None
    ensures !IsBlank(c.input) ==>
      && r.request == Some(c.input)
      && r.chat.messages == c.messages + [Message(now, c.input, User)]
      && r.chat.input == ""
      && r.chat.isTyping
      && r.chat.inFlight == c.inFlight + 1
      && r.chat.isOpen == c.isOpen && r.chat.greetingsDue == c.greetingsDue
  {
    TrimEmptyIffBlank(c.input);
    if Trim(c.input) == "" then SendResult(c, None)
    else
      var text := c.input;
      var added := AddMessage(c.(input := ""), text, User, now);
      SendResult(added.(isTyping := true, inFlight := c.inFlight + 1), Some(text))
  }

  /** The text of the AI message a settled call produces. */
  function ReplyText(reply: Reply): string {
    match reply
    case Resolved(t) => t
    case Rejected => ConnectionError
  }

  /** A collaborator call settles: typing stops and exactly one AI message is appended. */
  function Settle(c: ChatState, reply: Reply, now: int): (r: ChatState)
    requires c.inFlight > 0
    ensures !r.isTyping && r.inFlight == c.inFlight - 1
    ensures r.messages == c.messages + [Message(now, ReplyText(reply), Ai)]
    ensures reply.Resolved? ==> r.messages[|c.messages|].text == reply.text
    ensures reply.Rejected? ==> r.messages[|c.messages|].text == ConnectionError
    ensures r.input == c.input && r.isOpen == c.isOpen && r.greetingsDue == c.greetingsDue
  {
    AddMessage(c, ReplyText(reply), Ai, now).(isTyping := false, inFlight := c.inFlight - 1)
  }

  /** What can happen to the widget. */
  datatype Event =
    | ToggleButton
    | Edit(text: string)
    | Submit
    | GreetingTimer
    | Answer(reply: Reply)

  /** A timer or an answer can only arrive if it was scheduled; the input form exists only while open. */
  predicate Enabled(c: ChatState, e: Event) {
    match e
    case ToggleButton => true
    case Edit(_) => c.isOpen
    case Submit => c.isOpen
    case GreetingTimer => c.greetingsDue > 0
    case Answer(_) => c.inFlight > 0
  }

  /**
    One event. A form submission goes through only while the send button is
    enabled, so a send never starts while a reply is pending.
   */
  function Step(c: ChatState, e: Event, now: int): (r: ChatState)
    requires Enabled(c, e)
    ensures |r.messages| >= |c.messages| && r.messages[..|c.messages|] == c.messages
  {
    match e
    case ToggleButton => Toggle(c)
    case Edit(t) => c.(input := t)
    case Submit => if CanSend(c) then HandleSend(c, now).chat else c
    case GreetingTimer => GreetingFires(c, now)
    case Answer(reply) => Settle(c, reply, now)
  }

  datatype Timed = Timed(event: Event, now: int)

  /** Each event of the trace is enabled in the state it meets. */
  predicate Admissible(c: ChatState, trace: seq<Timed>)
    decreases |trace|
  {
    trace == [] ||
    (Enabled(c, trace[0].event) && Admissible(Step(c, trace[0].event, trace[0].now), trace[1..]))
  }

  function Run(c: ChatState, trace: seq<Timed>): ChatState
    requires Admissible(c, trace)
    decreases |trace|
  {
    if trace == [] then c else Run(Step(c, trace[0].event, trace[0].now), trace[1..])
  }

  /** The transcript only grows at the end: earlier messages are never altered, reordered or removed. */
  lemma {:induction false} RunAppendOnly(c: ChatState, trace: seq<Timed>)
    requires Admissible(c, trace)
    ensures |Run(c, trace).messages| >= |c.messages|
    ensures Run(c, trace).messages[..|c.messages|] == c.messages
    decreases |trace|
  {
    if trace != [] {
      var next := Step(c, trace[0].event, trace[0].now);
      RunAppendOnly(next, trace[1..]);
      assert Run(c, trace).messages[..|next.messages|] == next.messages;
      assert next.messages[..|c.messages|] == c.messages;
      assert Run(c, trace).messages[..|c.messages|] == Run(c, trace).messages[..|next.messages|][..|c.messages|];
    }
  }

  /** At most one collaborator call is outstanding, and the typing flag says whether there is one. */
  predicate OneAtATime(c: ChatState) {
    c.inFlight <= 1 && (c.isTyping <==> c.inFlight == 1)
  }

  lemma StepKeepsOneAtATime(c: ChatState, e: Event, now: int)
    requires OneAtATime(c) && Enabled(c, e)
    ensures OneAtATime(Step(c, e, now))
  {
    if e.Submit? && CanSend(c) {
      TrimEmptyIffBlank(c.input);
    }
  }

  /** From the closed, empty widget, every reachable state has at most one request in flight. */
  lemma {:induction false} RunKeepsOneAtATime(c: ChatState, trace: seq<Timed>)
    requires OneAtATime(c) && Admissible(c, trace)
    ensures OneAtATime(Run(c, trace))
    decreases |trace|
  {
    if trace != [] {
      StepKeepsOneAtATime(c, trace[0].event, trace[0].now);
      RunKeepsOneAtATime(Step(c, trace[0].event, trace[0].now), trace[1..]);
    }
  }

  /**
    The guard is the transcript's emptiness, not a flag: opening, closing and
    reopening within the greeting delay arms two timers, and both greetings land.
   */
  lemma QuickReopenGreetsTwice()
    ensures var trace := [Timed(ToggleButton, 0), Timed(ToggleButton, 100), Timed(ToggleButton, 200),
                          Timed(GreetingTimer, 500), Timed(GreetingTimer, 700)];
            Admissible(Closed, trace) &&
            Run(Closed, trace).messages == [Message(500, Greeting, Ai), Message(700, Greeting, Ai)]
  {
    var c1 := Toggle(Closed);
    var c2 := Toggle(c1);
    var c3 := Toggle(c2);
    assert c3.greetingsDue == 2;
  }
}
