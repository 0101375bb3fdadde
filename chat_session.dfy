/** The chat screen's conversation controller: an append-only log of turns
    that starts with one greeting, an input box, a loading flag that keeps
    at most one chat request in flight, and a thread id assigned once when
    the screen mounts. A send is split at its one `await`: `Submit` is the
    guard and the optimistic user turn, `Complete` appends the one
    assistant turn for the transport's outcome and releases the flag. */
module ChatSession {
  import opened Basics
  import opened ChatCodec

  datatype Role = UserRole | AssistantRole

  /** A `Message`. `content` is None when a reply carried no `response`. */
  datatype Turn = Turn(role: Role, content: Option<string>, debugInfo: Option<seq<Json>>)

  const GreetingText: string :=
    "Mike Ross here. I\U{2019}ve memorized every law book in the database. What aspect of the law can I help you exploit... I mean, understand, today?"
  const ApologyText: string :=
    "I'm sorry, I'm having trouble connecting to my legal brain right now. Please make sure the backend server is running."

  const Greeting: Turn := Turn(AssistantRole, Some(GreetingText), None)

  function UserTurn(text: string): Turn
  {
    Turn(UserRole, Some(text), None)
  }

  /** The body of `POST /chat`. */
  datatype ChatRequest = ChatRequest(message: string, threadId: string)

  /** The parsed JSON body of the chat reply, whatever its HTTP status. */
  datatype ChatReply = ChatReply(response: Option<string>, debugInfo: Option<seq<Json>>)

  /** How the awaited transport ends: a body was read, or something threw
      (the network, or a body that is not JSON). */
  datatype SendOutcome = Replied(reply: ChatReply) | Thrown

  /** The conversation's state as the screen holds it. */
  datatype ChatView = ChatView(log: seq<Turn>, input: string, loading: bool)

  const Initial: ChatView := ChatView([Greeting], "", false)

  /** The guard and first half of sendMessage. A blank input or a pending
      request leaves everything as it was and sends nothing; otherwise the
      raw input becomes one user turn, is sent with the thread id, the box
      is cleared and the flag is set. */
  function Submit(v: ChatView, threadId: string): (r: (ChatView, Option<ChatRequest>))
    ensures IsBlank(v.input) || v.loading ==> r.0 == v && r.1 == None
    ensures !IsBlank(v.input) && !v.loading ==>
              && r.1.Some? && r.1.value.threadId == threadId
              && r.0.log == v.log + [UserTurn(r.1.value.message)]
              && r.1.value.message == v.input
              && r.0.input == "" && r.0.loading
  {
    if IsBlank(v.input) || v.loading then (v, None)
    else (ChatView(v.log + [UserTurn(v.input)], "", true), Some(ChatRequest(v.input, threadId)))
  }

  /** The one assistant turn a completed send appends: the reply's
      `response` and `debug_info` as they came, or the fixed apology with no
      debug information when the transport threw. */
  function ReplyTurn(outcome: SendOutcome): (t: Turn)
    ensures t.role == AssistantRole
    ensures outcome.Thrown? ==> t.content == Some(ApologyText) && t.debugInfo == None
    ensures outcome.Replied? ==> t.content == outcome.reply.response && t.debugInfo == outcome.reply.debugInfo
  {
    match outcome
    case Replied(reply) => Turn(AssistantRole, reply.response, reply.debugInfo)
    case Thrown => Turn(AssistantRole, Some(ApologyText), None)
  }

  /** The second half of sendMessage: one assistant turn is appended and the
      flag is released (the `finally`), whatever the outcome; what the user
      typed in the meantime stays in the box. */
  function Complete(v: ChatView, outcome: SendOutcome): (r: ChatView)
    ensures r.log == v.log + [ReplyTurn(outcome)]
    ensures !r.loading && r.input == v.input
  {
    ChatView(v.log + [ReplyTurn(outcome)], v.input, false)
  }

  /** The shape of the log: the greeting, then user and assistant turns
      alternating; a request is pending exactly when the log ends with a
      user turn. */
  ghost predicate Consistent(v: ChatView)
  {
    && |v.log| >= 1 && v.log[0] == Greeting
    && (forall i :: 1 <= i < |v.log| ==> (v.log[i].role == UserRole <==> i % 2 == 1))
    && (v.loading <==> |v.log| % 2 == 0)
  }

  lemma InitialIsConsistent()
    ensures Consistent(Initial) && !Initial.loading && |Initial.log| == 1
  {
  }

  /** A submit while a request is pending is ignored, not queued. */
  lemma SubmitWhileLoadingIsIgnored(v: ChatView, text: string, threadId: string)
    requires v.loading
    ensures Submit(v.(input := text), threadId) == (v.(input := text), None)
  {
  }

  /** One accepted submit followed by its completion keeps the shape and
      returns to idle with two more turns. */
  lemma CycleKeepsShape(v: ChatView, text: string, outcome: SendOutcome, threadId: string)
    requires Consistent(v) && !v.loading && !IsBlank(text)
    ensures var (pending, request) := Submit(v.(input := text), threadId);
            && request == Some(ChatRequest(text, threadId))
            && Consistent(pending) && pending.loading
            && Consistent(Complete(pending, outcome))
            && Complete(pending, outcome).log == v.log + [UserTurn(text), ReplyTurn(outcome)]
  {
  }


  /** After a failed send the next non-blank submit is accepted: a failure
      never leaves the screen stuck. */
  lemma RecoversAfterFailure(v: ChatView, text: string, threadId: string)
    requires Consistent(v) && v.loading && !IsBlank(text)
    ensures Submit(Complete(v, Thrown).(input := text), threadId).1 == Some(ChatRequest(text, threadId))
  {
  }

  /** The user types each text in turn and sends it; each send completes
      with the matching outcome before the next one starts. */
  function Replay(v: ChatView, texts: seq<string>, outcomes: seq<SendOutcome>, threadId: string): ChatView
    requires |texts| == |outcomes|
    decreases |texts|
  {
    if texts == [] then v
    else
      var (pending, request) := Submit(v.(input := texts[0]), threadId);
      var next := if request.Some? then Complete(pending, outcomes[0]) else pending;
      Replay(next, texts[1..], outcomes[1..], threadId)
  }

  /** After N sends of non-blank texts the log has kept every earlier turn
      and gained 2N turns: each text as a user turn, each followed by the
      assistant turn for its outcome. */
  lemma {:induction false} ReplayAppends(v: ChatView, texts: seq<string>, outcomes: seq<SendOutcome>,
                                         threadId: string)
    requires Consistent(v) && !v.loading
    requires |texts| == |outcomes|
    requires forall k :: 0 <= k < |texts| ==> !IsBlank(texts[k])
    ensures var r := Replay(v, texts, outcomes, threadId);
            && Consistent(r) && !r.loading
            && |r.log| == |v.log| + 2 * |texts|
            && r.log[..|v.log|] == v.log
            && forall k :: 0 <= k < |texts| ==>
                 r.log[|v.log| + 2 * k] == UserTurn(texts[k])
                 && r.log[|v.log| + 2 * k + 1] == ReplyTurn(outcomes[k])
    decreases |texts|
  {
    if texts != [] {
      CycleKeepsShape(v, texts[0], outcomes[0], threadId);
      var next := Complete(Submit(v.(input := texts[0]), threadId).0, outcomes[0]);
      assert Replay(v, texts, outcomes, threadId) == Replay(next, texts[1..], outcomes[1..], threadId);
      ReplayAppends(next, texts[1..], outcomes[1..], threadId);
      var r := Replay(next, texts[1..], outcomes[1..], threadId);
      assert r.log[..|next.log|] == next.log;
      assert next.log == v.log + [UserTurn(texts[0]), ReplyTurn(outcomes[0])];
      forall k | 0 <= k < |texts|
        ensures r.log[|v.log| + 2 * k] == UserTurn(texts[k])
        ensures r.log[|v.log| + 2 * k + 1] == ReplyTurn(outcomes[k])
      {
        if k == 0 {
          assert r.log[|v.log|] == next.log[|v.log|];
          assert r.log[|v.log| + 1] == next.log[|v.log| + 1];
        } else {
          assert |next.log| + 2 * (k - 1) == |v.log| + 2 * k;
        }
      }
      assert r.log[..|v.log|] == next.log[..|v.log|];
    }
  }

  /** From the opening screen, N completed sends leave 1 + 2N turns. */
  lemma ConversationLength(texts: seq<string>, outcomes: seq<SendOutcome>, threadId: string)
    requires |texts| == |outcomes|
    requires forall k :: 0 <= k < |texts| ==> !IsBlank(texts[k])
    ensures |Replay(Initial, texts, outcomes, threadId).log| == 1 + 2 * |texts|
    ensures Replay(Initial, texts, outcomes, threadId).log[0] == Greeting
  {
    ReplayAppends(Initial, texts, outcomes, threadId);
  }

  /** The send button (its `disabled` condition negated). */
  function SendButtonEnabled(v: ChatView, disclaimerAccepted: bool): (enabled: bool)
    ensures enabled ==> Submit(v, "").1.Some?
    ensures disclaimerAccepted && !enabled ==> Submit(v, "").1.None?
  {
    !IsBlank(v.input) && !v.loading && disclaimerAccepted
  }

  /** The texts the three starter cards put into the box. */
  const StarterPrompts: seq<string> := [
    "My tenant is damaging the rental unit. I need to evict them. Get me the N5 form.",
    "My wife cheated on me and I need a divorce. Can I keep the house?",
    "Find a criminal lawyer in Toronto."
  ]

  /** The starter cards are shown while the log holds the greeting alone and
      no request is pending. */
  function StarterCardsShown(v: ChatView): (shown: bool)
    ensures Consistent(v) ==> (shown <==> v == Initial.(input := v.input))
  {
    |v.log| == 1 && !v.loading
  }

  /** The cards are shown on the opening screen and never again once the
      first message has been sent. */
  lemma StarterCardsUntilFirstSend(texts: seq<string>, outcomes: seq<SendOutcome>, threadId: string)
    requires |texts| == |outcomes|
    requires forall k :: 0 <= k < |texts| ==> !IsBlank(texts[k])
    ensures StarterCardsShown(Replay(Initial, texts, outcomes, threadId)) <==> texts == []
  {
    ReplayAppends(Initial, texts, outcomes, threadId);
  }

  /** What an assistant turn is shown as; a user turn is shown verbatim. */
  function RenderTurn(t: Turn, parse: string -> ParseResult): (r: Rendering)
    ensures t.role == UserRole ==> r == PlainText(t.content)
    ensures t.role == AssistantRole ==> r == Decode(t.content, parse)
  {
    if t.role == UserRole then PlainText(t.content) else Decode(t.content, parse)
  }

  /** What an option click caused besides the state change. */
  datatype ClickEffect = OpenedTab(url: string) | Sent(request: ChatRequest) | NothingSent

  /** An option click as intended: a URL action opens a tab and changes
      nothing; any other action types "I select: <label>" into the box and
      sends it through the same guard, so while a request is pending no turn
      is added, nothing is sent, and the label stays in the box. */
  function OptionClick(v: ChatView, opt: OptionItem, threadId: string): (r: (ChatView, ClickEffect))
    ensures Dispatch(opt).Navigate? ==> r == (v, OpenedTab(opt.action))
    ensures Dispatch(opt).Continue? && v.loading ==>
              r == (v.(input := SelectPrefix + opt.buttonLabel), NothingSent)
    ensures Dispatch(opt).Continue? && !v.loading ==>
              && r.1 == Sent(ChatRequest(SelectPrefix + opt.buttonLabel, threadId))
              && r.0.log == v.log + [UserTurn(SelectPrefix + opt.buttonLabel)]
              && r.0.loading && r.0.input == ""
  {
    match Dispatch(opt)
    case Navigate(url) => (v, OpenedTab(url))
    case Continue(text) =>
      var (next, request) := Submit(v.(input := text), threadId);
      (next, if request.Some? then Sent(request.value) else NothingSent)
  }

  /** An option click as the handler is written: `setInput(...)` only
      schedules the new text, and `sendMessage()` runs with the input and
      flag of the render the button belongs to. So the guard tests, and the
      request carries, what was in the box before the click. A blank box
      stops the send and is left holding the label; a typed text is sent in
      place of the label. */
  function OptionClickAsWritten(v: ChatView, opt: OptionItem, threadId: string): (r: (ChatView, ClickEffect))
    ensures Dispatch(opt).Navigate? ==> r == (v, OpenedTab(opt.action))
    ensures Dispatch(opt).Continue? && (IsBlank(v.input) || v.loading) ==>
              r == (v.(input := SelectPrefix + opt.buttonLabel), NothingSent)
    ensures Dispatch(opt).Continue? && !IsBlank(v.input) && !v.loading ==>
              && r.0 == Submit(v, threadId).0
              && r.1 == Sent(ChatRequest(v.input, threadId))
  {
    match Dispatch(opt)
    case Navigate(url) => (v, OpenedTab(url))
    case Continue(text) =>
      if IsBlank(v.input) || v.loading then (v.(input := text), NothingSent)
      else (ChatView(v.log + [UserTurn(v.input)], "", true), Sent(ChatRequest(v.input, threadId)))
  }

  /** As written, a click on a non-URL option never submits its label: with
      an empty box it only fills the box, and with a typed text it sends that
      text instead. */
  lemma {:induction false} AsWrittenNeverSendsLabel(v: ChatView, opt: OptionItem, threadId: string)
    requires Dispatch(opt).Continue? && !v.loading
    ensures var (next, effect) := OptionClickAsWritten(v, opt, threadId);
            && (IsBlank(v.input) ==> effect == NothingSent && next.log == v.log
                                     && next.input == SelectPrefix + opt.buttonLabel)
            && (!IsBlank(v.input) ==> effect == Sent(ChatRequest(v.input, threadId)))
  {
  }

  /** An idle screen after one structured reply, with an empty box: the
      intended click sends "I select: Serve the N5", the handler as written
      sends nothing and leaves the label in the box. */
  lemma SelectionAfterReply(answer: string)
    ensures var v := ChatView([Greeting, UserTurn("q"), Turn(AssistantRole, Some(answer), None)], "", false);
            var opt := OptionItem("Serve the N5", "draft_n5", "");
            && OptionClickAsWritten(v, opt, "t") == (v.(input := "I select: Serve the N5"), NothingSent)
            && OptionClick(v, opt, "t").1 == Sent(ChatRequest("I select: Serve the N5", "t"))
  {
    assert !StartsWith("draft_n5", "http") by {
      assert "draft_n5"[..4] != "http" by { assert "draft_n5"[0] == 'd'; }
    }
    assert IsBlank("");
    assert SelectPrefix + "Serve the N5" == "I select: Serve the N5";
  }

  /** The PDF file name of the export. */
  const PdfFileName: string := "Juris_Legal_Draft.pdf"
  const ExportFailedText: string := "Failed to generate PDF. Please try again."

  /** How `POST /generate-pdf` ends: a response with its `ok` flag, or a
      throw (the network, or reading the blob). */
  datatype ExportTransport = PdfResponse(ok: bool) | PdfThrown

  /** What the browser sees of an export. */
  datatype BrowserEvent =
    | PdfRequested(text: string)
    | ObjectUrlCreated(url: string)
    | AnchorAppended(href: string, fileName: string)
    | DownloadStarted(url: string, fileName: string)
    | ObjectUrlRevoked(url: string)
    | AnchorRemoved
    | AlertShown(message: string)

  function Downloads(events: seq<BrowserEvent>): (n: nat)
    ensures n <= |events|
  {
    if events == [] then 0
    else Downloads(events[..|events| - 1]) + (if events[|events| - 1].DownloadStarted? then 1 else 0)
  }

  function Alerts(events: seq<BrowserEvent>): (n: nat)
    ensures n <= |events|
  {
    if events == [] then 0
    else Alerts(events[..|events| - 1]) + (if events[|events| - 1].AlertShown? then 1 else 0)
  }

  /** Appending one event adds to a count only when it is of that kind. */
  lemma CountsAfterAppend(events: seq<BrowserEvent>, e: BrowserEvent)
    ensures Downloads(events + [e]) == Downloads(events) + (if e.DownloadStarted? then 1 else 0)
    ensures Alerts(events + [e]) == Alerts(events) + (if e.AlertShown? then 1 else 0)
  {
  }

  class ChatSession {
    var log: seq<Turn>
    var input: string
    var loading: bool
    var threadId: string
    var threadAssigned: bool
    var disclaimerAccepted: bool

    function View(): ChatView
      reads this
    {
      ChatView(log, input, loading)
    }

    ghost predicate Valid()
      reads this
    {
      Consistent(View()) && (threadAssigned ==> threadId != "")
    }

    /** The screen's first render: the greeting alone, an empty box, no
        request, no thread id yet, the disclaimer not yet accepted. */
    constructor ()
      ensures Valid() && View() == Initial
      ensures threadId == "" && !threadAssigned && !disclaimerAccepted
    {
      log := [Greeting];
      input := "";
      loading := false;
      threadId := "";
      threadAssigned := false;
      disclaimerAccepted := false;
    }

    /** The mount effect: the thread id is set to a fresh UUID once; nothing
        else ever writes it. */
    method AssignThreadId(uuid: string)
      requires Valid() && !threadAssigned && uuid != ""
      modifies this`threadId, this`threadAssigned
      ensures Valid() && threadId == uuid && threadAssigned
    {
      threadId := uuid;
      threadAssigned := true;
    }

    /** "I Understand" on the disclaimer. */
    method AcceptDisclaimer()
      modifies this`disclaimerAccepted
      ensures disclaimerAccepted
    {
      disclaimerAccepted := true;
    }

    /** Typing, or a starter card: only the box changes. */
    method EditInput(text: string)
      requires Valid()
      modifies this`input
      ensures Valid() && View() == old(View()).(input := text)
    {
      input := text;
    }

    /** sendMessage up to its `await`. */
    method BeginSend() returns (request: Option<ChatRequest>)
      requires Valid()
      modifies this`log, this`input, this`loading
      ensures Valid()
      ensures (View(), request) == Submit(old(View()), threadId)
    {
      if IsBlank(input) || loading {
        return None;
      }
      request := Some(ChatRequest(input, threadId));
      log := log + [UserTurn(input)];
      input := "";
      loading := true;
      assert View() == Submit(old(View()), threadId).0;
    }

    /** sendMessage after its `await`, including the `finally`. */
    method CompleteSend(outcome: SendOutcome)
      requires Valid() && loading
      modifies this`log, this`loading
      ensures Valid()
      ensures View() == Complete(old(View()), outcome)
    {
      var turn: Turn;
      match outcome {
        case Replied(reply) =>
          turn := Turn(AssistantRole, reply.response, reply.debugInfo);
        case Thrown =>
          turn := Turn(AssistantRole, Some(ApologyText), None);
      }
      log := log + [turn];
      loading := false;
      forall i | 1 <= i < |log|
        ensures log[i].role == UserRole <==> i % 2 == 1
      {
        if i < |old(log)| {
          assert log[i] == old(log)[i];
        }
      }
    }

    /** A click on an option button, as the screen intends it. */
    method SelectOption(opt: OptionItem) returns (effect: ClickEffect)
      requires Valid()
      modifies this`log, this`input, this`loading
      ensures Valid()
      ensures (View(), effect) == OptionClick(old(View()), opt, threadId)
    {
      if StartsWith(opt.action, "http") {
        return OpenedTab(opt.action);
      }
      EditInput(SelectPrefix + opt.buttonLabel);
      var request := BeginSend();
      effect := if request.Some? then Sent(request.value) else NothingSent;
    }

    /** handleDownloadPdf. The conversation is not touched (the method may
        modify nothing); the browser sees exactly one download of
        Juris_Legal_Draft.pdf, with the object URL revoked and the anchor
        removed after it, or exactly one alert and no download. */
    method ExportDraft(draft: string, transport: ExportTransport, objectUrl: string)
      returns (events: seq<BrowserEvent>)
      ensures |events| >= 2 && events[0] == PdfRequested(draft)
      ensures transport == PdfResponse(true) ==>
                && |events| == 6 && Downloads(events) == 1 && Alerts(events) == 0
                && events[1] == ObjectUrlCreated(objectUrl)
                && events[2] == AnchorAppended(objectUrl, PdfFileName)
                && events[|events| - 3] == DownloadStarted(objectUrl, PdfFileName)
                && events[|events| - 2] == ObjectUrlRevoked(objectUrl)
                && events[|events| - 1] == AnchorRemoved
      ensures transport != PdfResponse(true) ==>
                && |events| == 2 && Downloads(events) == 0 && Alerts(events) == 1
                && events[|events| - 1] == AlertShown(ExportFailedText)
    {
      events := [PdfRequested(draft)];
      assert events == [] + events;
      CountsAfterAppend([], PdfRequested(draft));
      if transport == PdfResponse(true) {
        CountsAfterAppend(events, ObjectUrlCreated(objectUrl));
        events := events + [ObjectUrlCreated(objectUrl)];
        CountsAfterAppend(events, AnchorAppended(objectUrl, PdfFileName));
        events := events + [AnchorAppended(objectUrl, PdfFileName)];
        CountsAfterAppend(events, DownloadStarted(objectUrl, PdfFileName));
        events := events + [DownloadStarted(objectUrl, PdfFileName)];
        CountsAfterAppend(events, ObjectUrlRevoked(objectUrl));
        events := events + [ObjectUrlRevoked(objectUrl)];
        CountsAfterAppend(events, AnchorRemoved);
        events := events + [AnchorRemoved];
      } else {
        CountsAfterAppend(events, AlertShown(ExportFailedText));
        events := events + [AlertShown(ExportFailedText)];
      }
    }
  }

  /** A client of the session: mount, accept the disclaimer, ask "hi"; a
      second press while that request is pending sends nothing; the reply
      arrives and the log reads greeting, question, reply. */
  method ClientScenario(uuid: string, reply: ChatReply) returns (session: ChatSession)
    requires uuid != ""
    ensures fresh(session) && session.Valid()
    ensures session.log == [Greeting, UserTurn("hi"), Turn(AssistantRole, reply.response, reply.debugInfo)]
    ensures !session.loading && session.input == ""
  {
    session := new ChatSession();
    session.AssignThreadId(uuid);
    session.AcceptDisclaimer();
    session.EditInput("hi");
    assert !IsBlank("hi") by { assert "hi"[0] == 'h'; }
    var request := session.BeginSend();
    assert request == Some(ChatRequest("hi", uuid));
    var ignored := session.BeginSend();
    assert ignored == None;
    session.CompleteSend(Replied(reply));
  }
}
