/**
  The session controller (content.js:116-217, 269-281): `startPaste`, the two
  typing loops `simulateTyping` and `pasteToInput`, `stopPaste` and `sleep`.

  The only suspension point of a run is `sleep`, and it is the only moment a
  `stopPaste` request can arrive. What happens during one run is therefore
  fixed by an `Interrupt`: nothing, a stop during the sleep after character
  `after`, or a dispatch failure on character `at`. A stop clears the pending
  timer, so the suspended loop is never resumed: the run stays pending for
  ever and sends nothing more.
*/
module Typing {
  import opened Wrappers
  import opened Dom
  import opened Locator
  import opened Synthesizer
  import opened Trace

  /**
    The state the content script keeps between messages. `currentTimeout` is
    the handle of the last timer `sleep` created, kept after the timer fires;
    `nextTimerId` is the handle the next `setTimeout` returns; `canvas` is the
    element `startPaste` last located.
  */
  datatype Session = Session(
    isRunning: bool,
    currentTimeout: Option<nat>,
    nextTimerId: nat,
    canvas: Option<nat>)

  /** The state right after construction. */
  const Initial: Session := Session(false, None, 1, None)

  /** What the outside world does while one run is in flight. */
  datatype Interrupt =
    | Uninterrupted
    | StopDuringSleep(after: nat)          // `stopPaste` during the sleep after character `after`
    | DispatchThrows(at: nat, message: string) // dispatching character `at` throws, before any of its events is delivered

  /** The stop request meets a sleep of an `n`-character run (none follows the last). */
  predicate StopHits(intr: Interrupt, n: nat) {
    intr.StopDuringSleep? && intr.after + 1 < n
  }

  /** The failure meets a character of an `n`-character run. */
  predicate ThrowHits(intr: Interrupt, n: nat) {
    intr.DispatchThrows? && intr.at < n
  }

  /** The loop iterations that begin. */
  function Entered(intr: Interrupt, n: nat): nat {
    if StopHits(intr, n) then intr.after + 1
    else if ThrowHits(intr, n) then intr.at + 1
    else n
  }

  /** The characters whose dispatch completes. */
  function Delivered(intr: Interrupt, n: nat): nat {
    if StopHits(intr, n) then intr.after + 1
    else if ThrowHits(intr, n) then intr.at
    else n
  }

  /** The sleeps taken: one between consecutive characters, none after the last. */
  function SleepsTaken(intr: Interrupt, n: nat): nat {
    if StopHits(intr, n) then intr.after + 1
    else if ThrowHits(intr, n) then intr.at
    else if n == 0 then 0
    else n - 1
  }

  /** How a typing loop leaves: it returns, it throws, or it stays suspended. */
  datatype Exit = Finished | Threw(message: string) | Suspended

  function ExitOf(intr: Interrupt, n: nat): Exit {
    if StopHits(intr, n) then Suspended
    else if ThrowHits(intr, n) then Threw(intr.message)
    else Finished
  }

  /**
    The progress reports, sleeps and their order, for a loop over `text` that
    dispatches `f(c)` for each character `c`.
  */
  ghost predicate Paced(f: char -> seq<Dispatch>, text: string, delay: int, intr: Interrupt, t: seq<Action>) {
    && Reports(t) == DueReports(|text|, Entered(intr, |text|))
    && SleepCount(t) == SleepsTaken(intr, |text|)
    && ReportsInOrder(f, text, t)
    && SleepsInOrder(f, text, delay, t)
  }

  /**
    `stopPaste`: the run flag drops and the pending timer is cleared, so a
    suspended loop never wakes up. Nothing else changes.
  */
  function StopPaste(s: Session): (r: Session)
    ensures !r.isRunning && r.currentTimeout == None
    ensures r.canvas == s.canvas && r.nextTimerId == s.nextTimerId
  {
    s.(isRunning := false, currentTimeout := None)
  }

  /** Stopping twice is stopping once; stopping an idle session only forgets a spent timer handle. */
  lemma StopPasteIdempotent(s: Session)
    ensures StopPaste(StopPaste(s)) == StopPaste(s)
    ensures !s.isRunning && s.currentTimeout.None? ==> StopPaste(s) == s
  {
  }

  /** `sleep(ms)`: a fresh timer becomes the pending one. */
  function ArmTimer(s: Session): (r: Session)
    ensures r.currentTimeout == Some(s.nextTimerId) && r.nextTimerId > s.nextTimerId
    ensures r.isRunning == s.isRunning && r.canvas == s.canvas
  {
    s.(currentTimeout := Some(s.nextTimerId), nextTimerId := s.nextTimerId + 1)
  }

  /**
    The loop invariant shared by both typing loops: the first `i` characters
    have been dispatched in order, with their reports and sleeps in place,
    and no terminal notice has been sent.
  */
  ghost predicate Typed(f: char -> seq<Dispatch>, text: string, delay: int, i: nat, t: seq<Action>) {
    && i <= |text|
    && Dispatches(t) == Blocks(f, text[..i])
    && Reports(t) == DueReports(|text|, i)
    && Notices(t) == []
    && ReportsInOrder(f, text, t)
    && SleepsInOrder(f, text, delay, t)
  }

  /** The trace after the progress check of iteration `i`. */
  function WithReport(t: seq<Action>, i: nat, n: nat): seq<Action> {
    t + (if Due(i, n) then [Progress(i + 1, n)] else [])
  }

  /** The progress check of iteration `i` brings the reports up to index `i`. */
  lemma ReportStep(f: char -> seq<Dispatch>, text: string, delay: int, i: nat, t: seq<Action>)
    requires i < |text| && Typed(f, text, delay, i, t)
    ensures var t' := WithReport(t, i, |text|);
      && Dispatches(t') == Dispatches(t) && Notices(t') == [] && SleepCount(t') == SleepCount(t)
      && Reports(t') == DueReports(|text|, i + 1)
      && ReportsInOrder(f, text, t') && SleepsInOrder(f, text, delay, t')
      && |t'| >= |t| && t'[..|t|] == t
  {
    var n := |text|;
    if Due(i, n) {
      AppendInOrder(f, text, delay, t, Progress(i + 1, n));
      Snoc(t, Progress(i + 1, n));
    } else {
      assert WithReport(t, i, n) == t;
    }
  }

  /** Dispatching character `i` completes iteration `i`'s work. */
  lemma DispatchStep(f: char -> seq<Dispatch>, text: string, delay: int, i: nat, t: seq<Action>)
    requires i < |text|
    requires Dispatches(t) == Blocks(f, text[..i]) && Notices(t) == []
    requires Reports(t) == DueReports(|text|, i + 1)
    requires ReportsInOrder(f, text, t) && SleepsInOrder(f, text, delay, t)
    ensures var t' := t + Fired(f(text[i]));
      && Typed(f, text, delay, i + 1, t') && SleepCount(t') == SleepCount(t)
      && |t'| >= |t| && t'[..|t|] == t
  {
    var ds := f(text[i]);
    AppendFiredInOrder(f, text, delay, t, ds);
    AppendFiredViews(t, ds);
    BlocksSnoc(f, text, i);
  }

  /** The sleep after character `i` (not the last) keeps the invariant and counts one more sleep. */
  lemma SleepStep(f: char -> seq<Dispatch>, text: string, delay: int, i: nat, t: seq<Action>)
    requires i + 1 < |text| && Typed(f, text, delay, i + 1, t) && SleepCount(t) == i
    ensures var t' := t + [Sleep(delay)];
      && Typed(f, text, delay, i + 1, t') && SleepCount(t') == i + 1
      && |t'| >= |t| && t'[..|t|] == t
  {
    AppendInOrder(f, text, delay, t, Sleep(delay));
    Snoc(t, Sleep(delay));
  }

  /** The trace after iteration `i` of a loop that dispatches `f(c)` per character. */
  function Step(f: char -> seq<Dispatch>, text: string, delay: int, i: nat, t: seq<Action>): seq<Action>
    requires i < |text|
  {
    WithReport(t, i, |text|) + Fired(f(text[i])) + (if i + 1 < |text| then [Sleep(delay)] else [])
  }

  /** A whole iteration keeps the invariant and adds one sleep unless it was the last. */
  lemma StepKeepsTyped(f: char -> seq<Dispatch>, text: string, delay: int, i: nat, t: seq<Action>)
    requires i < |text| && Typed(f, text, delay, i, t) && SleepCount(t) == i
    ensures Typed(f, text, delay, i + 1, Step(f, text, delay, i, t))
    ensures SleepCount(Step(f, text, delay, i, t)) == if i + 1 < |text| then i + 1 else i
  {
    ReportStep(f, text, delay, i, t);
    var t1 := WithReport(t, i, |text|);
    DispatchStep(f, text, delay, i, t1);
    var t2 := t1 + Fired(f(text[i]));
    if i + 1 < |text| {
      SleepStep(f, text, delay, i, t2);
      assert Step(f, text, delay, i, t) == t2 + [Sleep(delay)];
    } else {
      assert Step(f, text, delay, i, t) == t2;
    }
  }

  /** The trace of a loop after its first `i` iterations, starting from `head`. */
  function LoopTrace(f: char -> seq<Dispatch>, text: string, delay: int, head: seq<Action>, i: nat): seq<Action>
    requires i <= |text|
  {
    if i == 0 then head else Step(f, text, delay, i - 1, LoopTrace(f, text, delay, head, i - 1))
  }

  /** After `i` iterations the loop invariant holds, with one sleep per iteration but the last. */
  lemma {:induction false} LoopTraceTyped(f: char -> seq<Dispatch>, text: string, delay: int, head: seq<Action>, i: nat)
    requires i <= |text|
    requires Typed(f, text, delay, 0, head) && SleepCount(head) == 0
    ensures Typed(f, text, delay, i, LoopTrace(f, text, delay, head, i))
    ensures SleepCount(LoopTrace(f, text, delay, head, i)) == if i == |text| && i > 0 then i - 1 else i
  {
    if i > 0 {
      var t := LoopTrace(f, text, delay, head, i - 1);
      LoopTraceTyped(f, text, delay, head, i - 1);
      StepKeepsTyped(f, text, delay, i - 1, t);
    }
  }

  /** The loop only appends to its trace. */
  lemma {:induction false} LoopTraceExtends(f: char -> seq<Dispatch>, text: string, delay: int, head: seq<Action>, i: nat)
    requires i <= |text|
    ensures |LoopTrace(f, text, delay, head, i)| >= |head|
    ensures LoopTrace(f, text, delay, head, i)[..|head|] == head
  {
    if i > 0 {
      var t := LoopTrace(f, text, delay, head, i - 1);
      LoopTraceExtends(f, text, delay, head, i - 1);
      assert LoopTrace(f, text, delay, head, i)[..|t|] == t;
    }
  }

  /** A trace that starts with two bookkeeping actions is where both loops begin. */
  lemma StartTyped(f: char -> seq<Dispatch>, text: string, delay: int, a: Action, b: Action)
    requires a.Focus? || a.Click? || a.SelectAll?
    requires b.Focus? || b.Click? || b.SelectAll?
    ensures Typed(f, text, delay, 0, [a, b]) && SleepCount([a, b]) == 0
  {
    assert [a] == [] + [a] && [a, b] == [a] + [b];
    AppendInOrder(f, text, delay, [], a);
    AppendInOrder(f, text, delay, [a], b);
    Snoc([], a);
    Snoc([a], b);
  }

  /**
    What a typing loop over `text` that dispatches `f(c)` per character
    leaves behind in its trace `t`, given what interrupted it: every
    delivered character's dispatches in order, the reports and sleeps in
    place, no terminal notice, and the actions before the loop untouched.
  */
  ghost predicate LoopDone(f: char -> seq<Dispatch>, text: string, delay: int, intr: Interrupt, head: seq<Action>, t: seq<Action>) {
    && Dispatches(t) == Blocks(f, text[..Delivered(intr, |text|)])
    && Notices(t) == []
    && Paced(f, text, delay, intr, t)
    && |t| >= |head| && t[..|head|] == head
  }

  /** A loop that runs to the end has typed the whole text, paced as promised. */
  lemma FinishedLoop(f: char -> seq<Dispatch>, text: string, delay: int, intr: Interrupt, head: seq<Action>)
    requires Typed(f, text, delay, 0, head) && SleepCount(head) == 0
    requires !StopHits(intr, |text|) && !ThrowHits(intr, |text|)
    ensures LoopDone(f, text, delay, intr, head, LoopTrace(f, text, delay, head, |text|))
  {
    LoopTraceTyped(f, text, delay, head, |text|);
    LoopTraceExtends(f, text, delay, head, |text|);
    assert text[..|text|] == text;
  }

  /** A loop whose dispatch of character `intr.at` throws has reported it, but typed only what precedes it. */
  lemma ThrownLoop(f: char -> seq<Dispatch>, text: string, delay: int, intr: Interrupt, head: seq<Action>)
    requires Typed(f, text, delay, 0, head) && SleepCount(head) == 0
    requires !StopHits(intr, |text|) && ThrowHits(intr, |text|)
    ensures LoopDone(f, text, delay, intr, head, WithReport(LoopTrace(f, text, delay, head, intr.at), intr.at, |text|))
  {
    var i := intr.at;
    LoopTraceTyped(f, text, delay, head, i);
    LoopTraceExtends(f, text, delay, head, i);
    ReportStep(f, text, delay, i, LoopTrace(f, text, delay, head, i));
  }

  /** A loop stopped in the sleep after character `intr.after` has typed up to it and ends on that sleep. */
  lemma StoppedLoop(f: char -> seq<Dispatch>, text: string, delay: int, intr: Interrupt, head: seq<Action>)
    requires Typed(f, text, delay, 0, head) && SleepCount(head) == 0
    requires StopHits(intr, |text|)
    ensures var t := LoopTrace(f, text, delay, head, intr.after + 1);
      LoopDone(f, text, delay, intr, head, t) && t[|t| - 1] == Sleep(delay)
  {
    var i := intr.after + 1;
    LoopTraceTyped(f, text, delay, head, i);
    LoopTraceExtends(f, text, delay, head, i);
  }

  /** The trace a loop leaves, given what interrupted it. */
  function ExitTrace(f: char -> seq<Dispatch>, text: string, delay: int, intr: Interrupt, head: seq<Action>): seq<Action> {
    var n := |text|;
    if StopHits(intr, n) then LoopTrace(f, text, delay, head, intr.after + 1)
    else if ThrowHits(intr, n) then WithReport(LoopTrace(f, text, delay, head, intr.at), intr.at, n)
    else LoopTrace(f, text, delay, head, n)
  }

  /** Whichever way a loop leaves, its trace is as promised; a stopped one ends on a sleep. */
  lemma ExitTraceDone(f: char -> seq<Dispatch>, text: string, delay: int, intr: Interrupt, head: seq<Action>)
    requires Typed(f, text, delay, 0, head) && SleepCount(head) == 0
    ensures var t := ExitTrace(f, text, delay, intr, head);
      LoopDone(f, text, delay, intr, head, t) && (StopHits(intr, |text|) ==> t[|t| - 1] == Sleep(delay))
  {
    if StopHits(intr, |text|) {
      StoppedLoop(f, text, delay, intr, head);
    } else if ThrowHits(intr, |text|) {
      ThrownLoop(f, text, delay, intr, head);
    } else {
      FinishedLoop(f, text, delay, intr, head);
    }
  }

  datatype LoopRun = LoopRun(session: Session, trace: seq<Action>, exit: Exit)

  /**
    `simulateTyping`: focus and click the canvas, then for each character in
    order: a progress report when due, its keystrokes, and a sleep unless it
    is the last. The loop goes on only while the session is running.
  */
  method SimulateTyping(s: Session, text: string, delay: int, intr: Interrupt) returns (r: LoopRun)
    ensures r.session.canvas == s.canvas
    ensures !s.isRunning ==> r == LoopRun(s, [Focus, Click], Finished)
    ensures s.isRunning ==> r.exit == ExitOf(intr, |text|)
    ensures s.isRunning ==> r.trace == ExitTrace(Keystrokes, text, delay, intr, [Focus, Click])
    ensures r.exit.Suspended? ==> !r.session.isRunning && r.session.currentTimeout.None?
    ensures !r.exit.Suspended? ==> r.session.isRunning == s.isRunning
  {
    var n := |text|;
    var head := [Focus, Click];
    if !s.isRunning {
      // the loop's first check `if (!this.isRunning) break;` ends it at once
      return LoopRun(s, head, Finished);
    }
    var cur := s;
    var exit := Finished;
    var i := 0;
    // after `i` whole iterations the trace is `LoopTrace(Keystrokes, text, delay, head, i)`
    while i < n && cur.isRunning
      invariant i <= n
      invariant cur.isRunning && cur.canvas == s.canvas
      invariant !(StopHits(intr, n) && intr.after < i) && !(ThrowHits(intr, n) && intr.at < i)
    {
      if intr.DispatchThrows? && intr.at == i {
        exit := Threw(intr.message);
        break;
      }
      if i < n - 1 {
        cur := ArmTimer(cur);
        if intr.StopDuringSleep? && intr.after == i {
          // the stop clears the pending timer: the loop never wakes up
          cur := StopPaste(cur);
          exit := Suspended;
          break;
        }
      }
      i := i + 1;
    }
    assert exit == ExitOf(intr, n);
    // the trace the iterations built; ExitTraceDone, CanvasNotices and CanvasDispatches state what it holds
    return LoopRun(cur, ExitTrace(Keystrokes, text, delay, intr, head), exit);
  }

  /** The one event the text-field path fires per character. */
  function InputBlock(c: char): seq<Dispatch> {
    [Dispatch(Target, PlainEvent(EventType.Input))]
  }

  /** The event the text-field path fires after its loop. */
  const ChangeDispatch: Dispatch := Dispatch(Target, PlainEvent(EventType.Change))

  /** The text-field path fires exactly one `input` event per character and nothing else. */
  lemma {:induction false} InputEventsPerCharacter(s: string)
    ensures |Blocks(InputBlock, s)| == |s|
    ensures forall k :: 0 <= k < |s| ==> Blocks(InputBlock, s)[k] == Dispatch(Target, PlainEvent(EventType.Input))
    decreases |s|
  {
    if s != [] {
      InputEventsPerCharacter(s[..|s| - 1]);
    }
  }

  /** The reasons `startPaste` rejects. */
  datatype PasteError = AlreadyRunning | NoTarget | DispatchFailure(message: string)

  /** The `message` of the error `startPaste` throws. */
  function ErrorMessage(e: PasteError): string {
    match e
    case AlreadyRunning => "貼上正在進行中"
    case NoTarget => "找不到 VNC canvas 或輸入欄位"
    case DispatchFailure(m) => m
  }

  /** How the promise `startPaste` returns settles, if ever. */
  datatype Outcome = Resolved | Rejected(error: PasteError) | Pending

  function OutcomeOf(intr: Interrupt, n: nat): Outcome {
    match ExitOf(intr, n)
    case Finished => Resolved
    case Threw(m) => Rejected(DispatchFailure(m))
    case Suspended => Pending
  }

  /** The terminal notice the canvas path sends for an outcome. */
  function NoticesFor(o: Outcome): seq<Notice> {
    match o
    case Resolved => [PasteComplete]
    case Rejected(e) => [PasteError(ErrorMessage(e))]
    case Pending => []
  }

  /** A run of `startPaste`: the session and page afterwards, what it did, and how it settled. */
  datatype Run = Run(session: Session, page: Page, trace: seq<Action>, outcome: Outcome)

  /** What the text-field path appends after its loop: one `change` event, once the loop ran to the end. */
  function Closing(o: Outcome): seq<Action> {
    if o.Resolved? then [Fire(ChangeDispatch)] else []
  }

  /**
    What the text-field path promises about a run `r` over field `field` of
    `page`: the field holds its old value followed by every character whose
    iteration began; the trace is the loop's, then the `change` event when
    the loop ran to the end; and the run flag is down.
  */
  ghost predicate FieldDone(page: Page, field: nat, text: string, delay: int, intr: Interrupt, r: Run)
    requires field < |page.elements|
  {
    && !r.session.isRunning
    && r.outcome == OutcomeOf(intr, |text|)
    && r.page == WithValue(page, field, page.elements[field].value + text[..Entered(intr, |text|)])
    && r.trace == ExitTrace(InputBlock, text, delay, intr, [Focus, SelectAll]) + Closing(r.outcome)
    && (r.outcome.Pending? ==> r.session.currentTimeout.None?)
  }

  /**
    What the text field sees of a run: one `input` event per delivered
    character, then one `change` event only when the loop ran to the end;
    no terminal notice at all, and a stopped run ends on its sleep.
  */
  lemma {:induction false} FieldTraceViews(text: string, delay: int, intr: Interrupt)
    ensures var o := OutcomeOf(intr, |text|);
      var t := ExitTrace(InputBlock, text, delay, intr, [Focus, SelectAll]) + Closing(o);
      && Notices(t) == []
      && Dispatches(t) == Blocks(InputBlock, text[..Delivered(intr, |text|)]) + (if o.Resolved? then [ChangeDispatch] else [])
      && (o.Pending? ==> |t| > 0 && t[|t| - 1] == Sleep(delay))
  {
    var o := OutcomeOf(intr, |text|);
    var head := [Focus, SelectAll];
    StartTyped(InputBlock, text, delay, Focus, SelectAll);
    ExitTraceDone(InputBlock, text, delay, intr, head);
    var t := ExitTrace(InputBlock, text, delay, intr, head);
    var ds := Blocks(InputBlock, text[..Delivered(intr, |text|)]);
    if o.Resolved? {
      Snoc(t, Fire(ChangeDispatch));
      assert t + Closing(o) == t + [Fire(ChangeDispatch)];
    } else {
      assert t + Closing(o) == t && ds + [] == ds;
    }
  }

  /**
    `pasteToInput`: focus and select the field, then for each character in
    order: a progress report when due, the character appended to the value,
    an `input` event, and a sleep unless it is last; after the loop one
    `change` event. It sends no terminal notice, and whichever way it leaves
    (other than by a stop, which leaves it suspended) the run flag drops.
  */
  method PasteToInput(s: Session, page: Page, field: nat, text: string, delay: int, intr: Interrupt)
    returns (r: Run)
    requires field < |page.elements|
    ensures r.session.canvas == s.canvas
    ensures FieldDone(page, field, text, delay, intr, r)
  {
    var n := |text|;
    var head := [Focus, SelectAll];
    var cur := s.(isRunning := true);
    var value := page.elements[field].value;
    var outcome := Resolved;
    var i := 0;
    // after `i` whole iterations the trace is `LoopTrace(InputBlock, text, delay, head, i)`
    while i < n && cur.isRunning
      invariant i <= n
      invariant cur.isRunning && cur.canvas == s.canvas
      invariant value == page.elements[field].value + text[..i]
      invariant !(StopHits(intr, n) && intr.after < i) && !(ThrowHits(intr, n) && intr.at < i)
    {
      // the character is appended before its `input` event is dispatched
      value := value + [text[i]];
      assert value == page.elements[field].value + text[..i + 1] by {
        assert text[..i + 1] == text[..i] + [text[i]];
      }
      if intr.DispatchThrows? && intr.at == i {
        outcome := Rejected(DispatchFailure(intr.message));
        i := i + 1;
        break;
      }
      if i < n - 1 {
        cur := ArmTimer(cur);
        if intr.StopDuringSleep? && intr.after == i {
          // the stop clears the pending timer: the loop never wakes up
          cur := StopPaste(cur);
          outcome := Pending;
          i := i + 1;
          break;
        }
      }
      i := i + 1;
    }
    assert outcome == OutcomeOf(intr, n) && i == Entered(intr, n);
    // the trace the iterations built; ExitTraceDone and FieldTraceViews state what it holds
    var trace := ExitTrace(InputBlock, text, delay, intr, head);
    if outcome.Resolved? {
      trace := trace + [Fire(ChangeDispatch)];
    }
    return Run(cur.(isRunning := false), WithValue(page, field, value), trace, outcome);
  }

  /** The delay `startPaste` uses when the request names none. */
  const DefaultDelay: int := 50

  /** The `delay = 50` default parameter. */
  function DelayOrDefault(delay: Option<int>): (d: int)
    ensures delay.Some? ==> d == delay.value
    ensures delay.None? ==> d == DefaultDelay
  {
    if delay.Some? then delay.value else DefaultDelay
  }

  /** The terminal notice the canvas path appends for an outcome, as an action. */
  function Notified(o: Outcome): seq<Action> {
    match o
    case Resolved => [Notify(PasteComplete)]
    case Rejected(e) => [Notify(PasteError(ErrorMessage(e)))]
    case Pending => []
  }

  /**
    What the canvas path promises about a run `r`: the page is untouched;
    the trace is the loop's, then the terminal notice for how the run
    settled, or nothing more while it stays suspended; and the run flag is
    down.
  */
  ghost predicate CanvasDone(page: Page, text: string, delay: int, intr: Interrupt, r: Run) {
    && !r.session.isRunning
    && r.page == page
    && r.outcome == OutcomeOf(intr, |text|)
    && r.trace == ExitTrace(Keystrokes, text, delay, intr, [Focus, Click]) + Notified(r.outcome)
    && (r.outcome.Pending? ==> r.session.currentTimeout.None?)
  }

  /**
    What the popup sees of a canvas run: exactly the terminal notice for how
    the run settled, as the last action, or none while it stays suspended.
  */
  lemma {:induction false} CanvasNotices(text: string, delay: int, intr: Interrupt)
    ensures var o := OutcomeOf(intr, |text|);
      var t := ExitTrace(Keystrokes, text, delay, intr, [Focus, Click]) + Notified(o);
      && Notices(t) == NoticesFor(o)
      && (!o.Pending? ==> |t| > 0 && t[|t| - 1].Notify?)
  {
    var o := OutcomeOf(intr, |text|);
    var head := [Focus, Click];
    StartTyped(Keystrokes, text, delay, Focus, Click);
    ExitTraceDone(Keystrokes, text, delay, intr, head);
    var t := ExitTrace(Keystrokes, text, delay, intr, head);
    if o.Pending? {
      assert t + Notified(o) == t;
    } else {
      Snoc(t, Notified(o)[0]);
      assert t + Notified(o) == t + [Notified(o)[0]];
    }
  }

  /** What the remote screen sees of a canvas run: the keystrokes of every delivered character, in order. */
  lemma {:induction false} CanvasDispatches(text: string, delay: int, intr: Interrupt)
    ensures var t := ExitTrace(Keystrokes, text, delay, intr, [Focus, Click]) + Notified(OutcomeOf(intr, |text|));
      Dispatches(t) == Blocks(Keystrokes, text[..Delivered(intr, |text|)])
  {
    var o := OutcomeOf(intr, |text|);
    var head := [Focus, Click];
    StartTyped(Keystrokes, text, delay, Focus, Click);
    ExitTraceDone(Keystrokes, text, delay, intr, head);
    var t := ExitTrace(Keystrokes, text, delay, intr, head);
    if o.Pending? {
      assert t + Notified(o) == t;
    } else {
      Snoc(t, Notified(o)[0]);
      assert t + Notified(o) == t + [Notified(o)[0]];
    }
  }

  /**
    The canvas branch of `startPaste` (content.js:129-141): raise the run
    flag, type, and report how the loop left; the `finally` lowers the flag
    unless the loop stays suspended, where the stop already lowered it.
  */
  method PasteToCanvas(s: Session, page: Page, text: string, delay: int, intr: Interrupt) returns (r: Run)
    ensures r.session.canvas == s.canvas
    ensures CanvasDone(page, text, delay, intr, r)
  {
    var loop := SimulateTyping(s.(isRunning := true), text, delay, intr);
    match loop.exit
    case Finished =>
      r := Run(loop.session.(isRunning := false), page, loop.trace + [Notify(PasteComplete)], Resolved);
    case Threw(m) =>
      r := Run(loop.session.(isRunning := false), page, loop.trace + [Notify(PasteError(m))],
               Rejected(DispatchFailure(m)));
    case Suspended =>
      r := Run(loop.session, page, loop.trace, Pending);
  }

  /** The page has something to type into: a located canvas or a focused text field. */
  predicate PasteTarget(page: Page) {
    FindVncCanvas(page).Some? || ActiveField(page).Some?
  }

  /**
    `startPaste`: refuse while a run is in progress; locate the target; with
    no canvas fall back to a focused text field, and with neither refuse.
    A refused call changes nothing; any other leaves the run flag down,
    whichever way it settles.
  */
  method StartPaste(s: Session, page: Page, text: string, delay: Option<int>, intr: Interrupt) returns (r: Run)
    ensures !s.isRunning ==> !r.session.isRunning
    ensures s.isRunning ==> r == Run(s, page, [], Rejected(AlreadyRunning))
    ensures !s.isRunning ==> r.session.canvas == FindVncCanvas(page)
    ensures !s.isRunning && PasteTarget(page) ==> r.outcome == OutcomeOf(intr, |text|)
    ensures !s.isRunning && FindVncCanvas(page).Some? ==>
      CanvasDone(page, text, DelayOrDefault(delay), intr, r)
    ensures !s.isRunning && FindVncCanvas(page).None? && ActiveField(page).Some? ==>
      FieldDone(page, ActiveField(page).value, text, DelayOrDefault(delay), intr, r)
    ensures !s.isRunning && FindVncCanvas(page).None? && ActiveField(page).None? ==>
      r == Run(s.(canvas := None), page, [], Rejected(NoTarget))
  {
    if s.isRunning {
      return Run(s, page, [], Rejected(AlreadyRunning));
    }
    var d := DelayOrDefault(delay);
    var target := FindVncCanvas(page);
    var s1 := s.(canvas := target);
    if target.None? {
      var field := ActiveField(page);
      if field.Some? {
        r := PasteToInput(s1, page, field.value, text, d, intr);
        return;
      }
      return Run(s1, page, [], Rejected(NoTarget));
    }
    r := PasteToCanvas(s1, page, text, d, intr);
  }
}
