/**
  What one run of the engine does, as a trace of actions, and the views of a
  trace the properties are stated in: the dispatches it makes, the progress
  reports it sends, the sleeps it takes and the notices it sends.
*/
module Trace {
  import opened Synthesizer

  /** The terminal push notifications, `pasteComplete` and `pasteError`. */
  datatype Notice = PasteComplete | PasteError(error: string)

  /**
    One observable step: `focus()`, `click()` and `select()` on the target, a
    `pasteProgress` push, an event dispatch, a suspension in `sleep(ms)`, and
    a terminal notice. Pushes never fail (the transport swallows its errors).
  */
  datatype Action =
    | Focus
    | Click
    | SelectAll
    | Progress(current: nat, total: nat)
    | Fire(dispatch: Dispatch)
    | Sleep(ms: int)
    | Notify(notice: Notice)

  /** The items `pick` finds in each action, in trace order. */
  function Collect<T>(t: seq<Action>, pick: Action -> seq<T>): seq<T>
    decreases |t|
  {
    if t == [] then [] else Collect(t[..|t| - 1], pick) + pick(t[|t| - 1])
  }

  lemma {:induction false} CollectAppend<T>(a: seq<Action>, b: seq<Action>, pick: Action -> seq<T>)
    ensures Collect(a + b, pick) == Collect(a, pick) + Collect(b, pick)
    decreases |b|
  {
    if b == [] {
      assert a + b == a;
    } else {
      assert (a + b)[..|a + b| - 1] == a + b[..|b| - 1];
      CollectAppend(a, b[..|b| - 1], pick);
    }
  }

  function PickDispatch(a: Action): seq<Dispatch> {
    if a.Fire? then [a.dispatch] else []
  }

  function PickReport(a: Action): seq<Action> {
    if a.Progress? then [a] else []
  }

  function PickSleep(a: Action): seq<int> {
    if a.Sleep? then [a.ms] else []
  }

  function PickNotice(a: Action): seq<Notice> {
    if a.Notify? then [a.notice] else []
  }

  /** The events dispatched, in order. */
  function Dispatches(t: seq<Action>): seq<Dispatch> {
    Collect(t, PickDispatch)
  }

  /** The `pasteProgress` pushes, in order. */
  function Reports(t: seq<Action>): seq<Action> {
    Collect(t, PickReport)
  }

  /** How many times the run suspended. */
  function SleepCount(t: seq<Action>): nat {
    |Collect(t, PickSleep)|
  }

  /** The terminal notices, in order. */
  function Notices(t: seq<Action>): seq<Notice> {
    Collect(t, PickNotice)
  }

  /** Appending one action adds exactly what that action contributes to each view. */
  lemma Snoc(t: seq<Action>, a: Action)
    ensures Dispatches(t + [a]) == Dispatches(t) + PickDispatch(a)
    ensures Reports(t + [a]) == Reports(t) + PickReport(a)
    ensures SleepCount(t + [a]) == SleepCount(t) + |PickSleep(a)|
    ensures Notices(t + [a]) == Notices(t) + PickNotice(a)
  {
    assert (t + [a])[..|t|] == t;
  }

  /** Dispatching a list of events, one `Fire` action each. */
  function Fired(ds: seq<Dispatch>): (r: seq<Action>)
    ensures |r| == |ds|
    ensures forall k :: 0 <= k < |ds| ==> r[k] == Fire(ds[k])
  {
    seq(|ds|, k requires 0 <= k < |ds| => Fire(ds[k]))
  }

  /** A run of `Fire` actions is seen only as dispatches. */
  lemma {:induction false} FiredViews(ds: seq<Dispatch>)
    ensures Dispatches(Fired(ds)) == ds
    ensures Reports(Fired(ds)) == []
    ensures SleepCount(Fired(ds)) == 0
    ensures Notices(Fired(ds)) == []
    decreases |ds|
  {
    if ds != [] {
      var init := ds[..|ds| - 1];
      FiredViews(init);
      assert Fired(ds)[..|ds| - 1] == Fired(init);
    }
  }

  /** Appending a run of `Fire` actions adds its dispatches and nothing else. */
  lemma AppendFiredViews(t: seq<Action>, ds: seq<Dispatch>)
    ensures Dispatches(t + Fired(ds)) == Dispatches(t) + ds
    ensures Reports(t + Fired(ds)) == Reports(t)
    ensures SleepCount(t + Fired(ds)) == SleepCount(t)
    ensures Notices(t + Fired(ds)) == Notices(t)
  {
    FiredViews(ds);
    CollectAppend(t, Fired(ds), PickDispatch);
    CollectAppend(t, Fired(ds), PickReport);
    CollectAppend(t, Fired(ds), PickSleep);
    CollectAppend(t, Fired(ds), PickNotice);
  }

  /** The dispatches of a text whose characters each turn into `f(c)`, in text order. */
  function Blocks(f: char -> seq<Dispatch>, s: string): seq<Dispatch>
    decreases |s|
  {
    if s == [] then [] else Blocks(f, s[..|s| - 1]) + f(s[|s| - 1])
  }

  lemma BlocksSnoc(f: char -> seq<Dispatch>, s: string, i: nat)
    requires i < |s|
    ensures Blocks(f, s[..i + 1]) == Blocks(f, s[..i]) + f(s[i])
  {
    assert s[..i + 1][..i] == s[..i];
  }

  /** A progress report is due at index `i` of an `n`-character text. */
  predicate Due(i: nat, n: nat) {
    i % 10 == 0 || i == n - 1
  }

  /** The reports due for the first `m` indices of an `n`-character text. */
  function DueReports(n: nat, m: nat): (r: seq<Action>)
    ensures forall k :: 0 <= k < |r| ==>
      r[k].Progress? && r[k].total == n && 1 <= r[k].current <= m && Due(r[k].current - 1, n)
    ensures forall k, l :: 0 <= k < l < |r| ==> r[k].current < r[l].current
  {
    if m == 0 then []
    else DueReports(n, m - 1) + (if Due(m - 1, n) then [Progress(m, n)] else [])
  }

  /**
    Index `i` is reported, with `current = i + 1` and `total = n`, exactly
    when it is among the first `m` and a report is due for it.
  */
  lemma {:induction false} DueReportsExact(n: nat, m: nat, i: nat)
    ensures Progress(i + 1, n) in DueReports(n, m) <==> i < m && Due(i, n)
  {
    if m > 0 {
      DueReportsExact(n, m - 1, i);
      var prev := DueReports(n, m - 1);
      if Progress(i + 1, n) in prev {
        assert Progress(i + 1, n) in DueReports(n, m);
      }
    }
  }

  /**
    The action at position `p` of `t`, if it is a progress report, follows
    exactly the dispatches of the characters before the one it announces.
  */
  ghost predicate ReportInPlace(f: char -> seq<Dispatch>, text: string, t: seq<Action>, p: nat)
    requires p < |t|
  {
    t[p].Progress? ==>
      t[p].total == |text| && 1 <= t[p].current <= |text|
      && Dispatches(t[..p]) == Blocks(f, text[..t[p].current - 1])
  }

  /**
    The action at position `p` of `t`, if it is a sleep, lasts `delay` and
    comes right after one more character than there were sleeps before it,
    and never after the last character.
  */
  ghost predicate SleepInPlace(f: char -> seq<Dispatch>, text: string, delay: int, t: seq<Action>, p: nat)
    requires p < |t|
  {
    t[p].Sleep? ==>
      t[p].ms == delay && SleepCount(t[..p]) + 1 < |text|
      && Dispatches(t[..p]) == Blocks(f, text[..SleepCount(t[..p]) + 1])
  }

  /** Every progress report of `t` is in place. */
  ghost predicate ReportsInOrder(f: char -> seq<Dispatch>, text: string, t: seq<Action>) {
    forall p: nat {:trigger ReportInPlace(f, text, t, p)} :: p < |t| ==> ReportInPlace(f, text, t, p)
  }

  /** Every sleep of `t` is in place. */
  ghost predicate SleepsInOrder(f: char -> seq<Dispatch>, text: string, delay: int, t: seq<Action>) {
    forall p: nat {:trigger SleepInPlace(f, text, delay, t, p)} :: p < |t| ==> SleepInPlace(f, text, delay, t, p)
  }

  /** Appending an action in the right place keeps both orderings. */
  lemma AppendInOrder(f: char -> seq<Dispatch>, text: string, delay: int, t: seq<Action>, a: Action)
    requires ReportsInOrder(f, text, t) && SleepsInOrder(f, text, delay, t)
    requires a.Progress? ==>
      a.total == |text| && 1 <= a.current <= |text| && Dispatches(t) == Blocks(f, text[..a.current - 1])
    requires a.Sleep? ==>
      a.ms == delay && SleepCount(t) + 1 < |text| && Dispatches(t) == Blocks(f, text[..SleepCount(t) + 1])
    ensures ReportsInOrder(f, text, t + [a]) && SleepsInOrder(f, text, delay, t + [a])
  {
    var t' := t + [a];
    forall p: nat | p < |t'|
      ensures ReportInPlace(f, text, t', p) && SleepInPlace(f, text, delay, t', p)
    {
      if p < |t| {
        assert ReportInPlace(f, text, t, p) && SleepInPlace(f, text, delay, t, p);
        assert t'[..p] == t[..p] && t'[p] == t[p];
      } else {
        assert t'[..p] == t && t'[p] == a;
      }
    }
  }

  /** Appending dispatches keeps both orderings. */
  lemma AppendFiredInOrder(f: char -> seq<Dispatch>, text: string, delay: int, t: seq<Action>, ds: seq<Dispatch>)
    requires ReportsInOrder(f, text, t) && SleepsInOrder(f, text, delay, t)
    ensures ReportsInOrder(f, text, t + Fired(ds)) && SleepsInOrder(f, text, delay, t + Fired(ds))
  {
    var t' := t + Fired(ds);
    forall p: nat | p < |t'|
      ensures ReportInPlace(f, text, t', p) && SleepInPlace(f, text, delay, t', p)
    {
      if p < |t| {
        assert ReportInPlace(f, text, t, p) && SleepInPlace(f, text, delay, t, p);
        assert t'[..p] == t[..p] && t'[p] == t[p];
      } else {
        assert t'[p] == Fired(ds)[p - |t|];
      }
    }
  }
}
