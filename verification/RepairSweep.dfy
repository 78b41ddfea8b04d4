/** The checkpointed sweep over date windows: what it covers, and what its checkpoint means. */
module RepairSweep {
  import opened Common

  type Day = int

  /** The ordinal of the last date the language can represent. */
  const LAST: Day := 3652059

  datatype Window = Window(first: Day, last: Day)

  /** The windows that the generator yields, and whether it ends rather than leaving the calendar. */
  datatype Plan = Plan(windows: seq<Window>, ends: bool)

  function Windows(start: Day, end: Day, days: nat): Plan
    requires days > 0
    decreases end + 1 - start
  {
    if start > end then Plan([], true)
    else if start + days - 1 > LAST then Plan([], false)
    else
      var to := if start + days - 1 < end then start + days - 1 else end;
      var rest := Windows(to + 1, end, days);
      Plan([Window(start, to)] + rest.windows, rest.ends)
  }

  /** The loop of the generator. */
  method Generate(start: Day, end: Day, days: nat) returns (plan: Plan)
    requires days > 0
    ensures plan == Windows(start, end, days)
  {
    var windows, at := [], start;
    while at <= end
      invariant Windows(start, end, days) ==
        Plan(windows + Windows(at, end, days).windows, Windows(at, end, days).ends)
      decreases end + 1 - at
    {
      if at + days - 1 > LAST {
        return Plan(windows, false);
      }
      var to := if at + days - 1 < end then at + days - 1 else end;
      assert windows + ([Window(at, to)] + Windows(to + 1, end, days).windows)
        == windows + [Window(at, to)] + Windows(to + 1, end, days).windows;
      windows := windows + [Window(at, to)];
      at := to + 1;
    }
    plan := Plan(windows, true);
  }

  // ---------- what the windows cover ----------

  predicate Consecutive(windows: seq<Window>, start: Day, days: nat) {
    && (windows != [] ==> windows[0].first == start)
    && (forall i :: 0 <= i < |windows| ==> windows[i].first <= windows[i].last < windows[i].first + days)
    && (forall i :: 0 < i < |windows| ==> windows[i].first == windows[i-1].last + 1)
    && (forall i :: 0 <= i < |windows| - 1 ==> windows[i].last == windows[i].first + days - 1)
  }

  /** Consecutive, disjoint, exactly days long but for the last, which ends exactly at end. */
  lemma {:induction false} WindowsPartition(start: Day, end: Day, days: nat)
    requires days > 0
    ensures var plan := Windows(start, end, days);
      Consecutive(plan.windows, start, days) &&
      (plan.ends ==> if start <= end then plan.windows != [] && plan.windows[|plan.windows|-1].last == end else plan.windows == [])
    decreases end + 1 - start
  {
    if start <= end && start + days - 1 <= LAST {
      var to := if start + days - 1 < end then start + days - 1 else end;
      WindowsPartition(to + 1, end, days);
    }
  }

  ghost predicate Covered(d: Day, windows: seq<Window>) {
    exists i :: 0 <= i < |windows| && windows[i].first <= d <= windows[i].last
  }

  /** Together the windows are exactly the requested days. */
  lemma {:induction false} WindowsCover(start: Day, end: Day, days: nat, d: Day)
    requires days > 0 && Windows(start, end, days).ends
    ensures Covered(d, Windows(start, end, days).windows) <==> start <= d <= end
    decreases end + 1 - start
  {
    if start <= end {
      var to := if start + days - 1 < end then start + days - 1 else end;
      var all, rest := Windows(start, end, days).windows, Windows(to + 1, end, days).windows;
      assert all == [Window(start, to)] + rest;
      WindowsCover(to + 1, end, days, d);
      if Covered(d, rest) {
        var i :| 0 <= i < |rest| && rest[i].first <= d <= rest[i].last;
        assert all[i+1] == rest[i];
      }
      if start <= d <= to {
        assert all[0].first <= d <= all[0].last;
      }
      if Covered(d, all) {
        var i :| 0 <= i < |all| && all[i].first <= d <= all[i].last;
        assert i > 0 ==> all[i] == rest[i-1];
      }
    }
  }

  /** The day after the first k windows. */
  function After(start: Day, windows: seq<Window>, k: nat): Day
    requires k <= |windows|
  {
    if k == 0 then start else windows[k-1].last + 1
  }

  /** Starting again after any number of windows yields exactly the remaining ones. */
  lemma {:induction false} ResumeIsSuffix(start: Day, end: Day, days: nat, k: nat)
    requires days > 0 && k <= |Windows(start, end, days).windows|
    ensures var plan := Windows(start, end, days);
      Windows(After(start, plan.windows, k), end, days) == Plan(plan.windows[k..], plan.ends)
    decreases k
  {
    var plan := Windows(start, end, days);
    if k == 0 {
      assert plan.windows[0..] == plan.windows;
    } else {
      var to := if start + days - 1 < end then start + days - 1 else end;
      var rest := Windows(to + 1, end, days);
      ResumeIsSuffix(to + 1, end, days, k - 1);
      assert plan.windows == [Window(start, to)] + rest.windows;
      assert After(start, plan.windows, k) == After(to + 1, rest.windows, k - 1);
      assert plan.windows[k..] == rest.windows[k-1..];
    }
  }

  /**
   * The generator leaves the calendar exactly when its last window, taken at full length, would;
   * that window starts the last whole number of lengths before the end.
   */
  lemma {:induction false} LeavesTheCalendar(start: Day, end: Day, days: nat, full: nat)
    requires days > 0 && end <= LAST && start + full * days <= end < start + full * days + days
    ensures Windows(start, end, days).ends <==> start + full * days + days - 1 <= LAST
    decreases full
  {
    var plan := Windows(start, end, days);
    if full > 0 {
      Distribute(full, days);
      assert start + days <= end by { Product(full - 1, days); }
      LeavesTheCalendar(start + days, end, days, full - 1);
    } else {
      assert full * days == 0;
    }
  }

  /** The first day is the first of January of year 1, the last one the end of year 9999. */
  lemma LastDay()
    ensures LAST == 365 * 9999 + 9999 / 4 - 9999 / 100 + 9999 / 400
  {
  }

  /** What the option check of the script lets through. */
  predicate Accepted(start: Day, end: Day, days: nat) {
    start <= end < LAST && 1 <= days <= 31
  }

  /** Such options do leave the calendar: one day, the last but one, in windows of a month. */
  lemma {:induction false} AcceptedCanOverflow()
    ensures Accepted(LAST - 1, LAST - 1, 31) && Windows(LAST - 1, LAST - 1, 31) == Plan([], false)
  {
    assert LAST - 1 + 31 - 1 > LAST;
  }

  lemma Distribute(n: nat, d: nat)
    requires n > 0
    ensures n * d == d + (n - 1) * d
  {
  }

  lemma Product(n: nat, d: nat)
    ensures n * d >= 0
  {
  }

  // ---------- the sweep ----------

  /** What one synchronisation comes to; a kill may fall before or after the report or the checkpoint. */
  datatype Turn = Succeeded | Unsuccessful | KilledBefore | KilledAfterReport

  /** What the turns say of each window in order; beyond them every window succeeds. */
  function At(turns: seq<Turn>, i: nat): Turn {
    if i < |turns| then turns[i] else Succeeded
  }

  /** The last day of the windows that reported success, k of which the checkpoint has passed. */
  function ReportedUntil(start: Day, windows: seq<Window>, turns: seq<Turn>, k: nat): Day
    requires k <= |windows|
  {
    if k < |windows| && At(turns, k).KilledAfterReport? then windows[k].last else After(start, windows, k) - 1
  }

  /** Every day before next was in a window that reported success. */
  ghost predicate Done(succeeded: set<Day>, start: Day, next: Day) {
    forall d :: start <= d < next ==> d in succeeded
  }

  ghost function Days(first: Day, last: Day): (r: set<Day>)
    ensures forall d :: d in r <==> first <= d <= last
    decreases last + 1 - first
  {
    if first > last then {} else {first} + Days(first + 1, last)
  }

  lemma DaysGrow(first: Day, next: Day, last: Day)
    requires first <= next
    ensures next <= last + 1 ==> Days(first, next - 1) + Days(next, last) == Days(first, last)
    ensures Days(first, first - 1) == {}
  {
  }

  /** Where the checkpoint stands, the generator either yields the next window or is over. */
  lemma NextWindow(first: Day, end: Day, days: nat, i: nat)
    requires days > 0 && i <= |Windows(first, end, days).windows|
    ensures var plan := Windows(first, end, days);
      var at := After(first, plan.windows, i);
      && (i == |plan.windows| <==> at > end || at + days - 1 > LAST)
      && (i == |plan.windows| ==> (plan.ends <==> at > end))
      && (i < |plan.windows| ==>
            (plan.windows[i] == Window(at, if at + days - 1 < end then at + days - 1 else end)
             && After(first, plan.windows, i + 1) == plan.windows[i].last + 1))
  {
    var plan := Windows(first, end, days);
    ResumeIsSuffix(first, end, days, i);
    assert plan.windows[i..] == Windows(After(first, plan.windows, i), end, days).windows;
    if i < |plan.windows| { assert plan.windows[i] == plan.windows[i..][0]; }
  }

  /** Windows counted from a checkpoint are windows counted from the start. */
  lemma CountsOn(start: Day, end: Day, days: nat, passed: nat, i: nat)
    requires days > 0 && passed <= |Windows(start, end, days).windows|
    ensures var plan := Windows(start, end, days);
      var rest := Windows(After(start, plan.windows, passed), end, days);
      |rest.windows| == |plan.windows| - passed && rest.ends == plan.ends
      && (i <= |rest.windows| ==>
            After(start, plan.windows, passed + i) == After(After(start, plan.windows, passed), rest.windows, i))
  {
    ResumeIsSuffix(start, end, days, passed);
  }

  class Sweep {
    const start: Day
    const end: Day
    const days: nat
    var next: Day                   // the checkpoint on disk
    ghost var succeeded: set<Day>   // days of windows that reported SUCCEEDED
    ghost var passed: nat           // windows that the checkpoint has passed

    ghost predicate Valid()
      reads this
    {
      && 1 <= days <= 31 && start <= end < LAST
      && passed <= |Windows(start, end, days).windows|
      && next == After(start, Windows(start, end, days).windows, passed)
      && start <= next <= end + 1 && Done(succeeded, start, next)
    }

    constructor (start: Day, end: Day, days: nat)
      requires start <= end < LAST && 1 <= days <= 31
      ensures Valid() && next == start && this.start == start && this.end == end && this.days == days
    {
      this.start, this.end, this.days, this.next := start, end, days, start;
      this.succeeded, this.passed := {}, 0;
    }

    /**
     * One run of the tool from its checkpoint: the checkpoint passes the windows that succeed, one by
     * one, up to the first that fails or is killed; nothing else counts as succeeded.
     */
    method Run(turns: seq<Turn>) returns (complete: bool)
      requires Valid()
      modifies this
      ensures Valid() && old(next) <= next && old(succeeded) <= succeeded && old(passed) <= passed
      ensures complete <==> next == end + 1
      ensures turns == [] && Windows(start, end, days).ends ==> complete
      ensures var windows, k := Windows(old(next), end, days).windows, passed - old(passed);
        && k <= |windows| && next == After(old(next), windows, k)
        && (forall i :: 0 <= i < k ==> At(turns, i) == Succeeded) && (k < |windows| ==> At(turns, k) != Succeeded)
        && succeeded == old(succeeded) + Days(old(next), ReportedUntil(old(next), windows, turns, k))
    {
      hide Windows, Days, After;
      ghost var windows, first, before := Windows(next, end, days).windows, next, passed;
      CountsOn(start, end, days, before, 0);
      NextWindow(first, end, days, 0);
      DaysGrow(first, first, first);
      var i := 0;
      while next <= end
        invariant Valid() && first <= next && passed == before + i && i <= |windows|
        invariant next == After(first, windows, i) && forall j :: 0 <= j < i ==> At(turns, j) == Succeeded
        invariant succeeded == old(succeeded) + Days(first, next - 1)
        decreases end + 1 - next
      {
        NextWindow(first, end, days, i);
        if next + days - 1 > LAST { return false; }
        var to := if next + days - 1 < end then next + days - 1 else end;
        DaysGrow(first, next, to);
        CountsOn(start, end, days, before, i + 1);
        NextWindow(first, end, days, i + 1);
        var turn := At(turns, i);
        if turn.Unsuccessful? || turn.KilledBefore? { return false; }
        succeeded := succeeded + Days(next, to);
        if turn.KilledAfterReport? { return false; }
        next, passed, i := to + 1, passed + 1, i + 1;
      }
      NextWindow(first, end, days, i);
      complete := true;
    }
  }
}
