/**
 * Containment of a failed attempt: exactly its own containers are stopped, each signal under a
 * lease confirmed just before it, while containers start, exit, appear and vanish in between.
 */
module Containment {
  import opened Calls

  type Cid = nat

  /** The labels a container was created with; a container never changes them, nor is an identifier used again. */
  datatype Labels = Labels(run: nat, configuration: nat, project: nat, service: nat)

  /** The attempt that contains itself: its labels, and the services it may own. */
  datatype Attempt = Attempt(run: nat, configuration: nat, project: nat, services: set<nat>)

  datatype World = World(labels: map<Cid, Labels>, present: set<Cid>, running: set<Cid>, lease: bool, clock: nat)

  predicate Mine(l: Labels, a: Attempt) {
    l.run == a.run && l.configuration == a.configuration && l.project == a.project && l.service in a.services
  }

  /** Every container that carries the attempt's run label, running or not. */
  function Listed(w: World, a: Attempt): set<Cid> {
    set c | c in w.present && c in w.labels && w.labels[c].run == a.run
  }

  datatype Call = LeaseHeld | List | Inspect(cid: Cid, up: bool) | Signal(ids: set<Cid>)

  /** A call, and the moment of the run at which it took place. */
  datatype Entry = Entry(call: Call, at: nat)

  datatype Event = Appears(cid: Cid, labels: Labels) | Starts(cid: Cid) | Exits(cid: Cid) | Vanishes(cid: Cid)
    | LeaseLost | TimePasses(seconds: nat)

  /** What a call finds: its fate, whether it was cut short with work in flight, and what happens before the next. */
  datatype Tick = Tick(fate: Fate, late: bool, nature: seq<Event>)

  function Nature(w: World, e: Event): World {
    match e
    case Appears(c, l) => if c in w.labels then w else w.(labels := w.labels[c := l], present := w.present + {c})
    case Starts(c) => if c in w.present then w.(running := w.running + {c}) else w
    case Exits(c) => w.(running := w.running - {c})
    case Vanishes(c) => w.(present := w.present - {c}, running := w.running - {c})
    case LeaseLost => w.(lease := false)
    case TimePasses(n) => w.(clock := w.clock + n)
  }

  /** Nothing hinders the engine: containers come, start, exit and go, the lease is lost, and time passes. */
  lemma EngineIsFree(w: World, c: Cid, labels: Labels, seconds: nat)
    ensures c !in w.labels ==> Nature(w, Appears(c, labels)) == w.(labels := w.labels[c := labels], present := w.present + {c})
    ensures c in w.present ==> Nature(w, Starts(c)) == w.(running := w.running + {c})
    ensures Nature(w, Exits(c)) == w.(running := w.running - {c})
    ensures Nature(w, Vanishes(c)) == w.(present := w.present - {c}, running := w.running - {c})
    ensures Nature(w, LeaseLost) == w.(lease := false) && Nature(w, TimePasses(seconds)) == w.(clock := w.clock + seconds)
  {
  }

  /** Some events, one after the other. */
  function Natures(w: World, events: seq<Event>): World {
    if events == [] then w else Nature(Natures(w, events[..|events|-1]), events[|events|-1])
  }

  /** The next n calls succeed and nothing happens in between. */
  predicate Calm(schedule: seq<Tick>, n: nat) {
    forall i :: 0 <= i < n && i < |schedule| ==> schedule[i].fate.Fine? && schedule[i].nature == []
  }

  /** The schedule after n calls; beyond its end every call succeeds and nothing happens. */
  function Rest(schedule: seq<Tick>, n: nat): seq<Tick> {
    if n <= |schedule| then schedule[n..] else []
  }

  lemma CalmGoesOn(schedule: seq<Tick>, m: nat, n: nat)
    requires Calm(schedule, m + n)
    ensures Calm(schedule, m) && Calm(Rest(schedule, m), n) && Rest(Rest(schedule, m), n) == Rest(schedule, m + n)
  {
    var rest := Rest(schedule, m);
    forall i | 0 <= i < n && i < |rest| ensures rest[i].fate.Fine? && rest[i].nature == [] {
      assert rest[i] == schedule[m + i];
    }
  }

  /** All goes well, but that right after the attempt's stop its containers are started again. */
  predicate Restarts(schedule: seq<Tick>, w: World, a: Attempt) {
    var n := |Listed(w, a)| + 3;
    && Listed(w, a) * w.running != {} && |schedule| == n + 1 && Calm(schedule, n) && schedule[n].fate.Fine?
    && forall e :: e in schedule[n].nature ==> e.Starts? && e.cid in Listed(w, a)
  }

  function Perform(w: World, c: Call): World {
    match c
    case Signal(ids) => w.(running := w.running - ids)
    case _ => w
  }

  predicate Fit(w: World) {
    w.running <= w.present <= w.labels.Keys
  }

  /** Labels stay, and so does the order of time. */
  ghost predicate Later(a: World, b: World) {
    (forall c :: c in a.labels ==> c in b.labels && b.labels[c] == a.labels[c]) && a.clock <= b.clock
  }

  /** Since the last listing, c was inspected and found running. */
  ghost predicate FoundRunning(log: seq<Entry>, c: Cid) {
    exists j :: 0 <= j < |log| && log[j].call == Inspect(c, true) && forall m :: j < m < |log| ==> !log[m].call.List?
  }

  /**
   * Every signal names only containers of the attempt that the last listing's inspections found
   * running, and follows at once on a confirmed lease.
   */
  ghost predicate Careful(log: seq<Entry>, labels: map<Cid, Labels>, a: Attempt) {
    forall i :: 0 <= i < |log| && log[i].call.Signal? ==>
      i > 0 && log[i-1].call == LeaseHeld && forall c :: c in log[i].call.ids ==>
        c in labels && Mine(labels[c], a) && FoundRunning(log[..i], c)
  }

  /** No signal ever went to a container of another run, configuration, project or service. */
  ghost predicate SparesOthers(log: seq<Entry>, labels: map<Cid, Labels>, a: Attempt) {
    forall i, c :: 0 <= i < |log| && log[i].call.Signal? && c in log[i].call.ids ==>
      (c in labels && labels[c].run == a.run && labels[c].configuration == a.configuration
       && labels[c].project == a.project && labels[c].service in a.services)
  }

  /** What an inspection reported was so at its moment. */
  ghost predicate Truthful(log: seq<Entry>, past: seq<World>) {
    forall i :: 0 <= i < |log| ==>
      (log[i].at < |past|
       && (log[i].call.Inspect? ==> (log[i].call.up <==> log[i].call.cid in past[log[i].at].running)))
  }

  lemma CarefulLater(log: seq<Entry>, v: World, w: World, a: Attempt)
    requires Careful(log, v.labels, a) && Later(v, w)
    ensures Careful(log, w.labels, a)
  {
  }

  /** One more entry, which is no signal or one that the log justifies. */
  lemma CarefulGrows(log: seq<Entry>, e: Entry, labels: map<Cid, Labels>, a: Attempt)
    requires Careful(log, labels, a)
    requires e.call.Signal? ==> |log| > 0 && log[|log|-1].call == LeaseHeld
    requires e.call.Signal? ==> forall c :: c in e.call.ids ==> c in labels && Mine(labels[c], a) && FoundRunning(log, c)
    ensures Careful(log + [e], labels, a)
  {
    var log' := log + [e];
    forall i | 0 <= i < |log'| && log'[i].call.Signal?
      ensures i > 0 && log'[i-1].call == LeaseHeld
      ensures forall c :: c in log'[i].call.ids ==> c in labels && Mine(labels[c], a) && FoundRunning(log'[..i], c)
    {
      if i < |log| {
        assert log'[i] == log[i] && log'[..i] == log[..i];
      } else {
        assert log'[..i] == log;
      }
    }
  }

  /** What was found running stays so until the next listing. */
  lemma FoundRunningLater(log: seq<Entry>, e: Entry, c: Cid)
    requires FoundRunning(log, c) && !e.call.List?
    ensures FoundRunning(log + [e], c)
  {
    var j :| 0 <= j < |log| && log[j].call == Inspect(c, true) && forall m :: j < m < |log| ==> !log[m].call.List?;
    assert (log + [e])[j].call == Inspect(c, true);
  }

  lemma TruthfulLater(log: seq<Entry>, past: seq<World>, later: seq<World>)
    requires Truthful(log, past) && past <= later
    ensures Truthful(log, later)
  {
    forall i | 0 <= i < |log| ensures log[i].at < |later| && later[log[i].at] == past[log[i].at] {
      assert log[i].at < |past|;
    }
  }

  lemma TruthfulGrows(log: seq<Entry>, past: seq<World>, w: World, c: Call)
    requires Truthful(log, past) && (c.Inspect? ==> (c.up <==> c.cid in w.running))
    ensures Truthful(log + [Entry(c, |past|)], past + [w])
  {
    TruthfulLater(log, past, past + [w]);
    var log' := log + [Entry(c, |past|)];
    forall i | 0 <= i < |log'| ensures log'[i] == if i < |log| then log[i] else Entry(c, |past|) {}
  }

  /** At some moment since from the container was running, or was not. */
  ghost predicate Seen(past: seq<World>, from: nat, c: Cid, up: bool) {
    exists k :: from <= k < |past| && (c in past[k].running <==> up)
  }

  lemma StillSeen(past: seq<World>, later: seq<World>, from: nat)
    requires past <= later && from <= |past|
    ensures forall c, up :: Seen(past, from, c, up) ==> Seen(later, from, c, up)
    ensures forall c, up :: Seen(later, |past|, c, up) ==> Seen(later, from, c, up)
  {
    forall c, up | Seen(past, from, c, up) ensures Seen(later, from, c, up) {
      var k :| from <= k < |past| && (c in past[k].running <==> up);
      assert later[k] == past[k];
    }
  }

  /** A permitted call, whether it took effect or not, leaves the log careful and truthful. */
  lemma CallIsLogged(w: World, v: World, c: Call, log: seq<Entry>, past: seq<World>, a: Attempt)
    requires Fit(w) && Careful(log, w.labels, a) && Truthful(log, past) && (v == w || v == Perform(w, c))
    requires c.Inspect? ==> (c.up <==> c.cid in w.running)
    requires c.Signal? ==> log != [] && log[|log|-1].call == LeaseHeld
    requires c.Signal? ==> forall x :: x in c.ids ==> x in w.labels && Mine(w.labels[x], a) && FoundRunning(log, x)
    ensures Fit(v) && Later(w, v)
    ensures Careful(log + [Entry(c, |past|)], v.labels, a) && Truthful(log + [Entry(c, |past|)], past + [v])
  {
    CarefulGrows(log, Entry(c, |past|), w.labels, a);
    TruthfulGrows(log, past, v, c);
    hide Careful, Truthful, FoundRunning;
  }

  class Engine {
    const attempt: Attempt
    var w: World
    var uncertain: bool        // some command was cut short, and the daemon may finish it late
    var schedule: seq<Tick>
    ghost var past: seq<World>
    ghost var log: seq<Entry>

    constructor (w: World, uncertain: bool, schedule: seq<Tick>, attempt: Attempt)
      requires Fit(w)
      ensures Valid() && this.w == w && this.schedule == schedule && this.attempt == attempt && log == []
    {
      this.w, this.uncertain, this.schedule, this.attempt := w, uncertain, schedule, attempt;
      past, log := [w], [];
    }

    ghost predicate Valid()
      reads this
    {
      && past != [] && past[|past|-1] == w && Fit(w)
      && Careful(log, w.labels, attempt) && Truthful(log, past)
    }

    /** One of the attempt's own containers. */
    predicate Own(c: Cid)
      reads this`w
    {
      c in w.labels && Mine(w.labels[c], attempt)
    }

    /** One that the last listing's inspections found running. */
    ghost predicate Target(c: Cid)
      reads this`w, this`log
    {
      Own(c) && FoundRunning(log, c)
    }

    lemma LogIsCareful()
      requires Valid()
      ensures Careful(log, w.labels, attempt) && Truthful(log, past) && Fit(w) && SparesOthers(log, w.labels, attempt)
    {
    }

    method Elapse(nature: seq<Event>)
      requires Valid()
      modifies this`w, this`past
      ensures Valid() && Later(old(w), w) && old(past) <= past && log == old(log) && w == Natures(old(w), nature)
    {
      for i := 0 to |nature|
        invariant Valid() && Later(old(w), w) && old(past) <= past && w == Natures(old(w), nature[..i])
      {
        assert nature[..i+1][..i] == nature[..i];
        NatureIsLater(w, nature[i]);
        CarefulLater(log, w, Nature(w, nature[i]), attempt);
        TruthfulLater(log, past, past + [Nature(w, nature[i])]);
        hide Careful, Truthful, Nature, Later;
        LaterIsTransitive(old(w), w, Nature(w, nature[i]));
        w := Nature(w, nature[i]);
        past := past + [w];
      }
      assert nature[..|nature|] == nature;
    }

    /** One call and whatever the engine does before the next one. */
    method Do(c: Call) returns (o: Outcome)
      requires Valid()
      requires c.Inspect? ==> (c.up <==> c.cid in w.running)
      requires c.Signal? ==> log != [] && log[|log|-1].call == LeaseHeld && forall x :: x in c.ids ==> Target(x)
      modifies this
      ensures Valid() && Later(old(w), w) && log == old(log) + [Entry(c, |old(past)|)]
      ensures |old(past)| < |past| && old(past) <= past
      ensures o.Done? ==> past[|old(past)|] == Perform(old(w), c)
      ensures old(schedule) != [] ==> Struck(old(schedule)[0].fate, old(w), Perform(old(w), c), past[|old(past)|], o)
      ensures old(schedule) != [] ==> schedule == old(schedule)[1..] && w == Natures(past[|old(past)|], old(schedule)[0].nature)
      ensures uncertain == (old(uncertain) || (old(schedule) != [] && old(schedule)[0].late))
      ensures old(schedule) == [] || old(schedule)[0].fate.Fine? ==>
        (o.Done? && schedule == Rest(old(schedule), 1)
         && w == Natures(Perform(old(w), c), if old(schedule) == [] then [] else old(schedule)[0].nature))
      ensures Calm(old(schedule), 1) ==> o.Done? && schedule == Rest(old(schedule), 1) && w == Perform(old(w), c)
    {
      var tick := Tick(Fine, false, []);
      if schedule != [] { tick, schedule := schedule[0], schedule[1..]; }
      NothingIsCalm();
      hide Later, Perform, FoundRunning, Natures, Struck, Valid, Own;
      o := Make(c, tick);
      ghost var v := w;
      Elapse(tick.nature);
      LaterIsTransitive(old(w), v, w);
    }

    /** The call itself, and what its caller learns. */
    method Make(c: Call, tick: Tick) returns (o: Outcome)
      requires Valid()
      requires c.Inspect? ==> (c.up <==> c.cid in w.running)
      requires c.Signal? ==> log != [] && log[|log|-1].call == LeaseHeld && forall x :: x in c.ids ==> Target(x)
      modifies this`w, this`uncertain, this`past, this`log
      ensures Valid() && Later(old(w), w) && log == old(log) + [Entry(c, |old(past)|)] && past == old(past) + [w]
      ensures Struck(tick.fate, old(w), Perform(old(w), c), w, o) && uncertain == (old(uncertain) || tick.late)
      ensures (o.Done? <==> tick.fate.Fine?) && (o.Done? ==> w == Perform(old(w), c))
    {
      CallIsLogged(w, w, c, log, past, attempt);
      CallIsLogged(w, Perform(w, c), c, log, past, attempt);
      hide Careful, Truthful, Later, Perform, Fit, FoundRunning;
      if tick.fate.TakesEffect() { w := Perform(w, c); }
      log := log + [Entry(c, |past|)];
      past := past + [w];
      uncertain := uncertain || tick.late;
      o := tick.fate.Learnt();
    }

    /** The lease check: it confirms only a lease that is held then. */
    method CheckLease() returns (o: Outcome)
      requires Valid()
      modifies this
      ensures Valid() && Later(old(w), w) && old(past) <= past
      ensures log == old(log) || log == old(log) + [Entry(LeaseHeld, |old(past)|)]
      ensures o.Done? ==> log == old(log) + [Entry(LeaseHeld, |old(past)|)] && old(w).lease
      ensures forall c :: old(Target(c)) ==> Target(c)
      ensures Calm(old(schedule), 1) && old(w).lease ==> o.Done? && schedule == Rest(old(schedule), 1) && w == old(w)
    {
      hide Valid;
      if !w.lease { return Raised; }
      o := Do(LeaseHeld);
      forall c | old(Target(c)) ensures Target(c) {
        FoundRunningLater(old(log), Entry(LeaseHeld, |old(past)|), c);
      }
    }

    /** docker inspect of one listed container: its labels must be the attempt's. */
    method InspectOne(c: Cid) returns (o: Outcome, up: bool)
      requires Valid()
      modifies this
      ensures Valid() && Later(old(w), w) && old(past) <= past
      ensures forall x :: old(Target(x)) ==> Target(x)
      ensures o.Done? ==> Own(c) && c in old(w).present && Seen(past, |old(past)|, c, up) && (up ==> Target(c))
      ensures Calm(old(schedule), 1) && c in old(w).present && old(Own(c)) ==>
        o.Done? && schedule == Rest(old(schedule), 1) && w == old(w) && up == (c in w.running)
    {
      hide Valid;
      up := c in w.running;
      if c !in w.present || !Own(c) { return Raised, up; }
      o := Do(Inspect(c, up));
      forall x | old(Target(x)) ensures Target(x) {
        FoundRunningLater(old(log), Entry(Inspect(c, up), |old(past)|), x);
      }
      if o.Done? {
        assert c in past[|old(past)|].running <==> up;
        assert log[|log|-1].call == Inspect(c, up);
      }
    }

    /** One inspection after another, up to the first that refuses. */
    method InspectAll(ids: set<Cid>, ghost from: nat) returns (o: Outcome, active: set<Cid>)
      requires Valid() && from <= |past|
      modifies this
      ensures Valid() && Later(old(w), w) && old(past) <= past
      ensures forall c :: c in active ==> Target(c) && Seen(past, from, c, true)
      ensures o.Done? ==> active <= ids && forall c :: c in ids - active ==> Seen(past, from, c, false)
      ensures Calm(old(schedule), |ids|) && (forall c :: c in ids ==> c in old(w).present && old(Own(c))) ==>
        (o.Done? && schedule == Rest(old(schedule), |ids|) && w == old(w) && active == ids * w.running)
    {
      hide Seen, Later, Fit, Valid, FoundRunning, Calm, Rest, Own, Target;
      active, o := {}, Done;
      var left, passed: nat := ids, 0;
      ghost var smooth := Calm(schedule, |ids|) && forall c :: c in ids ==> c in w.present && Own(c);
      LaterIsReflexive(w);
      if smooth { NothingPassed(schedule, |ids|); }
      while left != {}
        invariant Valid() && Later(old(w), w) && old(past) <= past
        invariant active <= ids - left && left <= ids && passed + |left| == |ids| && o.Done?
        invariant forall c :: c in active ==> Target(c) && Seen(past, from, c, true)
        invariant forall c :: c in ids - left - active ==> Seen(past, from, c, false)
        invariant smooth ==> schedule == Rest(old(schedule), passed) && Calm(schedule, |left|)
        invariant smooth ==> w == old(w) && forall c :: c in ids ==> (c in active <==> c !in left && c in w.running)
      {
        if smooth {
          CalmGoesOn(schedule, 1, |left| - 1);
          RestOfRest(old(schedule), passed);
        }
        var c :| c in left;
        left, passed := left - {c}, passed + 1;
        ghost var p, v := past, w;
        var up;
        o, up := InspectOne(c);
        LaterIsTransitive(old(w), v, w);
        StillSeen(p, past, from);
        if !o.Done? { return; }
        if up { active := active + {c}; }
      }
    }

    /**
     * owned_containers: one listing, then one inspection after another. What it reports was found
     * running, everything else it listed was found stopped, and any ambiguity refuses.
     */
    method Inventory() returns (o: Outcome, active: set<Cid>, ghost from: nat)
      requires Valid()
      modifies this
      ensures Valid() && Later(old(w), w) && old(past) <= past && |old(past)| <= from < |past|
      ensures forall c :: c in active ==> Target(c) && Seen(past, from, c, true)
      ensures o.Done? ==> past[from] == old(w) && active <= Listed(past[from], attempt) && |Listed(past[from], attempt)| <= 32
      ensures o.Done? ==> forall c :: c in Listed(past[from], attempt) - active ==> Seen(past, from, c, false)
      ensures Calm(old(schedule), |Listed(old(w), attempt)| + 1) && Unambiguous(old(w), attempt) ==>
        (o.Done? && schedule == Rest(old(schedule), |Listed(w, attempt)| + 1) && w == old(w)
         && active == Listed(w, attempt) * w.running)
    {
      hide Seen, Later, Fit, Unambiguous, Listed, Valid, FoundRunning, Calm, Rest, Struck, Natures;
      active, from := {}, |past|;
      var ids := Listed(w, attempt);
      UnambiguousIsMine(w, attempt);
      if Calm(schedule, |ids| + 1) { CalmGoesOn(schedule, 1, |ids|); }
      o := Do(List);
      if !o.Done? { return; }
      if |ids| > 32 { return Raised, active, from; }
      ghost var v := w;
      o, active := InspectAll(ids, from);
      LaterIsTransitive(old(w), v, w);
    }

    /** A lease check and then a signal to exactly these containers. */
    method SignalOwned(ids: set<Cid>) returns (o: Outcome)
      requires Valid() && forall c :: c in ids ==> Target(c)
      modifies this
      ensures Valid() && Later(old(w), w) && old(past) <= past
      ensures ids == {} ==> o.Done? && schedule == old(schedule) && w == old(w)
      ensures ids != {} && old(w).lease && Calm(old(schedule), 1) && (|old(schedule)| > 1 ==> old(schedule)[1].fate.Fine?) ==>
        (o.Done? && schedule == Rest(old(schedule), 2)
         && w == Natures(old(w).(running := old(w).running - ids), if |old(schedule)| > 1 then old(schedule)[1].nature else []))
    {
      hide Valid, FoundRunning, Calm, Natures;
      if ids == {} { return Done; }
      o := CheckLease();
      if !o.Done? { return; }
      o := Do(Signal(ids));
    }

    /** A lease check and then an inventory. */
    method Survey() returns (o: Outcome, active: set<Cid>, ghost from: nat)
      requires Valid()
      modifies this
      ensures Valid() && Later(old(w), w) && old(past) <= past
      ensures forall c :: c in active ==> Target(c)
      ensures o.Done? ==> |old(past)| <= from < |past| && active <= Listed(past[from], attempt)
      ensures o.Done? ==> forall c :: c in Listed(past[from], attempt) - active ==> Seen(past, from, c, false)
      ensures Calm(old(schedule), |Listed(old(w), attempt)| + 2) && old(w).lease && Unambiguous(old(w), attempt) ==>
        (o.Done? && schedule == Rest(old(schedule), |Listed(w, attempt)| + 2) && w == old(w)
         && active == Listed(w, attempt) * w.running)
    {
      hide Valid, FoundRunning, Seen, Unambiguous, Listed, Calm, Rest;
      active, from := {}, 0;
      if Calm(schedule, |Listed(w, attempt)| + 2) { CalmGoesOn(schedule, 1, |Listed(w, attempt)| + 1); }
      o := CheckLease();
      if !o.Done? { return; }
      o, active, from := Inventory();
    }

    /** A survey, and a signal to what it found running; nothing of it restarts but where the schedule says so. */
    method Round() returns (o: Outcome)
      requires Valid()
      modifies this
      ensures Valid() && Later(old(w), w) && old(past) <= past
      ensures old(schedule) == [] || Restarts(old(schedule), old(w), attempt) ==>
        (old(w).lease && Unambiguous(old(w), attempt) ==>
           o.Done? && schedule == [] && w == old(w).(running := w.running)
           && w.running - Listed(old(w), attempt) == old(w).running - Listed(old(w), attempt)
           && (old(schedule) == [] ==> w.running == old(w).running - Listed(old(w), attempt)))
    {
      hide FoundRunning, Seen, Valid, Listed, Unambiguous, Natures, Calm, Rest, Restarts;
      if schedule == [] || Restarts(schedule, w, attempt) { StopInBetween(schedule, w, attempt); }
      NothingIsCalm();
      var active;
      ghost var from;
      o, active, from := Survey();
      if !o.Done? { return; }
      o := SignalOwned(active);
    }

    /**
     * stop_owned: whatever happens in between, only the attempt's own containers that were just
     * found running are ever signalled, and each time right after the lease was confirmed (Valid
     * says so of the whole log); it returns only within its budget, with every container of the run
     * that the last listing found seen not running since that listing.
     */
    method StopOwned(budget: nat) returns (o: Outcome, confirmed: bool, ghost from: nat)
      requires Valid()
      modifies this
      ensures Valid() && Careful(log, w.labels, attempt) && Truthful(log, past) && SparesOthers(log, w.labels, attempt)
      ensures Later(old(w), w) && old(past) <= past
      ensures o.Done? ==>
        |old(past)| <= from < |past| && forall c :: c in Listed(past[from], attempt) ==> Seen(past, from, c, false)
      ensures o.Done? ==> w.clock <= old(w).clock + budget && (confirmed <==> !uncertain)
      ensures old(schedule) == [] || Restarts(old(schedule), old(w), attempt) ==>
        (old(w).lease && Unambiguous(old(w), attempt) ==>
           o.Done? && Listed(w, attempt) !! w.running && w == old(w).(running := w.running)
           && w.running == old(w).running - Listed(old(w), attempt))
    {
      hide FoundRunning, Seen, Careful, Truthful, SparesOthers, Mine, Own, Valid, Listed, Unambiguous, Natures, Calm, Rest, Restarts;
      LogIsCareful();
      NothingIsCalm();
      confirmed, from := false, 0;
      var deadline := w.clock + budget;
      o := Round();
      LogIsCareful();
      if !o.Done? { return; }
      OnlyRunningChanged(old(w), w, attempt);
      o := Round();
      LogIsCareful();
      if !o.Done? { return; }
      OnlyRunningChanged(old(w), w, attempt);
      var active;
      o, active, from := Survey();
      LogIsCareful();
      if !o.Done? { return; }
      if w.clock > deadline || active != {} { return Raised, false, from; }
      confirmed := !uncertain;
    }
  }

  lemma {:induction false} StartsOnlyStart(w: World, events: seq<Event>, own: set<Cid>)
    requires forall e :: e in events ==> e.Starts? && e.cid in own
    ensures var v := Natures(w, events); v == w.(running := v.running) && v.running - own == w.running - own
  {
    if events != [] {
      StartsOnlyStart(w, events[..|events|-1], own);
      assert events[|events|-1] in events;
    }
  }

  /** The one eventful tick of such a schedule is that of the stop, after the first survey. */
  lemma StopInBetween(schedule: seq<Tick>, w: World, a: Attempt)
    requires schedule == [] || Restarts(schedule, w, a)
    ensures var n, own := |Listed(w, a)|, Listed(w, a);
      var rest := Rest(schedule, n + 2);
      var v := Natures(w.(running := w.running - own * w.running), if |rest| > 1 then rest[1].nature else []);
      && Calm(schedule, n + 2) && Calm(rest, 1) && (|rest| > 1 ==> rest[1].fate.Fine?) && Rest(rest, 2) == []
      && (own * w.running == {} ==> rest == [] && w.running - own == w.running)
      && (schedule == [] ==> rest == [] && v.running == w.running - own)
      && v == w.(running := v.running) && v.running - own == w.running - own
  {
    hide Listed;
    var n, own := |Listed(w, a)|, Listed(w, a);
    var rest := Rest(schedule, n + 2);
    assert forall c :: c in w.running && c in own ==> c in own * w.running;
    if schedule != [] {
      CalmGoesOn(schedule, n + 2, 1);
      assert rest[1] == schedule[n + 3];
      StartsOnlyStart(w.(running := w.running - own * w.running), rest[1].nature, own);
    }
  }

  lemma RestOfRest(schedule: seq<Tick>, n: nat)
    ensures Rest(Rest(schedule, n), 1) == Rest(schedule, n + 1)
  {
  }

  lemma NothingIsCalm()
    ensures forall n: nat :: Calm([], n) && Rest([], n) == []
    ensures forall w :: Natures(w, []) == w
  {
  }

  lemma OnlyRunningChanged(v: World, w: World, a: Attempt)
    ensures w == v.(running := w.running) ==> Listed(w, a) == Listed(v, a) && (Unambiguous(w, a) <==> Unambiguous(v, a))
  {
  }

  lemma NatureIsLater(w: World, e: Event)
    requires Fit(w)
    ensures Later(w, Nature(w, e)) && Fit(Nature(w, e))
  {
  }

  lemma LaterIsReflexive(w: World)
    ensures Later(w, w)
  {
  }

  lemma NothingPassed(schedule: seq<Tick>, n: nat)
    requires Calm(schedule, n)
    ensures Rest(schedule, 0) == schedule
  {
  }

  lemma LaterIsTransitive(u: World, v: World, w: World)
    requires Later(u, v) && Later(v, w)
    ensures Later(u, w)
  {
  }

  lemma UnambiguousIsMine(w: World, a: Attempt)
    ensures Unambiguous(w, a) ==> |Listed(w, a)| <= 32
    ensures Unambiguous(w, a) ==> forall c :: c in Listed(w, a) ==> c in w.present && c in w.labels && Mine(w.labels[c], a)
  {
  }

  /** At most 32 containers carry the run label, and all their other labels agree. */
  predicate Unambiguous(w: World, a: Attempt) {
    |Listed(w, a)| <= 32 && forall c :: c in Listed(w, a) ==> Mine(w.labels[c], a)
  }
}
