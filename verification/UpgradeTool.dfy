/**
 * The in-place upgrade tool as an object over the durable state. Every effect goes through Do,
 * where a schedule decides whether the call succeeds, is refused, loses its acknowledgement, is
 * cancelled, or is the last thing before a SIGKILL, and what the rest of the host does meanwhile.
 */
module UpgradeTool {
  import opened Common
  import opened Flyway
  import opened UpgradeState
  import opened UpgradeEffects
  import opened UpgradeRules

  datatype Fate = Fine | RefusedBefore | RefusedAfter | CancelledBefore | CancelledAfter | KilledBefore | KilledAfter

  /** What an image or a realm actor turns out to do to identity. */
  datatype Seen = Seen(digests: Digests, schema: nat, session: nat)

  datatype Tick = Tick(fate: Fate, seen: Option<Seen>, nature: seq<Effect>)

  datatype Outcome = Done | Raised(cancelled: bool) | Dead
  {
    predicate IsFailure() { !Done? }

    function PropagateFailure(): Outcome { this }
  }

  /** Only its own journal moves under an upgrade's effects. */
  lemma BesideStay(w: World, e: Effect, t: Target, aside: World)
    requires Beside(aside, w, t) && Modest(e, t)
    ensures Beside(aside, Perform(w, e), t)
  {
    hide CanCommit, NextRow, Inventory;
  }

  /** Neither another target's journal nor a pair. */
  predicate Modest(e: Effect, t: Target) {
    (e.WriteJournal? ==> e.target == t) && !e.Capture?
  }

  /** Only the maintenance actor moves the identity fence. */
  lemma OwnerStays(w: World, e: Effect)
    ensures !e.SetMaintenance? ==> Perform(w, e).maintenance == w.maintenance && !Frees(w, Perform(w, e))
    ensures Nature(w, e).maintenance == w.maintenance && !Frees(w, Nature(w, e))
  {
    hide CanCommit, NextRow, Inventory;
  }

  lemma PlainIsLawful(w: World, e: Effect)
    requires Inv(w) && Wired(w) && (e == Effect.Look || e.WritePlan?)
    ensures Lawfully(w, Perform(w, e))
  {
    hide Inv, Lawfully;
    QuieterIsLawful(w, Perform(w, e));
  }

  lemma FixIsPaired(js: Journals, v: Journals, t: Target, p: Target)
    requires Fixable(js, t, p) && t in v && v == js[t := v[t]]
    ensures forall s :: Open(v, s) ==> s == t || s == p
  {
    OpenAfter(js, v, t);
    UncontestedIsSole(js, p);
  }

  lemma QuittingIsUnreopened(w: World, t: Target)
    requires Inv(w) && Abandonable(w, t)
    ensures !w.journals[t].reopened
  {
    AbandonableIsPristine(w, t);
  }

  lemma OneStateIsLawful(w: World)
    requires Inv(w)
    ensures Lawful([w])
  {
    hide Inv, Step;
    assert Lawful([w][..0]);
  }

  lemma EveryRole(roles: seq<Role>, logins: set<Role>)
    requires roles == [AppRole, MigratorRole, KeycloakRole, ReaderRole]
    requires forall k :: 0 <= k < |roles| ==> roles[k] !in logins
    ensures logins == {}
  {
    forall r: Role ensures r !in logins {
      match r
      case AppRole => assert r == roles[0];
      case MigratorRole => assert r == roles[1];
      case KeycloakRole => assert r == roles[2];
      case ReaderRole => assert r == roles[3];
    }
  }

  const ACTIVATION: seq<Service> := [Telemetry, Prometheus, NodeExporter, Blackbox, Caddy, Application]
  const OPTIONAL: seq<Service> := [Localizer, Grafana]

  function Members(services: seq<Service>): set<Service> {
    set s | s in services
  }

  const REQUIRED: set<Service> := Members(ACTIVATION)

  /** The services that must be up, less the optional ones that already failed. */
  predicate Serving(running: set<Service>, degraded: seq<Service>) {
    && REQUIRED + {Keycloak, Postgres} <= running
    && forall s :: s in OPTIONAL && s !in degraded ==> s in running
  }

  lemma EveryRoleAllowed(logins: set<Role>)
    requires {AppRole, MigratorRole, KeycloakRole, ReaderRole} <= logins
    ensures logins == ROLES
  {
    forall r: Role ensures r in logins {
      match r
      case AppRole =>
      case MigratorRole =>
      case KeycloakRole =>
      case ReaderRole =>
    }
    forall r | r in logins ensures r in ROLES {
      match r
      case AppRole =>
      case MigratorRole =>
      case KeycloakRole =>
      case ReaderRole =>
    }
  }

  lemma EverythingIsUp(before: set<Service>, running: set<Service>)
    requires REQUIRED + Members(OPTIONAL) <= running && before <= running
    ensures Keycloak in before && Postgres in before ==> Up(running)
  {
    assert Application == ACTIVATION[5] && Caddy == ACTIVATION[4] && Telemetry == ACTIVATION[0];
    assert Prometheus == ACTIVATION[1] && NodeExporter == ACTIVATION[2] && Blackbox == ACTIVATION[3];
    assert Localizer == OPTIONAL[0] && Grafana == OPTIONAL[1];
  }

  lemma ServingIsEssential(running: set<Service>, degraded: seq<Service>)
    requires Serving(running, degraded)
    ensures Essential(running)
    ensures Localizer !in degraded ==> Localizer in running
    ensures Grafana !in degraded ==> Grafana in running
  {
    assert Application == ACTIVATION[5] && Caddy == ACTIVATION[4] && Telemetry == ACTIVATION[0];
    assert Prometheus == ACTIVATION[1] && NodeExporter == ACTIVATION[2] && Blackbox == ACTIVATION[3];
    assert Localizer == OPTIONAL[0] && Grafana == OPTIONAL[1];
  }

  /** The essential services run, and an optional one unless it had failed before. */
  predicate SeenServing(running: set<Service>, degraded: seq<Service>) {
    && Essential(running)
    && (Localizer !in degraded ==> Localizer in running)
    && (Grafana !in degraded ==> Grafana in running)
  }

  lemma UpIsServing(running: set<Service>)
    requires Up(running)
    ensures Serving(running, [])
  {
  }

  /** What the caller of a failing command is told; only a cancelled run counts as cancelled. */
  function Learnt(fate: Fate): Outcome {
    match fate
    case Fine => Done
    case RefusedBefore => Raised(false)
    case RefusedAfter => Raised(false)
    case CancelledBefore => Raised(true)
    case CancelledAfter => Raised(true)
    case KilledBefore => Dead
    case KilledAfter => Dead
  }

  lemma StruckIsLearnt(tick: Tick, before: World, after: World, w: World, o: Outcome)
    requires Struck(tick, before, after, w, o)
    ensures o == Learnt(tick.fate)
  {
  }

  /** What a tick makes of an effect: whether it is there, what the host did after it, and what the tool learns. */
  ghost predicate Struck(tick: Tick, before: World, after: World, w: World, o: Outcome) {
    match tick.fate
    case Fine => w == Passed(after, tick.nature) && o == Done
    case RefusedBefore => w == Passed(before, tick.nature) && o == Raised(false)
    case RefusedAfter => w == Passed(after, tick.nature) && o == Raised(false)
    case CancelledBefore => w == Passed(before, tick.nature) && o == Raised(true)
    case CancelledAfter => w == Passed(after, tick.nature) && o == Raised(true)
    case KilledBefore => w == Passed(before, tick.nature) && o == Dead
    case KilledAfter => w == Passed(after, tick.nature) && o == Dead
  }

  /** The smoke phase saw the product with everything it cannot do without. */
  predicate Smoked(w: World, t: Target) {
    t in w.journals && w.journals[t].phase == Smoke && Essential(w.running) && w.ready && !w.pending && w.maintenance.None?
  }

  lemma ServiceIsSmoked(w: World, t: Target, j: Journal)
    requires InService(w, t, j) && j.phase == Smoke && Essential(w.running) && w.maintenance.None?
    ensures Smoked(w, t)
  {
  }

  class Upgrade {
    var w: World
    var record: Journal
    var contained: bool              // the containment of the last failure was confirmed
    var schedule: seq<Tick>
    ghost const origin: World
    ghost const calm: bool           // nothing was scheduled to go wrong
    ghost var checkpoint: seq<World> // the run up to some earlier moment
    ghost var past: seq<World>
    ghost var tainted: bool      // a reckless order was given
    ghost var freed: bool        // an upgrade that had touched identity was freed from its fence
    ghost var aside: World    // the host as it was when the current journal was taken in hand

    /** A tool over a runtime that keeps the invariant. */
    constructor (w: World, schedule: seq<Tick>)
      requires Inv(w) && Wired(w)
      ensures Valid() && !tainted && !freed && this.w == w && this.schedule == schedule && past == [w] && origin == w
      ensures calm == (schedule == []) && checkpoint == [w]
    {
      this.w, this.schedule := w, schedule;
      origin, aside, calm, checkpoint := w, w, schedule == [], [w];
      record := Journal(Running, Claimed, 0, 0, w.digests, Plan([], 0, false, []), false, false, false, None);
      past, tainted, freed, contained := [w], false, false, false;
      new;
      OneStateIsLawful(w);
    }

    ghost predicate Valid()
      reads this`w, this`past, this`tainted, this`freed, this`schedule, this`checkpoint
    {
      && checkpoint <= past && (calm ==> schedule == [])
      && past != [] && past[0] == origin && past[|past|-1] == w && Wired(w)
      && (tainted || Lawful(past)) && (tainted || freed || Strict(past))
    }

    /** The next state of the host enters the run. */
    method Become(v: World)
      requires Valid() && Wired(v) && (tainted || Lawfully(w, v)) && (tainted || freed || !Frees(w, v))
      modifies this`w, this`past
      ensures Valid() && w == v && past == old(past) + [v] && (tainted || Inv(w))
    {
      w := v;
      past := past + [v];
      assert past[..|past|-1] == old(past);
    }

    /** One effect of a command, and whatever the host does before the next one. */
    method Do(e: Effect) returns (o: Outcome)
      requires Valid() && (tainted || Lawfully(w, Perform(w, e)))
      requires tainted || freed || (e.SetMaintenance? ==> !Frees(w, Perform(w, e)))
      modifies this`w, this`schedule, this`past
      ensures Valid() && (tainted || Inv(w)) && old(past) <= past
      ensures o.Done? ==> Rely(Perform(old(w), e), w)
      ensures Rely(old(w), w) || Rely(Perform(old(w), e), w)
      ensures old(schedule) == [] ==> o.Done? && schedule == [] && w == Perform(old(w), e)
      ensures old(schedule) != [] ==>
        (schedule == old(schedule)[1..] && Struck(old(schedule)[0], old(w), Perform(old(w), e), w, o))
    {
      hide Inv, Step, Rely, Perform, Nature, Lawful;
      var tick := Tick(Fine, None, []);
      if schedule != [] {
        tick, schedule := schedule[0], schedule[1..];
      }
      WiredIsKept(w, e);
      if tick.fate !in {RefusedBefore, CancelledBefore, KilledBefore} {
        if !e.SetMaintenance? { OwnerStays(w, e); }
        Become(Perform(w, e));
      } else {
        LastIsInv();
      }
      Elapse(tick.nature);
      o := Learnt(tick.fate);
    }

    lemma BeganAtOrigin()
      requires Valid()
      ensures past != [] && past[0] == origin
    {
    }

    /** The run so far, as a mark that every later run goes on from. */
    ghost method Mark()
      requires Valid()
      modifies this`checkpoint
      ensures Valid() && checkpoint == past
    {
      checkpoint := past;
    }

    lemma GoesOn()
      requires Valid()
      ensures checkpoint <= past && (calm ==> schedule == [])
    {
    }

    lemma LastIsNow()
      requires Valid()
      ensures past != [] && past[|past|-1] == w
    {
    }

    lemma LastIsInv()
      requires Valid()
      ensures tainted || Inv(w)
    {
    }

    /** The rest of the host goes on by itself. */
    method Elapse(nature: seq<Effect>)
      requires Valid() && (tainted || Inv(w))
      modifies this`w, this`past
      ensures Valid() && (tainted || Inv(w)) && old(past) <= past
      ensures Rely(old(w), w) && (nature == [] ==> w == old(w))
      ensures w == Passed(old(w), nature)
    {
      hide Inv, Step, Rely, Perform, Nature, Lawful, Lawfully;
      RelyIsReflexive(w);
      for i := 0 to |nature|
        invariant Valid() && (tainted || Inv(w)) && old(past) <= past
        invariant Rely(old(w), w) && w == Passed(old(w), nature[..i])
      {
        assert nature[..i+1][..i] == nature[..i];
        WiredIsKept(w, nature[i]);
        NatureIsRelied(w, nature[i]);
        RelyIsTransitive(old(w), w, Nature(w, nature[i]));
        if !tainted {
          NatureIsLawful(w, nature[i]);
        }
        OwnerStays(w, nature[i]);
        Become(Nature(w, nature[i]));
      }
      assert nature[..|nature|] == nature;
    }

    // ---------- the canonical fence ----------

    /** A closing effect: whatever its fate, the host is no more open than before. */
    method Calm(e: Effect) returns (o: Outcome)
      requires Valid() && Closing(e) && (tainted || Tame(w, e))
      modifies this`w, this`schedule, this`past
      ensures Valid() && (tainted || Inv(w))
      ensures Calmer(old(w), w)
      ensures o.Done? ==> Rely(Perform(old(w), e), w)
      ensures old(schedule) == [] ==> o.Done? && schedule == [] && w == Perform(old(w), e)
    {
      hide Struck, Passed, Inv, Step, Rely, Perform, Lawful, Lawfully, Calmer, Closing, Tame;
      LastIsInv();
      ClosingIsCalm(w, e);
      if !tainted { ClosingIsLawful(w, e); }
      WiredIsKept(w, e);
      o := Do(e);
      if Rely(Perform(old(w), e), w) {
        RelyIsCalm(Perform(old(w), e), w);
        CalmerIsTransitive(old(w), Perform(old(w), e), w);
      } else {
        RelyIsCalm(old(w), w);
      }
    }

    /** closed(): the gate first, then the recovery journal. */
    method Shut() returns (o: Outcome)
      requires Valid() && (tainted || !Stale(w))
      modifies this`w, this`schedule, this`past
      ensures Valid() && (tainted || Inv(w))
      ensures Calmer(old(w), w)
      ensures o.Done? ==> Closed(w) && w.local == old(w).local
      ensures old(schedule) == [] ==> o.Done? && schedule == [] && w == old(w).(ready := false, pending := true)
    {
      hide Inv, Step, Lawful, Lawfully;
      o := Calm(SetReady(false));
      if !o.Done? { return; }
      ghost var a := w;
      o := Calm(SetPending(true));
      CalmerIsTransitive(old(w), a, w);
    }

    /** closed('quiescing'): the gate, then the announcement. */
    method Announce() returns (o: Outcome)
      requires Valid() && (tainted || !Stale(w))
      modifies this`w, this`schedule, this`past
      ensures Valid() && (tainted || Inv(w))
      ensures Calmer(old(w), w)
      ensures o.Done? ==> Closed(w) && w.local == Some(Notice(Quiescing, None))
      ensures old(schedule) == [] ==>
        (o.Done? && schedule == []
         && w == old(w).(ready := false, pending := true, local := Some(Notice(Quiescing, None))))
    {
      hide Inv, Step, Lawful, Lawfully, Stale;
      o := Shut();
      if !o.Done? { return; }
      ghost var a := w;
      o := Calm(SetLocal(Some(Notice(Quiescing, None))));
      CalmerIsTransitive(old(w), a, w);
    }

    /** role_login(False), one role after another. */
    method Revoke() returns (o: Outcome)
      requires Valid() && (tainted || !BackupLine(w))
      modifies this`w, this`schedule, this`past
      ensures Valid() && (tainted || Inv(w))
      ensures Calmer(old(w), w)
      ensures o.Done? ==> w.logins == {} && w.local == old(w).local
      ensures old(schedule) == [] ==> o.Done? && schedule == [] && w == old(w).(logins := {})
    {
      hide Inv, Step, Lawful, Lawfully;
      var roles := [AppRole, MigratorRole, KeycloakRole, ReaderRole];
      RelyIsReflexive(w);
      RelyIsCalm(w, w);
      LastIsInv();
      for i := 0 to |roles|
        invariant Valid() && (tainted || Inv(w))
        invariant Calmer(old(w), w) && w.local == old(w).local
        invariant forall k :: 0 <= k < i ==> roles[k] !in w.logins
        invariant old(schedule) == [] ==> schedule == [] && w == old(w).(logins := w.logins)
      {
        ghost var a := w;
        o := Calm(Deny(roles[i]));
        CalmerIsTransitive(old(w), a, w);
        if !o.Done? { return; }
      }
      EveryRole(roles, w.logins);
      o := Done;
    }

    /** The writers stop, their sessions end, and nothing may be left. */
    method Drain() returns (o: Outcome)
      requires Valid()
      modifies this`w, this`schedule, this`past
      ensures Valid() && (tainted || Inv(w))
      ensures Calmer(old(w), w)
      ensures o.Done? ==> w.logins == {} && !w.connected && w.local == old(w).local
      ensures o.Done? && Closed(old(w)) ==> !Exposed(w) && Down(w.running)
      ensures old(schedule) == [] && old(w).logins == {} ==>
        (o.Done? && schedule == [] && w == old(w).(running := old(w).running - FENCE_STOPPED, connected := false))
    {
      hide Inv, Step, Lawful, Lawfully;
      o := Calm(StopWriters);
      if !o.Done? { return; }
      ghost var a := w;
      o := Calm(EndSessions);
      CalmerIsTransitive(old(w), a, w);
      if !o.Done? { return; }
      if w.logins != {} || w.connected {
        return Raised(false);
      }
    }

    /** Recovery fence(): announce, revoke every role, stop the writers, end their sessions, look. */
    method Fence() returns (o: Outcome)
      requires Valid() && (tainted || !Stale(w))
      modifies this`w, this`schedule, this`past
      ensures Valid() && (tainted || Inv(w))
      ensures Calmer(old(w), w)
      ensures o.Done? ==> Closed(w) && Down(w.running) && w.logins == {} && !w.connected
      ensures o.Done? ==> w.local == Some(Notice(Quiescing, None))
      ensures old(schedule) == [] ==>
        (o.Done? && schedule == []
         && w == old(w).(ready := false, pending := true, local := Some(Notice(Quiescing, None)), logins := {},
                         running := old(w).running - FENCE_STOPPED, connected := false))
    {
      hide Inv, Step, Lawful, Lawfully, Stale;
      o := Announce();
      if !o.Done? { return; }
      ghost var a := w;
      o := Revoke();
      CalmerIsTransitive(old(w), a, w);
      if !o.Done? { return; }
      a := w;
      o := Drain();
      CalmerIsTransitive(old(w), a, w);
    }

    // ---------- one upgrade's own effects ----------

    /** The tool's grip on t; nothing beside its journal has changed in the books. */
    ghost predicate Holding(t: Target)
      reads this`w, this`record, this`tainted, this`aside
    {
      t in w.journals && Beside(aside, w, t) && (tainted || Grip(w, t, record))
    }

    /** An effect that the claim in memory permits. */
    method Act(t: Target, e: Effect) returns (o: Outcome)
      requires Valid() && Holding(t) && (tainted || Permits(w, t, record, e)) && Modest(e, t)
      modifies this`w, this`schedule, this`past
      ensures Valid() && Holding(t) && old(past) <= past
      ensures o.Done? ==> Rely(Perform(old(w), e), w)
      ensures Rely(old(w), w) || Rely(Perform(old(w), e), w)
      ensures old(schedule) == [] ==> o.Done? && schedule == [] && w == Perform(old(w), e)
      ensures old(schedule) != [] ==> o == Learnt(old(schedule)[0].fate)
    {
      hide Struck, Passed, Inv, Step, Lawful, Lawfully, Grip, Permits;
      LastIsInv();
      if !tainted {
        PermittedIsLawful(w, t, record, e);
        if e.SetMaintenance? { PermittedFreesNothing(w, t, record, e); }
      }
      BesideStay(w, e, t, aside);
      o := Do(e);
      if old(schedule) != [] { StruckIsLearnt(old(schedule)[0], old(w), Perform(old(w), e), w, o); }
      if Rely(Perform(old(w), e), w) {
        GripIsStable(Perform(old(w), e), w, t, record);
      } else {
        GripIsStable(old(w), w, t, record);
      }
    }

    /** An effect after which nothing but the tool moves. */
    method Still(t: Target, e: Effect) returns (o: Outcome)
      requires Valid() && Holding(t) && (tainted || Permits(w, t, record, e)) && Dormant(Perform(w, e)) && Modest(e, t)
      modifies this`w, this`schedule, this`past
      ensures Valid() && Holding(t)
      ensures o.Done? ==> Same(Perform(old(w), e), w) && Dormant(w)
      ensures Dormant(old(w)) ==> Dormant(w) && (Same(old(w), w) || Same(Perform(old(w), e), w))
      ensures old(schedule) == [] ==> o.Done? && schedule == [] && w == Perform(old(w), e)
    {
      hide Inv, Step, Lawful, Lawfully, Grip, Permits, Rely;
      o := Act(t, e);
      if Rely(Perform(old(w), e), w) {
        DormantIsStill(Perform(old(w), e), w);
      } else if Dormant(old(w)) {
        DormantIsStill(old(w), w);
      }
    }

    /** A look at the shut runtime. */
    method Observe(t: Target) returns (o: Outcome)
      requires Valid() && Holding(t) && Dormant(w)
      modifies this`w, this`schedule, this`past
      ensures Valid() && Holding(t)
      ensures o.Done? ==> Same(old(w), w) && Dormant(w)
      ensures old(schedule) == [] ==> o.Done? && schedule == [] && w == old(w)
    {
      hide Inv, Step, Lawful, Lawfully, Grip, Rely;
      o := Still(t, Effect.Look);
    }

    /** write(record) while the runtime is shut. */
    method Save(t: Target) returns (o: Outcome)
      requires Valid() && Holding(t) && Shuttered(w, record)
      modifies this`w, this`schedule, this`past
      ensures Valid() && Holding(t)
      ensures Shuttered(w, record) && w.logins == old(w).logins
      ensures o.Done? ==> w.journals[t] == record
      ensures o.Done? ==> Same(old(w).(journals := w.journals, next := w.next), w)
      ensures old(schedule) == [] ==> o.Done? && schedule == [] && w == old(w).(journals := w.journals, next := w.next)
    {
      hide Inv, Step, Lawful, Lawfully, Grip, Rely;
      o := Still(t, WriteJournal(t, record));
    }

    /** phase(record, p) while the runtime is shut. */
    method Enter(t: Target, p: Phase) returns (o: Outcome)
      requires Valid() && Holding(t) && Shuttered(w, record) && w.journals[t] == record
      requires Unfinished(record) && MayEnter(w, t, record, p)
      modifies this`w, this`record, this`schedule, this`past
      ensures Valid() && Holding(t)
      ensures record == old(record).(phase := p)
      ensures o.Done? ==> Shuttered(w, record) && w.journals[t] == record
      ensures o.Done? ==> Same(old(w).(journals := w.journals, next := w.next), w)
      ensures old(schedule) == [] ==> o.Done? && schedule == [] && w.running == old(w).running
    {
      hide Inv, Step, Lawful, Lawfully, Grip, Rely, MayEnter, Permits, Perform, Valid;
      if !tainted { PhaseFits(w, t, record, p); }
      record := record.(phase := p);
      o := Save(t);
    }

    // ---------- the migration phase ----------

    /** A move of the migration actor itself. */
    method Advance(t: Target, e: Effect) returns (o: Outcome)
      requires Valid() && Holding(t) && Closed(w) && !Exposed(w)
      requires e == ActorConnects || e == ActorCommits || e == ActorExits
      modifies this`w, this`schedule, this`past
      ensures Valid() && Holding(t) && w.local == old(w).local
      ensures o.Done? ==> MovedHistory(old(w), w) && w.logins == old(w).logins && (e == ActorExits ==> w.actor.None? && !w.connected)
      ensures old(schedule) == [] ==> o.Done? && schedule == [] && w == Perform(old(w), e)
    {
      hide Inv, Step, Lawful, Lawfully, Grip, Perform, Valid;
      ActorPerforms(w, Perform(w, e), e);
      o := Act(t, e);
      if o.Done? {
        ActorMovesHistory(old(w), w, e);
      }
    }

    /** compose run of the migration image: it connects, commits file after file and exits, or is orphaned. */
    method RunActor(t: Target) returns (o: Outcome)
      requires Valid() && Holding(t) && Closed(w) && !Exposed(w)
      requires w.journals[t] == record && record.migrationStarted
      modifies this`w, this`schedule, this`past
      ensures Valid() && Holding(t) && w.local == old(w).local
      ensures o.Done? ==> MovedHistory(old(w), w) && w.actor.None? && !w.connected && w.logins == old(w).logins
      ensures old(schedule) == [] && MigratorRole in old(w).logins && CanMigrate(old(w).history, record.plan.inventory) ==>
        (o.Done? && schedule == [] && AllCommitted(old(w), w, record))
    {
      hide Inv, Step, Lawful, Lawfully, Grip, Valid, CanMigrate;
      :- Act(t, StartActor(t));
      o := Work(t);
    }

    method Work(t: Target) returns (o: Outcome)
      requires Valid() && Holding(t) && Closed(w) && !Exposed(w)
      modifies this`w, this`schedule, this`past
      ensures Valid() && Holding(t) && w.local == old(w).local
      ensures o.Done? ==> MovedHistory(old(w), w) && w.actor.None? && !w.connected && w.logins == old(w).logins
      ensures old(schedule) == [] && CanWork(old(w), t, record) ==> o.Done? && schedule == [] && AllCommitted(old(w), w, record)
    {
      hide Inv, Step, Lawful, Lawfully, Grip, Valid, Rely, CanCommit, NextRow, Prefix, Increasing, FileVersions, Permits, Holding;
      hide CanMigrate;
      :- Advance(t, ActorConnects);
      :- CommitAll(t);
      o := Advance(t, ActorExits);
    }

    /** One transaction after another, as many as are pending. */
    method CommitAll(t: Target) returns (o: Outcome)
      requires Valid() && Holding(t) && Closed(w) && !Exposed(w)
      modifies this`w, this`schedule, this`past
      ensures Valid() && Holding(t) && w.local == old(w).local
      ensures o.Done? ==> MovedHistory(old(w), w) && w.logins == old(w).logins
      ensures old(schedule) == [] && CanWork(old(w), t, record) && old(w).connected ==>
        (o.Done? && schedule == [] && CanMigrate(w.history, record.plan.inventory)
         && |w.history| == |record.plan.inventory| && w.running == old(w).running)
    {
      hide Inv, Step, Lawful, Lawfully, Grip, Valid, Rely, CanCommit, NextRow, Prefix, Increasing, FileVersions, Permits, Holding;
      ghost var smooth := schedule == [] && CanWork(w, t, record) && w.connected;
      var n := if |w.history| < |record.plan.inventory| then |record.plan.inventory| - |w.history| else 0;
      for i := 0 to n
        invariant Valid() && Holding(t)
        invariant MovedHistory(old(w), w) && w.logins == old(w).logins
        invariant smooth ==> schedule == [] && CanWork(w, t, record) && w.connected && w.running == old(w).running
        invariant smooth ==> |w.history| + n == |record.plan.inventory| + i
      {
        if smooth { WorkCommits(w, t, record); }
        :- Advance(t, ActorCommits);
      }
      o := Done;
    }

    method Withdraw(t: Target) returns (o: Outcome)
      requires Valid() && Holding(t) && !BackupLine(w)
      modifies this`w, this`schedule, this`past
      ensures Valid() && Holding(t)
      ensures (o.Done? && Closed(old(w)) && !Exposed(old(w)) && old(w).actor.None? && !old(w).connected) ==>
        Same(old(w).(logins := old(w).logins - {MigratorRole}), w)
      ensures old(schedule) == [] ==> o.Done? && schedule == [] && w.running == old(w).running
    {
      hide Inv, Step, Lawful, Lawfully, Grip, Valid;
      o := Act(t, Deny(MigratorRole));
    }

    /** The one role that may log in, the actor, and the role withdrawn whatever became of the actor. */
    method Lend(t: Target) returns (o: Outcome)
      requires Valid() && Holding(t) && Shuttered(w, record) && w.logins == {}
      requires w.journals[t] == record && record.migrationStarted && record.phase == Migrating
      modifies this`w, this`schedule, this`past
      ensures Valid() && Holding(t)
      ensures o.Done? ==> MovedHistory(old(w), w) && Shuttered(w, record) && w.logins == {}
      ensures old(schedule) == [] && CanMigrate(old(w).history, record.plan.inventory) ==>
        (o.Done? && schedule == [] && AllCommitted(old(w), w, record))
    {
      hide Inv, Step, Lawful, Lawfully, Grip, Valid, CanMigrate;
      :- Act(t, Allow(MigratorRole));
      var ran := RunActor(t);
      if ran.Dead? { return Dead; }
      o := Withdraw(t);
      if o.Done? {
        o := ran;
      }
    }

    /** The write-ahead mark of the migration phase. */
    method MarkMigration(t: Target) returns (o: Outcome)
      requires Valid() && Holding(t) && Shuttered(w, record) && w.logins == {}
      requires w.journals[t] == record && Unfinished(record) && record.phase == Migrating
      modifies this`w, this`record, this`schedule, this`past
      ensures Valid() && Holding(t)
      ensures record == old(record).(migrationStarted := true)
      ensures o.Done? ==> Shuttered(w, record) && w.journals[t] == record
      ensures o.Done? ==> Same(old(w).(journals := w.journals, next := w.next), w)
      ensures old(schedule) == [] ==> o.Done? && schedule == [] && w == old(w).(journals := w.journals, next := w.next)
    {
      hide Inv, Step, Lawful, Lawfully, Grip, Rely, Permits, Perform, AllowedRoles, Valid;
      if !tainted { MarkFits(w, t, record, record.(migrationStarted := true)); }
      record := record.(migrationStarted := true);
      o := Save(t);
    }

    /** The durable mark first, then the actor. */
    method MarkAndLend(t: Target) returns (o: Outcome)
      requires Valid() && Holding(t) && Shuttered(w, record) && w.logins == {}
      requires w.journals[t] == record && Unfinished(record) && record.phase == Migrating
      modifies this`w, this`record, this`schedule, this`past
      ensures Valid() && Holding(t)
      ensures record == old(record).(migrationStarted := true)
      ensures o.Done? ==> MovedMigration(old(w), w) && Shuttered(w, record) && w.journals[t] == record
      ensures old(schedule) == [] && CanMigrate(old(w).history, old(record).plan.inventory) ==>
        (o.Done? && schedule == [] && AllCommitted(old(w), w, record))
    {
      hide Inv, Step, Lawful, Lawfully, Grip, FlywayDelta, Rely, Permits, Perform, AllowedRoles, Valid;
      :- MarkMigration(t);
      o := Lend(t);
    }

    /** Where something is pending, the actor runs; where nothing is, nothing does. */
    method CatchUp(t: Target) returns (o: Outcome)
      requires Valid() && Holding(t) && Shuttered(w, record) && w.logins == {}
      requires w.journals[t] == record && Unfinished(record) && record.phase == Migrating
      requires Acceptable(w.history, record.plan.inventory) && w.actor.None?
      modifies this`w, this`record, this`schedule, this`past
      ensures Valid() && Holding(t)
      ensures record == old(record).(migrationStarted := record.migrationStarted)
      ensures o.Done? ==> MovedMigration(old(w), w) && Shuttered(w, record) && w.journals[t] == record
      ensures o.Done? ==> record.migrationStarted || w.history == old(w).history
      ensures old(schedule) == [] && CanMigrate(old(w).history, old(record).plan.inventory) ==>
        (o.Done? && schedule == [] && UpToDate(old(w), w, record))
    {
      hide Inv, Step, Lawful, Lawfully, Grip, FlywayDelta, Rely, Permits, Perform, Valid, CanMigrate, Shuttered;
      if CanMigrate(w.history, record.plan.inventory) { PrefixIsAccepted(w.history, record.plan.inventory); }
      if FlywayDelta(w.history, record.plan.inventory).value.pending == [] {
        return Done;
      }
      o := MarkAndLend(t);
      if CanMigrate(w.history, record.plan.inventory) { PrefixIsAccepted(w.history, record.plan.inventory); }
    }

    /** No actor may be left, and Flyway must accept the history as it stands. */
    method Inspect(t: Target) returns (o: Outcome)
      requires Valid() && Holding(t) && Shuttered(w, record)
      modifies this`w, this`schedule, this`past
      ensures Valid() && Holding(t)
      ensures o.Done? ==> Same(old(w), w) && Shuttered(w, record) && w.actor.None? && Acceptable(w.history, record.plan.inventory)
      ensures old(schedule) == [] && old(w).actor.None? && CanMigrate(old(w).history, record.plan.inventory) ==>
        (o.Done? && schedule == [] && w == old(w))
    {
      hide Inv, Step, Lawful, Lawfully, Grip, Rely, Permits, Perform, Valid, Holding, Acceptable, CanMigrate;
      :- Observe(t);
      if CanMigrate(w.history, record.plan.inventory) { PrefixIsAccepted(w.history, record.plan.inventory); }
      o := if w.actor.None? && Acceptable(w.history, record.plan.inventory) then Done else Raised(false);
    }

    /** migrate(): whatever an interrupted actor committed, it returns only with Flyway current and no actor left. */
    method Migrate(t: Target) returns (o: Outcome)
      requires Valid() && Holding(t) && Shuttered(w, record) && w.logins == {}
      requires w.journals[t] == record && Unfinished(record) && record.phase == Migrating
      modifies this`w, this`record, this`schedule, this`past
      ensures Valid() && Holding(t)
      ensures record == old(record).(migrationStarted := record.migrationStarted)
      ensures o.Done? ==> MovedMigration(old(w), w) && Shuttered(w, record) && w.journals[t] == record
      ensures o.Done? ==> Migrated(w.history, record.plan.inventory) && w.actor.None?
      ensures o.Done? ==> record.migrationStarted || w.history == old(w).history
      ensures old(schedule) == [] && old(w).actor.None? && CanMigrate(old(w).history, old(record).plan.inventory) ==>
        (o.Done? && schedule == [] && w.running == old(w).running && CanMigrate(w.history, record.plan.inventory))
    {
      hide Inv, Step, Lawful, Lawfully, Grip, Rely, Permits, Perform, Valid, Holding, Acceptable, Migrated, CanMigrate, Shuttered;
      hide Same, MovedMigration;
      :- Inspect(t);
      ghost var a := w;
      SameJournals(old(w), a);
      :- CatchUp(t);
      SameThenMoved(old(w), a, w);
      o := if Migrated(w.history, record.plan.inventory) && w.actor.None? then Done else Raised(false);
    }

    // ---------- the identity phase ----------

    /** What an external actor is found to have done; left alone it does what it was asked. */
    method Peek(asked: Seen) returns (seen: Seen)
      ensures schedule == [] ==> seen == asked
      ensures schedule != [] && schedule[0].seen.Some? ==> seen == schedule[0].seen.value
    {
      seen := if schedule != [] && schedule[0].seen.Some? then schedule[0].seen.value else asked;
    }

    /** The identity phase with its mark on disk. */
    predicate Marked(t: Target)
      reads this`w, this`record
    {
      t in w.journals && w.journals[t] == record && Shuttered(w, record) && record.phase == Identifying && record.identityStarted
    }

    /** The target's Keycloak starts and does what its image does. */
    method BootKeycloak(t: Target, seen: Seen) returns (o: Outcome)
      requires Valid() && Holding(t) && Marked(t)
      modifies this`w, this`schedule, this`past
      ensures Valid() && Holding(t)
      ensures o.Done? ==> Marked(t) && MovedIdentity(old(w), w) && w.keycloak == Some(t) && w.digests == seen.digests
      ensures o.Done? ==> w.schema == seen.schema
      ensures o.Done? ==> w.snapshots == old(w).snapshots && w.logins == old(w).logins && w.journals == old(w).journals
      ensures old(schedule) == [] ==> o.Done? && schedule == [] && w.running == old(w).running + {Keycloak}
    {
      hide Inv, Step, Lawful, Lawfully, Grip, Rely, Valid;
      o := Still(t, StartKeycloak(t, seen.digests, seen.schema));
    }

    /** The session actor. */
    method AlignSession(t: Target, seen: Seen) returns (o: Outcome)
      requires Valid() && Holding(t) && Marked(t)
      modifies this`w, this`schedule, this`past
      ensures Valid() && Holding(t)
      ensures o.Done? ==> Marked(t) && MovedIdentity(old(w), w) && w.digests == seen.digests && w.session == seen.session
      ensures o.Done? ==> w.snapshots == old(w).snapshots && w.logins == old(w).logins && w.keycloak == old(w).keycloak
      ensures o.Done? ==> w.journals == old(w).journals
      ensures old(schedule) == [] ==> o.Done? && schedule == [] && w.running == old(w).running
    {
      hide Inv, Step, Lawful, Lawfully, Grip, Rely, Valid;
      o := Still(t, AlignRealm(seen.digests, seen.session));
    }

    /** The one PUT of the notice actor. */
    method Put(t: Target) returns (o: Outcome)
      requires Valid() && Holding(t) && Marked(t)
      modifies this`w, this`schedule, this`past
      ensures Valid() && Holding(t)
      ensures o.Done? ==> Marked(t)
      ensures o.Done? ==> Same(old(w).(digests := old(w).digests.(texts := Aligned(old(w).digests.texts))), w)
      ensures old(schedule) == [] ==> o.Done? && schedule == [] && w.running == old(w).running
    {
      hide Inv, Step, Lawful, Lawfully, Grip, Rely, Valid;
      o := Still(t, PutNotice);
    }

    /** The first snapshot of the notice actor. */
    method Keep(t: Target) returns (o: Outcome)
      requires Valid() && Holding(t) && Marked(t) && t !in w.snapshots && w.digests.texts == record.before.texts
      modifies this`w, this`schedule, this`past
      ensures Valid() && Holding(t)
      ensures o.Done? ==> Marked(t)
      ensures o.Done? ==> Same(old(w).(snapshots := old(w).snapshots[t := old(w).digests.texts]), w)
      ensures old(schedule) == [] ==> o.Done? && schedule == [] && w.running == old(w).running
    {
      hide Inv, Step, Lawful, Lawfully, Grip, Rely, Valid;
      o := Still(t, WriteSnapshot(t, w.digests.texts));
    }

    /** The Keycloak role may log in. */
    method LendKeycloak(t: Target) returns (o: Outcome)
      requires Valid() && Holding(t) && Shuttered(w, record) && w.logins == {}
      requires w.journals[t] == record && record.phase == Identifying
      modifies this`w, this`schedule, this`past
      ensures Valid() && Holding(t)
      ensures o.Done? ==> Shuttered(w, record) && Same(old(w).(logins := {KeycloakRole}), w)
      ensures old(schedule) == [] ==> o.Done? && schedule == [] && w.running == old(w).running
    {
      hide Inv, Step, Lawful, Lawfully, Grip, Rely, Valid;
      o := Still(t, Allow(KeycloakRole));
    }

    /** The write-ahead mark of the identity phase. */
    method MarkIdentity(t: Target) returns (o: Outcome)
      requires Valid() && Holding(t) && Shuttered(w, record) && w.logins == {KeycloakRole}
      requires w.journals[t] == record && Unfinished(record) && record.phase == Identifying
      modifies this`w, this`record, this`schedule, this`past
      ensures Valid() && Holding(t)
      ensures record == old(record).(identityStarted := true)
      ensures o.Done? ==> Marked(t) && Same(old(w).(journals := w.journals, next := w.next), w)
      ensures old(schedule) == [] ==> o.Done? && schedule == [] && w.running == old(w).running
    {
      hide Inv, Step, Lawful, Lawfully, Grip, Rely, Valid, Permits, Perform;
      if !tainted { MarkFits(w, t, record, record.(identityStarted := true)); }
      record := record.(identityStarted := true);
      o := Save(t);
    }

    /** The role and the durable mark. */
    method AnnounceIdentity(t: Target) returns (o: Outcome)
      requires Valid() && Holding(t) && Shuttered(w, record) && w.logins == {}
      requires w.journals[t] == record && Unfinished(record) && record.phase == Identifying
      modifies this`w, this`record, this`schedule, this`past
      ensures Valid() && Holding(t)
      ensures record == old(record).(identityStarted := record.identityStarted)
      ensures o.Done? ==> Marked(t) && Same(old(w).(logins := {KeycloakRole}, journals := w.journals, next := w.next), w)
      ensures old(schedule) == [] ==> o.Done? && schedule == [] && w.running == old(w).running
    {
      hide Inv, Step, Lawful, Lawfully, Grip, Rely, Valid, Permits, Perform, Holding;
      :- LendKeycloak(t);
      o := MarkIdentity(t);
    }

    /** The durable mark, and only then the target's Keycloak. */
    method StartIdentity(t: Target) returns (o: Outcome)
      requires Valid() && Holding(t) && Shuttered(w, record) && w.logins == {}
      requires w.journals[t] == record && Unfinished(record) && record.phase == Identifying
      modifies this`w, this`record, this`schedule, this`past
      ensures Valid() && Holding(t)
      ensures record == old(record).(identityStarted := record.identityStarted)
      ensures o.Done? ==> Marked(t) && MovedIdentity(old(w), w) && w.logins == {KeycloakRole} && w.keycloak == Some(t)
      ensures o.Done? ==> w.snapshots == old(w).snapshots
      ensures o.Done? && !record.reopened ==> w.digests.accounts == record.before.accounts
      ensures old(schedule) == [] && IdentityIsReady(old(w), t, old(record)) ==>
        (o.Done? && schedule == [] && IdentityIsReady(w, t, record) && w.running == old(w).running + {Keycloak})
    {
      hide Inv, Step, Lawful, Lawfully, Grip, Rely, Valid, Permits, Perform, Holding, IdentityIsReady;
      ghost var smooth := schedule == [] && IdentityIsReady(w, t, record);
      :- AnnounceIdentity(t);
      var seen := Peek(Seen(w.digests, w.schema, w.session));
      :- BootKeycloak(t, seen);
      if smooth { ReadyIsKept(old(w), w, t, old(record), record); }
      o := if record.reopened || w.digests.accounts == record.before.accounts then Done else Raised(false);
    }

    /**
     * The notice actor: the original texts are kept before anything is written, an earlier
     * snapshot must agree with the live texts, and only the one notice is ever put.
     */
    method AlignNotice(t: Target) returns (o: Outcome)
      requires Valid() && Holding(t) && Marked(t) && (t in w.snapshots || w.digests.texts == record.before.texts)
      modifies this`w, this`schedule, this`past
      ensures Valid() && Holding(t)
      ensures o.Done? ==> Marked(t) && MovedIdentity(old(w), w) && w.logins == old(w).logins && w.keycloak == old(w).keycloak
      ensures o.Done? ==> w.digests == old(w).digests.(texts := Texts(APPROVED, old(w).digests.texts.others)) && w.session == old(w).session
      ensures o.Done? ==> t in w.snapshots && w.digests.texts == Aligned(w.snapshots[t])
      ensures o.Done? && t !in old(w).snapshots ==> w.snapshots[t] == old(w).digests.texts
      ensures o.Done? ==> KeptOwn(old(w).snapshots, w.snapshots, t, true) && old(w).digests.texts.notice in {LEGACY, APPROVED}
      ensures o.Done? ==> w.journals == old(w).journals
      ensures old(schedule) == [] && NoticeAligns(old(w), t) ==> o.Done? && schedule == [] && w.running == old(w).running
    {
      hide Inv, Step, Lawful, Lawfully, Grip, Rely, Valid, Permits, Perform, Holding;
      var live := w.digests.texts;
      if live.notice !in {LEGACY, APPROVED} { return Raised(false); }
      if t in w.snapshots {
        if Aligned(w.snapshots[t]) != Aligned(live) { return Raised(false); }
      } else {
        :- Keep(t);
      }
      if live.notice != APPROVED {
        :- Put(t);
      }
      if w.digests.texts != Aligned(live) { return Raised(false); }
      o := Done;
    }

    /** The realm actors, in order, and what must be true of identity after them. */
    method Align(t: Target) returns (o: Outcome)
      requires Valid() && Holding(t) && Marked(t)
      modifies this`w, this`schedule, this`past
      ensures Valid() && Holding(t)
      ensures o.Done? ==> Marked(t) && MovedIdentity(old(w), w) && w.logins == old(w).logins && w.keycloak == old(w).keycloak
      ensures o.Done? ==> IdentityHolds(w, t, record) && KeptOwn(old(w).snapshots, w.snapshots, t, record.plan.notice)
      ensures o.Done? && record.plan.notice && t !in old(w).snapshots ==> w.snapshots[t] == record.before.texts
      ensures old(schedule) == [] && IdentityIsReady(old(w), t, record) ==> o.Done? && schedule == [] && w.running == old(w).running
    {
      hide Inv, Step, Lawful, Lawfully, Grip, Rely, Valid, Permits, Perform, Holding, Shuttered;
      if record.plan.notice {
        if t !in w.snapshots && w.digests.texts != record.before.texts { return Raised(false); }
        :- AlignNotice(t);
      }
      var seen := Peek(Seen(w.digests, w.schema, record.plan.session));
      :- AlignSession(t, seen);
      o := if IdentityHolds(w, t, record) then Done else Raised(false);
    }

    /**
     * identity(): accounts must survive the target's startup, everything but an approved notice
     * must survive the alignment, and the realm must end in the reviewed session policy.
     */
    method Identify(t: Target) returns (o: Outcome)
      requires Valid() && Holding(t) && Shuttered(w, record) && w.logins == {}
      requires w.journals[t] == record && Unfinished(record) && record.phase == Identifying
      modifies this`w, this`record, this`schedule, this`past
      ensures Valid() && Holding(t)
      ensures record == old(record).(identityStarted := record.identityStarted)
      ensures o.Done? ==> Marked(t) && MovedIdentity(old(w), w) && w.logins == {KeycloakRole} && w.keycloak == Some(t)
      ensures o.Done? ==> IdentityHolds(w, t, record) && KeptOwn(old(w).snapshots, w.snapshots, t, record.plan.notice)
      ensures o.Done? && record.plan.notice && t !in old(w).snapshots ==> w.snapshots[t] == record.before.texts
      ensures old(schedule) == [] && IdentityIsReady(old(w), t, old(record)) ==>
        (o.Done? && schedule == [] && w.running == old(w).running + {Keycloak})
    {
      hide Inv, Step, Lawful, Lawfully, Grip, Rely, Valid, Permits, Perform, Holding, Shuttered, IdentityIsReady, IdentityHolds;
      :- StartIdentity(t);
      o := Align(t);
    }

    // ---------- replacing ----------

    /** up --no-start of every changed persistent service but Keycloak, then the pointer. */
    method Replace(t: Target) returns (o: Outcome)
      requires Valid() && Holding(t) && Shuttered(w, record) && w.journals[t] == record
      modifies this`w, this`schedule, this`past
      ensures Valid() && Holding(t)
      ensures o.Done? ==> Shuttered(w, record) && w.active == Some(t) && Replaced(w.created, t, record.plan)
      ensures o.Done? ==> MovedContainers(old(w), w)
      ensures old(schedule) == [] ==> o.Done? && schedule == [] && w.running == old(w).running
    {
      hide Inv, Step, Lawful, Lawfully, Grip, Rely, Valid, Permits, Perform, Holding;
      var changed := record.plan.changed;
      for i := 0 to |changed|
        invariant Valid() && Holding(t) && Shuttered(w, record) && MovedContainers(old(w), w)
        invariant forall k :: 0 <= k < i && changed[k] != Keycloak ==> changed[k] in w.created && w.created[changed[k]] == t
        invariant old(schedule) == [] ==> schedule == [] && w.running == old(w).running
      {
        if changed[i] != Keycloak {
          :- Recreate(t, changed[i]);
        }
      }
      :- Point(t);
      o := Done;
    }

    method Recreate(t: Target, s: Service) returns (o: Outcome)
      requires Valid() && Holding(t) && Shuttered(w, record)
      modifies this`w, this`schedule, this`past
      ensures Valid() && Holding(t)
      ensures o.Done? ==> Shuttered(w, record) && Same(old(w).(created := old(w).created[s := t]), w)
      ensures old(schedule) == [] ==> o.Done? && schedule == [] && w.running == old(w).running
    {
      hide Inv, Step, Lawful, Lawfully, Grip, Rely, Valid;
      o := Still(t, Create(s, t));
    }

    method Point(t: Target) returns (o: Outcome)
      requires Valid() && Holding(t) && Shuttered(w, record)
      modifies this`w, this`schedule, this`past
      ensures Valid() && Holding(t)
      ensures o.Done? ==> Shuttered(w, record) && Same(old(w).(active := Some(t)), w)
      ensures old(schedule) == [] ==> o.Done? && schedule == [] && w.running == old(w).running
    {
      hide Inv, Step, Lawful, Lawfully, Grip, Rely, Valid;
      o := Still(t, WriteActive(t));
    }

    // ---------- reopening ----------

    /** role_login(True), one role after another, while the gate is still closed. */
    method AllowAll(t: Target) returns (o: Outcome)
      requires Valid() && Holding(t) && Shuttered(w, record) && w.actor.None? && w.journals[t] == record && record.reopened
      modifies this`w, this`schedule, this`past
      ensures Valid() && Holding(t)
      ensures o.Done? ==> Shuttered(w, record) && Same(old(w).(logins := ROLES), w)
      ensures old(schedule) == [] ==> o.Done? && schedule == [] && w.running == old(w).running
    {
      hide Inv, Step, Lawful, Lawfully, Grip, Rely, Valid, Permits, Perform, Holding;
      :- AllowTwo(t, AppRole, MigratorRole);
      :- AllowTwo(t, KeycloakRole, ReaderRole);
      EveryRoleAllowed(w.logins);
      o := Done;
    }

    method AllowTwo(t: Target, first: Role, second: Role) returns (o: Outcome)
      requires Valid() && Holding(t) && Shuttered(w, record) && w.actor.None? && w.journals[t] == record && record.reopened
      modifies this`w, this`schedule, this`past
      ensures Valid() && Holding(t)
      ensures o.Done? ==> Shuttered(w, record) && Same(old(w).(logins := old(w).logins + {first, second}), w)
      ensures old(schedule) == [] ==> o.Done? && schedule == [] && w.running == old(w).running
    {
      hide Inv, Step, Lawful, Lawfully, Grip, Rely, Valid, Permits, Perform, Holding;
      :- AllowOne(t, first);
      o := AllowOne(t, second);
    }

    method AllowOne(t: Target, role: Role) returns (o: Outcome)
      requires Valid() && Holding(t) && Shuttered(w, record) && w.actor.None? && w.journals[t] == record && record.reopened
      modifies this`w, this`schedule, this`past
      ensures Valid() && Holding(t)
      ensures o.Done? ==> Shuttered(w, record) && Same(old(w).(logins := old(w).logins + {role}), w)
      ensures old(schedule) == [] ==> o.Done? && schedule == [] && w.running == old(w).running
    {
      hide Inv, Step, Lawful, Lawfully, Grip, Rely, Valid;
      o := Still(t, Allow(role));
    }

    /** gate('open'): READY, then PENDING.json. */
    method OpenDoors(t: Target) returns (o: Outcome)
      requires Valid() && Holding(t) && Switchable(w, t, record) && Reopens(w, t)
      modifies this`w, this`schedule, this`past
      ensures Valid() && Holding(t)
      ensures o.Done? ==> w.plans == old(w).plans
      ensures o.Done? ==> Switchable(w, t, record) && Reopens(w, t) && GateOpen(w)
      ensures o.Done? ==> w.logins == old(w).logins && w.maintenance == old(w).maintenance
      ensures old(schedule) == [] ==> o.Done? && schedule == [] && w.running == old(w).running
    {
      hide Inv, Step, Lawful, Lawfully, Grip, Rely, Valid, Migrated, Replaced, Holding;
      :- Swing(t, SetReady(true));
      o := Swing(t, SetPending(false));
    }

    /** One move of the gate. */
    method Swing(t: Target, e: Effect) returns (o: Outcome)
      requires Valid() && Holding(t) && Switchable(w, t, record) && Reopens(w, t)
      requires e == SetReady(true) || e == SetPending(false)
      modifies this`w, this`schedule, this`past
      ensures Valid() && Holding(t)
      ensures o.Done? ==> w.plans == old(w).plans
      ensures o.Done? ==> Switchable(w, t, record) && Reopens(w, t)
      ensures o.Done? ==> w.logins == old(w).logins && w.maintenance == old(w).maintenance
      ensures o.Done? ==> w.ready == (e.SetReady? || old(w).ready) && w.pending == (e.SetReady? && old(w).pending)
      ensures old(schedule) == [] ==> o.Done? && schedule == [] && w.running == old(w).running
    {
      hide Inv, Step, Lawful, Lawfully, Grip, Valid, Migrated, Replaced;
      o := Act(t, e);
    }

    method MarkReopened(t: Target) returns (o: Outcome)
      requires Valid() && Holding(t) && Shuttered(w, record) && Switchable(w, t, record) && Unfinished(record)
      requires record.phase == Reopening && record.identityStarted && w.logins == {KeycloakRole}
      requires record.reopened || Conserves(w, t, record)
      modifies this`w, this`record, this`schedule, this`past
      ensures Valid() && Holding(t)
      ensures record == old(record).(reopened := true)
      ensures o.Done? ==> w.plans == old(w).plans
      ensures o.Done? ==> Shuttered(w, record) && Switchable(w, t, record)
      ensures old(schedule) == [] ==> o.Done? && schedule == [] && w.running == old(w).running
    {
      hide Inv, Step, Lawful, Lawfully, Grip, Rely, Valid, Permits, Perform, Migrated, Replaced, Preserved;
      if !tainted { MarkFits(w, t, record, record.(reopened := true)); }
      record := record.(reopened := true);
      o := Save(t);
    }

    /** reopen(): the durable mark, the roles, the gate, and the recovery journal last. */
    method Reopen(t: Target) returns (o: Outcome)
      requires Valid() && Holding(t) && Shuttered(w, record) && Switchable(w, t, record) && Unfinished(record)
      requires record.phase == Reopening && record.identityStarted && w.logins == {KeycloakRole}
      requires record.reopened || Conserves(w, t, record)
      modifies this`w, this`record, this`schedule, this`past
      ensures Valid() && Holding(t)
      ensures record == old(record).(reopened := true)
      ensures o.Done? ==> w.plans == old(w).plans
      ensures o.Done? ==> InService(w, t, record) && w.maintenance == Some(record.run)
      ensures old(schedule) == [] ==> o.Done? && schedule == [] && w.running == old(w).running
    {
      hide Inv, Step, Lawful, Lawfully, Grip, Rely, Valid, Permits, Perform, Migrated, Replaced, Holding;
      :- MarkReopened(t);
      :- AllowAll(t);
      :- OpenDoors(t);
      o := Discard(t);
    }

    /** The recovery journal goes once the gate is open. */
    method Discard(t: Target) returns (o: Outcome)
      requires Valid() && Holding(t) && Switchable(w, t, record) && record.reopened && GateOpen(w) && w.logins == ROLES
      modifies this`w, this`schedule, this`past
      ensures Valid() && Holding(t)
      ensures o.Done? ==> w.plans == old(w).plans
      ensures o.Done? ==> InService(w, t, record) && w.maintenance == old(w).maintenance
      ensures old(schedule) == [] ==> o.Done? && schedule == [] && w.running == old(w).running
    {
      hide Inv, Step, Lawful, Lawfully, Grip, Valid, Migrated, Replaced;
      o := Act(t, SetLocal(None));
    }

    // ---------- in service ----------

    /** An effect of the tool while the target serves the product. */
    method Serve(t: Target, e: Effect) returns (o: Outcome)
      requires Valid() && Holding(t) && InService(w, t, record)
      requires e == Effect.Look || e == WriteActive(t) || e == SetMaintenance(None) || e.Start?
      modifies this`w, this`schedule, this`past
      ensures Valid() && Holding(t) && old(past) <= past
      ensures !o.Dead? ==> InService(w, t, record)
      ensures !o.Dead? ==> w.maintenance == old(w).maintenance || w.maintenance == Perform(old(w), e).maintenance
      ensures o.Done? ==> w.maintenance == Perform(old(w), e).maintenance
      ensures old(schedule) == [] ==> o.Done? && schedule == [] && w == Perform(old(w), e)
      ensures old(schedule) != [] ==> o == Learnt(old(schedule)[0].fate)
    {
      hide Inv, Step, Lawful, Lawfully, Grip, Rely, Valid, Migrated, Replaced;
      o := Act(t, e);
      if Rely(Perform(old(w), e), w) {
        SwitchableIsStable(Perform(old(w), e), w, t, record);
      } else {
        SwitchableIsStable(old(w), w, t, record);
      }
    }

    /** phase(record, p) and the completion, while the target serves. */
    method Move(t: Target, k: Journal) returns (o: Outcome)
      requires Valid() && Holding(t) && InService(w, t, record) && k == record.(status := k.status, phase := k.phase)
      requires (k.status == Running && k.phase in {Activation, Smoke, Finalizing}) || (k.status == Complete && k.phase == Finished)
      modifies this`w, this`record, this`schedule, this`past
      ensures Valid() && Holding(t) && record == k && old(past) <= past
      ensures o.Done? ==> InService(w, t, record) && w.maintenance == old(w).maintenance
      ensures old(schedule) == [] ==> o.Done? && schedule == [] && w.running == old(w).running
    {
      hide Inv, Step, Lawful, Lawfully, Grip, Rely, Valid, Migrated, Replaced;
      if !tainted { ServiceFits(w, t, record, k); }
      record := k;
      o := Act(t, WriteJournal(t, record));
      if o.Done? {
        SwitchableIsStable(Perform(old(w), WriteJournal(t, record)), w, t, record);
      }
    }

    /** up -d --wait of one service. */
    method Launch(t: Target, s: Service) returns (o: Outcome)
      requires Valid() && Holding(t) && InService(w, t, record) && w.maintenance.None?
      modifies this`w, this`schedule, this`past
      ensures old(past) <= past
      ensures Valid() && Holding(t)
      ensures !o.Dead? ==> InService(w, t, record) && w.maintenance.None?
      ensures old(schedule) == [] ==> o.Done? && schedule == [] && old(w).running + {s} <= w.running
      ensures old(schedule) != [] ==> o == Learnt(old(schedule)[0].fate)
    {
      hide Inv, Step, Lawful, Lawfully, Grip, Rely, Valid, Permits, Holding, InService;
      o := Serve(t, Start(s));
    }

    /** The identity fence goes first: only the edge reads it. */
    method Release(t: Target) returns (o: Outcome)
      requires Valid() && Holding(t) && InService(w, t, record)
      modifies this`w, this`schedule, this`past
      ensures old(past) <= past
      ensures Valid() && Holding(t)
      ensures o.Done? ==> InService(w, t, record) && w.maintenance.None? && OwnOrNone(old(w), record)
      ensures old(schedule) == [] && OwnOrNone(old(w), record) ==>
        (o.Done? && schedule == [] && w.running == old(w).running)
    {
      hide Inv, Step, Lawful, Lawfully, Grip, Rely, Valid, Permits, Holding, InService;
      if w.maintenance.None? { return Done; }
      if w.maintenance != Some(record.run) { return Raised(false); }
      o := Serve(t, SetMaintenance(None));
    }

    /** The launch of an optional service: its own failure is recorded and tolerated, a cancellation is not. */
    method LaunchOptional(t: Target, s: Service, degraded: seq<Service>) returns (o: Outcome, after: seq<Service>)
      requires Valid() && Holding(t) && InService(w, t, record) && w.maintenance.None?
      modifies this`w, this`schedule, this`past
      ensures old(past) <= past
      ensures Valid() && Holding(t) && (after == degraded || after == degraded + [s])
      ensures o.Done? ==> InService(w, t, record) && w.maintenance.None?
      ensures old(schedule) == [] ==> o.Done? && schedule == [] && after == degraded && old(w).running + {s} <= w.running
      ensures old(schedule) != [] ==>
        match old(schedule)[0].fate
        case Fine => o.Done? && after == degraded
        case RefusedBefore => o.Done? && after == degraded + [s]
        case RefusedAfter => o.Done? && after == degraded + [s]
        case CancelledBefore => o == Raised(true)
        case CancelledAfter => o == Raised(true)
        case KilledBefore => o == Dead
        case KilledAfter => o == Dead
    {
      hide Inv, Step, Lawful, Lawfully, Grip, Rely, Valid, Permits, Holding, InService;
      after := degraded;
      o := Launch(t, s);
      if o == Raised(false) { return Done, degraded + [s]; }
    }

    /** activate(): required services in order; an optional one may fail, unless the run was cancelled. */
    method Activate(t: Target) returns (o: Outcome, degraded: seq<Service>)
      requires Valid() && Holding(t) && InService(w, t, record)
      modifies this`w, this`schedule, this`past
      ensures old(past) <= past
      ensures Valid() && Holding(t)
      ensures o.Done? ==> InService(w, t, record) && w.maintenance.None? && OwnOrNone(old(w), record)
      ensures o.Done? ==> forall s :: s in degraded ==> s in OPTIONAL
      ensures old(schedule) == [] && OwnOrNone(old(w), record) ==>
        (o.Done? && schedule == [] && degraded == [] && REQUIRED + Members(OPTIONAL) + old(w).running <= w.running
         && (Keycloak in old(w).running && Postgres in old(w).running ==> Up(w.running)))
    {
      hide Inv, Step, Lawful, Lawfully, Grip, Rely, Valid, Permits, Holding, InService;
      ghost var smooth := schedule == [] && OwnOrNone(w, record);
      degraded := [];
      o := Release(t);
      if !o.Done? { return; }
      for i := 0 to |ACTIVATION|
        invariant old(past) <= past && Valid() && Holding(t) && InService(w, t, record) && w.maintenance.None?
        invariant smooth ==> schedule == [] && old(w).running + Members(ACTIVATION[..i]) <= w.running
      {
        o := Launch(t, ACTIVATION[i]);
        if !o.Done? { return; }
        assert ACTIVATION[..i+1] == ACTIVATION[..i] + [ACTIVATION[i]];
      }
      assert ACTIVATION[..|ACTIVATION|] == ACTIVATION;
      for i := 0 to |OPTIONAL|
        invariant old(past) <= past && Valid() && Holding(t) && InService(w, t, record) && w.maintenance.None?
        invariant forall s :: s in degraded ==> s in OPTIONAL
        invariant smooth ==> schedule == [] && degraded == []
        invariant smooth ==> old(w).running + Members(ACTIVATION) + Members(OPTIONAL[..i]) <= w.running
      {
        o, degraded := LaunchOptional(t, OPTIONAL[i], degraded);
        if !o.Done? { return; }
        assert OPTIONAL[..i+1] == OPTIONAL[..i] + [OPTIONAL[i]];
      }
      assert OPTIONAL[..|OPTIONAL|] == OPTIONAL;
      if smooth { EverythingIsUp(old(w).running, w.running); }
      o := Done;
    }

    /** Required services run, optional ones unless they already failed; the gate is open and unfenced. */
    method Probe(t: Target, degraded: seq<Service>) returns (o: Outcome)
      requires Valid() && Holding(t) && InService(w, t, record)
      modifies this`w, this`schedule, this`past
      ensures old(past) <= past
      ensures Valid() && Holding(t)
      ensures o.Done? ==> InService(w, t, record) && w.maintenance.None? && SeenServing(w.running, degraded)
      ensures old(schedule) == [] && old(w).maintenance.None? && degraded == [] && Up(old(w).running) ==>
        (o.Done? && schedule == [] && w.running == old(w).running)
    {
      hide Inv, Step, Lawful, Lawfully, Grip, Rely, Valid, Permits, Perform, Holding, InService, Serving;
      :- Glance(t, Effect.Look);
      if Up(w.running) && degraded == [] { UpIsServing(w.running); }
      if Serving(w.running, degraded) { ServingIsEssential(w.running, degraded); }
      o := if w.maintenance.None? && Serving(w.running, degraded) then Done else Raised(false);
    }

    /** A look, or the pointer written again: neither moves the service. */
    method Glance(t: Target, e: Effect) returns (o: Outcome)
      requires Valid() && Holding(t) && InService(w, t, record) && (e == Effect.Look || e == WriteActive(t))
      modifies this`w, this`schedule, this`past
      ensures Valid() && Holding(t) && old(past) <= past
      ensures o.Done? ==> InService(w, t, record) && w.maintenance == old(w).maintenance
      ensures old(schedule) == [] ==> o.Done? && schedule == [] && w.running == old(w).running
    {
      hide Inv, Step, Lawful, Lawfully, Grip, Rely, Valid, Permits, Holding, InService;
      o := Serve(t, e);
    }

    /** finish(): a last look, the pointer again, and the completion. */
    method Conclude(t: Target, degraded: seq<Service>) returns (o: Outcome)
      requires Valid() && Holding(t) && InService(w, t, record) && w.maintenance.None?
      modifies this`w, this`record, this`schedule, this`past
      ensures Valid() && Holding(t) && (record == old(record) || record == old(record).(status := Complete, phase := Finished))
      ensures old(past) <= past
      ensures o.Done? ==> Completed(w, t, record)
      ensures o.Done? ==> exists k :: |old(past)| - 1 <= k < |past| && SeenServing(past[k].running, degraded)
      ensures old(schedule) == [] && degraded == [] && Up(old(w).running) ==> o.Done? && schedule == [] && Up(w.running)
    {
      hide Inv, Step, Lawful, Lawfully, Grip, Rely, Valid, Permits, Perform, Holding, InService, Serving;
      :- Glance(t, Effect.Look);
      if Up(w.running) && degraded == [] { UpIsServing(w.running); }
      if !Serving(w.running, degraded) { return Raised(false); }
      ServingIsEssential(w.running, degraded);
      ghost var k := |past| - 1;
      assert past[k] == w by { LastIsNow(); }
      :- Glance(t, WriteActive(t));
      o := Move(t, record.(status := Complete, phase := Finished));
      assert SeenServing(past[k].running, degraded);
    }

    // ---------- execute ----------

    method MigrationSteps(t: Target) returns (o: Outcome)
      requires Valid() && Holding(t) && Shuttered(w, record) && w.logins == {}
      requires w.journals[t] == record && record.status == Running
      modifies this`w, this`record, this`schedule, this`past
      ensures Valid() && Holding(t) && SameClaim(old(record), record) && record.status == Running
      ensures record.reopened == old(record).reopened
      ensures o.Done? ==> Shuttered(w, record) && w.logins == {} && w.journals[t] == record && MovedMigration(old(w), w)
      ensures o.Done? ==> Migrated(w.history, record.plan.inventory) && w.actor.None?
      ensures o.Done? ==> record.migrationStarted || w.history == old(w).history
      ensures old(schedule) == [] && old(w).actor.None? && CanMigrate(old(w).history, old(record).plan.inventory) ==>
        (o.Done? && schedule == [] && w.running == old(w).running && CanMigrate(w.history, record.plan.inventory))
    {
      hide Inv, Step, Lawful, Lawfully, Grip, Rely, Valid, Permits, Perform, CanMigrate, Migrated;
      :- Enter(t, Migrating);
      o := Migrate(t);
    }

    method IdentitySteps(t: Target) returns (o: Outcome)
      requires Valid() && Holding(t) && Shuttered(w, record) && w.logins == {}
      requires w.journals[t] == record && record.status == Running
      modifies this`w, this`record, this`schedule, this`past
      ensures Valid() && Holding(t) && SameClaim(old(record), record) && record.status == Running
      ensures record.reopened == old(record).reopened && record.migrationStarted == old(record).migrationStarted
      ensures o.Done? ==> Marked(t) && MovedIdentity(old(w), w) && w.logins == {KeycloakRole} && w.keycloak == Some(t)
      ensures o.Done? ==> IdentityHolds(w, t, record) && KeptOwn(old(w).snapshots, w.snapshots, t, record.plan.notice)
      ensures o.Done? && record.plan.notice && t !in old(w).snapshots ==> w.snapshots[t] == record.before.texts
      ensures old(schedule) == [] && IdentityIsReady(old(w), t, old(record)) ==>
        (o.Done? && schedule == [] && w.running == old(w).running + {Keycloak})
    {
      hide Inv, Step, Lawful, Lawfully, Grip, Rely, Valid, Permits, Perform, Holding, Preserved;
      :- ReadThrough(t);
      o := Identify(t);
    }

    method Read(t: Target) returns (o: Outcome)
      requires Valid() && Holding(t) && Shuttered(w, record) && w.logins == {}
      requires w.journals[t] == record && record.status == Running
      modifies this`w, this`record, this`schedule, this`past
      ensures Valid() && Holding(t)
      ensures record == old(record).(phase := Reading)
      ensures o.Done? ==> Shuttered(w, record) && w.journals[t] == record
      ensures o.Done? ==> Same(old(w).(journals := w.journals, next := w.next), w)
      ensures old(schedule) == [] ==> o.Done? && schedule == [] && w.running == old(w).running
    {
      hide Inv, Step, Lawful, Lawfully, Grip, Rely, Valid, Permits, Perform, Holding, Preserved;
      :- Enter(t, Reading);
      o := Observe(t);
    }

    /** The reader phase changes nothing modelled here; the identity phase is entered after it. */
    method ReadThrough(t: Target) returns (o: Outcome)
      requires Valid() && Holding(t) && Shuttered(w, record) && w.logins == {}
      requires w.journals[t] == record && record.status == Running
      modifies this`w, this`record, this`schedule, this`past
      ensures Valid() && Holding(t)
      ensures record == old(record).(phase := record.phase)
      ensures o.Done? ==> Shuttered(w, record) && w.journals[t] == record && record.phase == Identifying
      ensures o.Done? ==> Same(old(w).(journals := w.journals, next := w.next), w)
      ensures old(schedule) == [] ==> o.Done? && schedule == [] && w.running == old(w).running
    {
      hide Inv, Step, Lawful, Lawfully, Grip, Rely, Valid, Permits, Perform, Holding, Preserved;
      :- Read(t);
      o := Enter(t, Identifying);
    }

    method SwitchSteps(t: Target) returns (o: Outcome)
      requires Valid() && Holding(t) && Marked(t) && record.status == Running && w.logins == {KeycloakRole}
      requires w.keycloak == Some(t) && IdentityHolds(w, t, record)
      requires Migrated(w.history, record.plan.inventory) && w.actor.None?
      modifies this`w, this`record, this`schedule, this`past
      ensures Valid() && Holding(t) && SameClaim(old(record), record) && record.status == Running
      ensures o.Done? ==> w.plans == old(w).plans
      ensures o.Done? ==> InService(w, t, record) && w.maintenance == Some(record.run)
      ensures old(schedule) == [] ==> o.Done? && schedule == [] && w.running == old(w).running
    {
      hide Inv, Step, Lawful, Lawfully, Grip, Rely, Valid, Permits, Perform, Migrated, Preserved, Replaced;
      :- ReplaceAll(t);
      o := ReopenAll(t);
    }

    method ReplaceAll(t: Target) returns (o: Outcome)
      requires Valid() && Holding(t) && Marked(t) && record.status == Running && w.logins == {KeycloakRole}
      requires record.reopened || Conserves(w, t, record)
      modifies this`w, this`record, this`schedule, this`past
      ensures Valid() && Holding(t) && record == old(record).(phase := Replacing)
      ensures o.Done? ==> Shuttered(w, record) && w.journals[t] == record && w.active == Some(t) && Replaced(w.created, t, record.plan)
      ensures o.Done? ==> w == old(w).(journals := w.journals, next := w.next, created := w.created, active := w.active,
                                       running := w.running, actor := w.actor) && (old(w).actor.None? ==> w.actor.None?)
      ensures old(schedule) == [] ==> o.Done? && schedule == [] && w.running == old(w).running
    {
      hide Inv, Step, Lawful, Lawfully, Grip, Rely, Valid, Permits, Perform, Replaced, Preserved;
      :- Enter(t, Replacing);
      o := Replace(t);
    }

    method ReopenAll(t: Target) returns (o: Outcome)
      requires Valid() && Holding(t) && Shuttered(w, record) && Switchable(w, t, record) && record.status == Running
      requires record.phase == Replacing && record.identityStarted && w.logins == {KeycloakRole}
      requires record.reopened || Conserves(w, t, record)
      modifies this`w, this`record, this`schedule, this`past
      ensures Valid() && Holding(t) && SameClaim(old(record), record) && record.status == Running
      ensures o.Done? ==> w.plans == old(w).plans
      ensures o.Done? ==> InService(w, t, record) && w.maintenance == Some(record.run)
      ensures old(schedule) == [] ==> o.Done? && schedule == [] && w.running == old(w).running
    {
      hide Inv, Step, Lawful, Lawfully, Grip, Rely, Valid, Permits, Perform, Replaced, Preserved, Migrated;
      :- Enter(t, Reopening);
      o := Reopen(t);
    }

    method ServiceSteps(t: Target) returns (o: Outcome)
      requires Valid() && Holding(t) && InService(w, t, record)
      modifies this`w, this`record, this`schedule, this`past
      ensures Valid() && Holding(t) && SameClaim(old(record), record)
      ensures o.Done? ==> Completed(w, t, record)
      ensures o.Done? ==> exists k :: |old(past)| - 1 <= k < |past| && Smoked(past[k], t)
      ensures old(schedule) == [] && OwnOrNone(old(w), old(record)) && Keycloak in old(w).running && Postgres in old(w).running ==>
        (o.Done? && schedule == [] && Up(w.running))
    {
      hide Inv, Step, Lawful, Lawfully, Grip, Rely, Valid, Permits, Perform, Migrated, Holding, InService;
      :- Move(t, record.(status := Running, phase := Activation));
      var degraded;
      o, degraded := Activate(t);
      if !o.Done? { return; }
      :- Move(t, record.(status := Running, phase := Smoke));
      :- Probe(t, degraded);
      ServiceIsSmoked(w, t, record);
      ghost var k := |past| - 1;
      assert Smoked(past[k], t) by { LastIsNow(); }
      :- Move(t, record.(status := Running, phase := Finalizing));
      o := Conclude(t, degraded);
      assert Smoked(past[k], t);
    }

    /** The phases of execute(), in order. */
    method Steps(t: Target) returns (o: Outcome)
      requires Valid() && Holding(t) && Shuttered(w, record) && w.logins == {}
      requires w.journals[t] == record && record.status == Running
      modifies this`w, this`record, this`schedule, this`past
      ensures Valid() && Holding(t) && SameClaim(old(record), record)
      ensures o.Done? ==> Completed(w, t, record)
      ensures old(schedule) == [] && Undisturbed(old(w), t, old(record)) ==> o.Done? && schedule == [] && Up(w.running)
    {
      hide Inv, Step, Lawful, Lawfully, Grip, Rely, Valid, Permits, Perform, Migrated, Holding, CanMigrate;
      :- MigrationSteps(t);
      :- IdentitySteps(t);
      :- SwitchSteps(t);
      o := ServiceSteps(t);
    }

    // ---------- refence and failure ----------

    /** The canonical fence, keeping the grip. */
    method FenceOwn(t: Target) returns (o: Outcome)
      requires Valid() && Holding(t)
      modifies this`w, this`schedule, this`past
      ensures Valid() && (!o.Dead? ==> Holding(t) && Calmer(old(w), w))
      ensures o.Done? ==> Dormant(w) && w.logins == {}
      ensures old(schedule) == [] ==>
        (o.Done? && schedule == [] && w.digests == old(w).digests && w.running == old(w).running - FENCE_STOPPED
         && w.history == old(w).history && w.actor == old(w).actor)
    {
      hide Inv, Step, Lawful, Lawfully, Grip, Fit, Quiet, Stale;
      LastIsInv();
      if !tainted { GripIsFresh(w, t, record); }
      o := Fence();
      if !o.Dead? && !tainted {
        GripIsCalm(old(w), w, t, record);
      }
    }

    /** closed(): READY, PENDING.json, then this upgrade's own line in the recovery journal. */
    method Claim(t: Target) returns (o: Outcome)
      requires Valid() && Holding(t) && Dormant(w)
      modifies this`w, this`schedule, this`past
      ensures Valid() && Holding(t)
      ensures o.Done? ==> Dormant(w) && w.local == Some(Notice(UpgradeFence(record.phase), Some(record.backup)))
      ensures o.Done? ==> Same(old(w).(local := w.local), w)
      ensures old(schedule) == [] ==> o.Done? && schedule == [] && w.running == old(w).running && w.actor == old(w).actor
    {
      hide Inv, Step, Lawful, Lawfully, Grip, Rely, Valid;
      :- Still(t, SetReady(false));
      :- Still(t, SetPending(true));
      o := Still(t, SetLocal(Some(Notice(UpgradeFence(record.phase), Some(record.backup)))));
    }

    /** maintenance-enter, refused while another run holds the fence. */
    method Hold(t: Target) returns (o: Outcome)
      requires Valid() && Holding(t) && Dormant(w) && w.logins == {} && NamesPair(w, record)
      modifies this`w, this`schedule, this`past
      ensures Valid() && Holding(t)
      ensures o.Done? ==> Shuttered(w, record) && w.logins == {}
      ensures o.Done? ==> Same(old(w).(maintenance := w.maintenance, next := w.next), w)
      ensures old(schedule) == [] && OwnOrNone(old(w), record) ==>
        (o.Done? && schedule == [] && w.running == old(w).running && w.actor == old(w).actor)
    {
      hide Inv, Step, Lawful, Lawfully, Grip, Rely, Valid;
      if !OwnOrNone(w, record) { return Raised(false); }
      o := Still(t, SetMaintenance(Some(record.run)));
    }

    /** refence(): from anywhere back to the one shut state. */
    method Refence(t: Target) returns (o: Outcome)
      requires Valid() && Holding(t)
      modifies this`w, this`schedule, this`past
      ensures Valid() && (!o.Dead? ==> Holding(t))
      ensures o.Done? ==> Shuttered(w, record) && w.logins == {} && Refenced(old(w), w)
      ensures o.Done? ==> w.local.value.cause == UpgradeFence(record.phase)
      ensures old(schedule) == [] && OwnOrNone(old(w), record) ==>
        (o.Done? && schedule == [] && w.digests == old(w).digests && w.running == old(w).running - FENCE_STOPPED
         && w.history == old(w).history && w.actor == old(w).actor)
    {
      hide Inv, Step, Lawful, Lawfully, Grip, Rely, Valid, Permits, Perform;
      :- FenceOwn(t);
      :- Claim(t);
      o := Hold(t);
    }

    /** fail(): the failure is kept, the runtime refenced if it can be, and the journal written if it can be. */
    method Fail(t: Target) returns (o: Outcome)
      requires Valid() && Holding(t)
      modifies this`w, this`record, this`contained, this`schedule, this`past
      ensures Valid() && record == old(record).(status := Failed)
      ensures contained ==> Shuttered(w, record) && w.logins == {}
      ensures o.Done? ==> contained && Holding(t) && w.journals[t] == record
      ensures o.Done? ==> Refenced(old(w).(journals := w.journals), w)
      ensures old(schedule) == [] && OwnOrNone(old(w), old(record)) ==>
        (o.Done? && schedule == [] && w.digests == old(w).digests && w.running == old(w).running - FENCE_STOPPED
         && w.history == old(w).history && w.actor == old(w).actor)
    {
      hide Inv, Step, Lawful, Lawfully, Grip, Rely, Valid, Perform;
      if !tainted { FailureFits(w, t, record); }
      record := record.(status := Failed);
      var end := Refence(t);
      contained := end.Done?;
      if end.Done? {
        o := Save(t);
      } else if end.Dead? {
        o := Dead;
      } else {
        o := Write(t);
        if o.Done? { o := end; }
      }
    }

    /** execute(): the steps, or the failure that ended them. */
    method Execute(t: Target) returns (o: Outcome)
      requires Valid() && Holding(t) && Shuttered(w, record) && w.logins == {}
      requires w.journals[t] == record && record.status == Running
      modifies this`w, this`record, this`contained, this`schedule, this`past
      ensures Valid()
      ensures o.Done? ==> Completed(w, t, record) && SameClaim(old(record), record)
      ensures o.Raised? ==> FailedSafely(t) && SameClaim(old(record), record)
      ensures old(schedule) == [] && Undisturbed(old(w), t, old(record)) ==> o.Done? && Up(w.running)
    {
      hide Inv, Step, Lawful, Lawfully, Grip, Rely, Valid, Permits, Perform, Completed, Undisturbed, Shuttered;
      o := Steps(t);
      if o.Raised? {
        var end := Fail(t);
        if end.Dead? { o := Dead; }
      }
    }

    /** The failure is recorded, and where it says that it was contained, the runtime is shut again. */
    predicate FailedSafely(t: Target)
      reads this`w, this`record, this`contained
    {
      record.status == Failed && (contained ==> Shuttered(w, record) && w.logins == {})
    }

    // ---------- commands ----------

    /** Effects that anyone may have at any time: a look, a plan file, the database started. */
    method Prepare(e: Effect) returns (o: Outcome)
      requires Valid() && (e == Effect.Look || e.WritePlan? || e == Start(Postgres))
      modifies this`w, this`schedule, this`past
      ensures Valid()
      ensures o.Done? ==> Rely(Perform(old(w), e), w) && w.journals == old(w).journals
      ensures old(schedule) == [] ==> o.Done? && schedule == [] && w == Perform(old(w), e)
    {
      hide Struck, Passed, Inv, Step, Lawful, Lawfully;
      LastIsInv();
      if !tainted {
        if e.Start? { StartQuietService(w, Perform(w, e), Postgres); } else { PlainIsLawful(w, e); }
      }
      o := Do(e);
    }

    /** Shut again from wherever the upgrade stands, then the steps. */
    method Rerun(t: Target) returns (o: Outcome)
      requires Valid() && Holding(t) && w.journals[t] == record && record.status == Running
      modifies this`w, this`record, this`contained, this`schedule, this`past
      ensures Valid()
      ensures o.Done? ==> Completed(w, t, record) && SameClaim(old(record), record)
      ensures old(schedule) == [] && OwnOrNone(old(w), old(record)) && Undisturbed(old(w), t, old(record)) ==>
        o.Done? && Up(w.running)
    {
      hide Inv, Step, Lawful, Lawfully, Grip, Rely, Valid, Perform, Completed, CanMigrate, Preserved;
      o := Refence(t);
      if !o.Done? { return; }
      o := Execute(t);
    }

    /** resume(): the same claim, fenced again, through the same steps. */
    method Resume(t: Target, plan: Plan) returns (o: Outcome)
      requires Valid()
      modifies this`w, this`record, this`contained, this`schedule, this`past, this`aside, this`tainted
      ensures Valid() && tainted == (old(tainted) || ResumesRival(old(w), t, plan))
      ensures o.Done? ==> Completed(w, t, record) && record.plan == plan
      ensures old(schedule) == [] && Resumable(old(w), t, plan) ==> o.Done? && Up(w.running)
    {
      hide Inv, Step, Lawful, Lawfully, Grip, Rely, Valid, Perform, Completed, Undisturbed, OwnOrNone, Startable, Holding, Rival;
      ghost var smooth := schedule == [] && Resumable(w, t, plan);
      if !Open(w.journals, t) { return Raised(false); }
      record := w.journals[t];
      if record.plan != plan || t !in w.plans || w.plans[t] != plan { return Raised(false); }
      Taint(Rival(w, t));
      o := TakeUp(t);
      if !o.Done? { return; }
      if smooth { ResumableIsUndisturbed(old(w), w, t, plan, record); }
      o := Rerun(t);
    }

    /** From here on nothing is promised about the run, if the condition holds. */
    ghost method Taint(condition: bool)
      requires Valid()
      modifies this`tainted
      ensures Valid() && tainted == (old(tainted) || condition)
    {
      tainted := tainted || condition;
    }

    /** From here on the run need not be strict, if the condition holds. */
    ghost method Free(condition: bool)
      requires Valid()
      modifies this`freed
      ensures Valid() && freed == (old(freed) || condition)
    {
      freed := freed || condition;
    }

    /** No orphan, a database, and an unbroken fence or a reopened claim. */
    method Survey(t: Target) returns (o: Outcome)
      requires Valid() && Open(w.journals, t) && (tainted || !Rival(w, t))
      modifies this`w, this`schedule, this`past
      ensures Valid()
      ensures o.Done? ==> SameFences(old(w), w) && w.pairs == old(w).pairs && w.actor.None? && Startable(w, t)
      ensures o.Done? ==> tainted || Grip(w, t, w.journals[t].(status := Running))
      ensures old(schedule) == [] && old(w).actor.None? && Startable(old(w), t) ==>
        (o.Done? && schedule == [] && w == old(w).(running := old(w).running + {Postgres}))
    {
      hide Inv, Step, Lawful, Lawfully, Grip, Valid, Rely, Perform;
      :- EnsurePostgres();
      if !Startable(w, t) { return Raised(false); }
      LastIsInv();
      if !tainted { ResumeIsGripped(w, t); }
      o := Done;
    }

    /** No orphan, and a running database. */
    method EnsurePostgres() returns (o: Outcome)
      requires Valid()
      modifies this`w, this`schedule, this`past
      ensures Valid()
      ensures o.Done? ==> SameFences(old(w), w) && w.pairs == old(w).pairs && w.actor.None?
      ensures old(schedule) == [] && old(w).actor.None? ==>
        (o.Done? && schedule == [] && w == old(w).(running := old(w).running + {Postgres}))
    {
      hide Inv, Step, Lawful, Lawfully, Valid, Rely, SameFences;
      :- Prepare(Effect.Look);
      LookKeepsFences(old(w), w, Effect.Look);
      if w.actor.Some? { return Raised(false); }
      if Postgres in w.running { return Done; }
      ghost var a := w;
      o := Prepare(Start(Postgres));
      if o.Done? {
        LookKeepsFences(a, w, Start(Postgres));
        FencesAreTransitive(old(w), a, w);
      }
    }

    /** The claim is taken up from disk and marked running again, with no orphan left and its recovery point still good. */
    method TakeUp(t: Target) returns (o: Outcome)
      requires Valid() && Open(w.journals, t) && (tainted || !Rival(w, t))
      modifies this`w, this`record, this`schedule, this`past, this`aside
      ensures Valid() && aside == old(w)
      ensures o.Done? ==> Startable(old(w), t) && w.actor.None?
      ensures o.Done? ==> Holding(t) && w.journals[t] == record && record == old(w).journals[t].(status := Running)
      ensures old(schedule) == [] && old(w).actor.None? && Startable(old(w), t) ==>
        (o.Done? && schedule == [] && Postgres in w.running
         && w == old(w).(journals := w.journals, next := w.next, running := w.running))
    {
      hide Inv, Step, Lawful, Lawfully, Grip, Valid, Rely, Perform;
      aside := w;
      :- Survey(t);
      record := w.journals[t].(status := Running);
      o := Write(t);
    }

    /** write(record), wherever the upgrade stands. */
    method Write(t: Target) returns (o: Outcome)
      requires Valid() && Holding(t)
      modifies this`w, this`schedule, this`past
      ensures Valid() && Holding(t)
      ensures o.Done? ==> w.journals[t] == record && (old(w).actor.None? ==> w.actor.None?)
      ensures old(schedule) == [] ==> o.Done? && schedule == [] && w == old(w).(journals := w.journals, next := w.next)
    {
      hide Inv, Step, Lawful, Lawfully, Grip, Valid;
      o := Act(t, WriteJournal(t, record));
    }

    // ---------- apply ----------

    /** verify_fence and the claim it entitles to. */
    method First(t: Target, plan: Plan, backup: BackupId) returns (o: Outcome)
      requires Valid() && Vacant(w.journals, t) && !AnyUnfinished(w.journals)
      modifies this`w, this`record, this`schedule, this`past, this`aside
      ensures Valid()
      ensures o.Done? ==> Holding(t) && w.journals[t] == record && Dormant(w) && w.logins == {}
      ensures o.Done? ==> record.plan == plan && record.status == Running && record.backup == backup
      ensures o.Done? ==> w.journals == old(w).journals[t := record] && aside == w
      ensures old(schedule) == [] && VerifiedFence(old(w), backup) ==>
        (o.Done? && schedule == [] && record == FirstRecord(old(w), plan, backup)
         && w == old(w).(journals := w.journals, next := w.next))
    {
      hide Inv, Step, Lawful, Lawfully, Grip, Valid;
      :- Prepare(Effect.Look);
      if !VerifiedFence(w, backup) { return Raised(false); }
      record := FirstRecord(w, plan, backup);
      o := Enlist(t, plan, backup);
    }

    method Enlist(t: Target, plan: Plan, backup: BackupId) returns (o: Outcome)
      requires Valid() && Vacant(w.journals, t) && !AnyUnfinished(w.journals) && VerifiedFence(w, backup)
      requires record == FirstRecord(w, plan, backup)
      modifies this`w, this`schedule, this`past, this`aside
      ensures Valid()
      ensures o.Done? ==> Holding(t) && w.journals[t] == record && Dormant(w) && w.logins == {}
      ensures o.Done? ==> w.journals == old(w).journals[t := record] && aside == w
      ensures old(schedule) == [] ==> o.Done? && schedule == [] && w == old(w).(journals := w.journals, next := w.next)
    {
      hide Struck, Passed, Inv, Step, Lawful, Lawfully, Grip, Valid, Rely;
      LastIsInv();
      ghost var v := Perform(w, WriteJournal(t, record));
      VerifiedIsDormant(w, backup);
      if !tainted { FirstClaimIsLawful(w, t, plan, backup); }
      o := Do(WriteJournal(t, record));
      if o.Done? {
        GripIsStable(v, w, t, record);
        DormantIsStill(v, w);
      }
      aside := w;
    }

    /** The reviewed plan beside the journal, this upgrade's line in the recovery journal, its identity fence. */
    method Settle(t: Target) returns (o: Outcome)
      requires Valid() && Holding(t) && Dormant(w) && w.logins == {} && w.journals[t] == record
      modifies this`w, this`schedule, this`past
      ensures Valid()
      ensures o.Done? ==> Holding(t) && Shuttered(w, record) && w.logins == {} && w.journals[t] == record
      ensures o.Done? ==> t in w.plans && w.plans[t] == record.plan
      ensures old(schedule) == [] && OwnOrNone(old(w), record) ==>
        (o.Done? && schedule == [] && w == old(w).(plans := w.plans, ready := w.ready, pending := w.pending, local := w.local,
           maintenance := w.maintenance, next := w.next, running := w.running) && w.running == old(w).running)
    {
      hide Inv, Step, Lawful, Lawfully, Grip, Rely, Valid;
      :- Still(t, WritePlan(t, record.plan));
      :- Claim(t);
      o := Hold(t);
    }

    /** apply(): a first claim under the backup's own fence, then the steps. */
    method Apply(t: Target, plan: Plan, backup: BackupId) returns (o: Outcome)
      requires Valid()
      modifies this`w, this`record, this`contained, this`schedule, this`past, this`aside
      ensures Valid()
      ensures o.Done? ==> Completed(w, t, record) && record.plan == plan && record.backup == backup
      ensures old(schedule) == [] && Appliable(old(w), t, plan, backup) ==> o.Done? && Up(w.running)
    {
      hide Inv, Step, Lawful, Lawfully, Grip, Rely, Valid, Perform, Completed, CanMigrate, NoticeAligns, SameSchemas, Holding, Undisturbed;
      ghost var smooth := schedule == [] && Appliable(w, t, plan, backup);
      if !Vacant(w.journals, t) || AnyUnfinished(w.journals) { return Raised(false); }
      :- First(t, plan, backup);
      :- Settle(t);
      if smooth { AppliableIsUndisturbed(old(w), w, t, plan, backup, record); }
      o := Execute(t);
    }

    // ---------- forward fixes ----------

    /** carry_notice_snapshot: the original texts stay the baseline through every fix. */
    method Carry(t: Target, p: Target, plan: Plan) returns (o: Outcome)
      requires Valid() && p in w.journals && Vacant(w.journals, t)
      modifies this`w, this`schedule, this`past
      ensures Valid()
      ensures o.Done? ==> w.journals == old(w).journals && (forall j :: PairIsQuiet(old(w), j) ==> PairIsQuiet(w, j))
      ensures o.Done? ==> CanCarry(old(w), t, p, plan) && Carried(w, t, p)
      ensures o.Done? ==> if p in old(w).snapshots then plan.notice else old(w).digests.texts == old(w).journals[p].before.texts
      ensures o.Done? ==> w.snapshots == CarriedSnapshots(old(w), t, p)
      ensures old(schedule) == [] && CanCarry(old(w), t, p, plan) ==>
        (o.Done? && schedule == [] && w == old(w).(snapshots := w.snapshots))
    {
      hide Struck, Passed, Inv, Step, Lawful, Lawfully, Grip, Valid;
      if !CanCarry(w, t, p, plan) { return Raised(false); }
      if p !in w.snapshots || t in w.snapshots { return Done; }
      LastIsInv();
      if !tainted { WriteSnapshotOnce(w, Perform(w, WriteSnapshot(t, w.snapshots[p])), t, w.snapshots[p]); }
      ghost var v := Perform(w, WriteSnapshot(t, w.snapshots[p]));
      hide Rely, Marks, Vacant;
      o := Do(WriteSnapshot(t, w.snapshots[p]));
      if o.Done? { RelyKeepsQuiet(v, w); }
    }

    /** The claim of a forward fix: its predecessor's pair, run and reopening. */
    method ClaimFix(t: Target, p: Target, plan: Plan) returns (o: Outcome)
      requires Valid() && Fixable(w.journals, t, p) && Carried(w, t, p) && (tainted || PairIsQuiet(w, w.journals[p]))
      modifies this`w, this`record, this`schedule, this`past
      ensures Valid()
      ensures o.Done? ==> record == FixRecord(old(w).journals[p], p, plan)
      ensures o.Done? ==> w.journals == old(w).journals[t := record]
      ensures o.Done? ==> tainted || PairIsQuiet(w, record)
      ensures o.Done? ==> w.snapshots == old(w).snapshots
      ensures old(schedule) == [] ==> o.Done? && schedule == [] && w == old(w).(journals := w.journals, next := w.next)
    {
      hide Inv, Step, Lawful, Lawfully, Grip, Valid, Struck, Rely, Contested, Twins;
      LastIsInv();
      record := FixRecord(w.journals[p], p, plan);
      if !tainted { FixClaimIsLawful(w, t, p, plan); }
      ghost var v := Perform(w, WriteJournal(t, record));
      o := Do(WriteJournal(t, record));
      if o.Done? { RelyKeepsQuiet(v, w); }
    }

    /** The predecessor leaves the unfinished set once its fix is claimed. */
    method Supersede(t: Target, p: Target) returns (o: Outcome)
      requires Valid() && t != p && Open(w.journals, p) && t in w.journals && w.journals[t] == record
      requires record.predecessor == Some(p) && record.status == Running
      requires tainted || PairIsQuiet(w, record)
      requires tainted || forall s :: Open(w.journals, s) ==> s == t || s == p
      modifies this`w, this`schedule, this`past, this`aside
      ensures Valid()
      ensures o.Done? ==> Holding(t) && w.journals[t] == record && w.snapshots == old(w).snapshots && w.plans == old(w).plans
      ensures o.Done? ==> w.journals == old(w).journals[p := Superseding(old(w).journals[p])]
      ensures old(schedule) == [] ==> o.Done? && schedule == [] && w == old(w).(journals := w.journals, next := w.next)
    {
      hide Struck, Passed, Inv, Step, Lawful, Lawfully, Grip, Valid;
      LastIsInv();
      ghost var v := Perform(w, WriteJournal(p, Superseding(w.journals[p])));
      if !tainted { SupersedeIsLawful(w, t, p); }
      o := Do(WriteJournal(p, Superseding(w.journals[p])));
      if o.Done? { GripIsStable(v, w, t, record); }
      aside := w;
    }

    /**
     * Everything a forward fix inherits before it fences again: the kept texts are carried before
     * the claim, the plan is filed after it, and the predecessor is superseded last.
     */
    method Inherit(t: Target, p: Target, plan: Plan) returns (o: Outcome)
      requires Valid() && Fixable(w.journals, t, p)
      modifies this`w, this`record, this`schedule, this`past, this`aside
      ensures Valid()
      ensures o.Done? ==> Holding(t) && w.journals[t] == record && record == FixRecord(old(w).journals[p], p, plan)
      ensures o.Done? ==> w.snapshots == CarriedSnapshots(old(w), t, p) && t in w.plans && w.plans[t] == plan
      ensures o.Done? ==> w.journals == old(w).journals[t := record][p := Superseding(old(w).journals[p])]
      ensures old(schedule) == [] && Startable(old(w), p) && CanCarry(old(w), t, p, plan) ==>
        (o.Done? && schedule == []
         && w == old(w).(journals := w.journals, next := w.next, plans := w.plans, snapshots := w.snapshots))
    {
      hide Inv, Step, Lawful, Lawfully, Grip, Valid, Rely, Perform, Contested, CanCarry, Startable;
      :- Weigh(p);
      :- Carry(t, p, plan);
      :- ClaimFix(t, p, plan);
      FixIsPaired(old(w).journals, w.journals, t, p);
      :- File(t, plan);
      o := Supersede(t, p);
    }

    /** The predecessor's recovery point must still be good. */
    method Weigh(p: Target) returns (o: Outcome)
      requires Valid() && Open(w.journals, p)
      modifies this`w, this`schedule, this`past
      ensures Valid()
      ensures o.Done? ==> SameFences(old(w), w) && w.snapshots == old(w).snapshots && Startable(w, p)
      ensures o.Done? ==> tainted || PairIsQuiet(w, w.journals[p])
      ensures old(schedule) == [] && Startable(old(w), p) ==> o.Done? && schedule == [] && w == old(w)
    {
      hide Inv, Step, Lawful, Lawfully, Grip, Valid;
      :- Prepare(Effect.Look);
      if !Startable(w, p) { return Raised(false); }
      LastIsInv();
      if !tainted { StartableIsQuiet(w, p); }
      o := Done;
    }

    /** The reviewed plan beside the journal. */
    method File(t: Target, plan: Plan) returns (o: Outcome)
      requires Valid()
      modifies this`w, this`schedule, this`past
      ensures Valid()
      ensures o.Done? ==> w.journals == old(w).journals && w.snapshots == old(w).snapshots && w.plans == old(w).plans[t := plan]
      ensures o.Done? && PairIsQuiet(old(w), record) ==> PairIsQuiet(w, record)
      ensures old(schedule) == [] ==> o.Done? && schedule == [] && w == old(w).(plans := w.plans)
    {
      hide Inv, Step, Lawful, Lawfully, Grip, Valid;
      o := Prepare(WritePlan(t, plan));
    }

    /** apply() of a forward fix. */
    method ForwardFix(t: Target, p: Target, plan: Plan) returns (o: Outcome)
      requires Valid()
      modifies this`w, this`record, this`contained, this`schedule, this`past, this`aside
      ensures Valid()
      ensures o.Done? ==> Completed(w, t, record) && record.plan == plan && p in old(w).journals
      ensures o.Done? ==> SameClaim(record, FixRecord(old(w).journals[p], p, plan))
      ensures old(schedule) == [] && FixReady(old(w), t, p, plan) ==> o.Done? && Up(w.running)
    {
      hide Inv, Step, Lawful, Lawfully, Grip, Rely, Valid, Perform, Completed, Holding, Undisturbed, OwnOrNone, CanCarry, Startable;
      ghost var smooth := schedule == [] && FixReady(w, t, p, plan);
      if !Fixable(w.journals, t, p) { return Raised(false); }
      :- Inherit(t, p, plan);
      if smooth { FixReadyIsUndisturbed(old(w), w, t, p, plan, record); }
      o := Rerun(t);
    }

    // ---------- abandon ----------

    /** The state abandon works on: a claim without irreversible steps. */
    ghost predicate Quitting(t: Target)
      reads this`w, this`record
    {
      Abandonable(w, t) && w.journals[t] == record
    }

    /** closed() where everything is shut already. */
    method CloseAgain() returns (o: Outcome)
      requires Valid() && Dormant(w)
      modifies this`w, this`schedule, this`past
      ensures Valid()
      ensures o.Done? ==> Same(old(w), w) && Dormant(w)
      ensures old(schedule) == [] ==> o.Done? && schedule == [] && w == old(w)
    {
      hide Inv, Step, Lawful, Lawfully, Valid, Calmer, Rely;
      :- Calm(SetReady(false));
      DormantIsStill(old(w).(ready := false), w);
      ghost var a := w;
      o := Calm(SetPending(true));
      if o.Done? { DormantIsStill(a.(pending := true), w); }
    }

    /** The backup's own line returns to the recovery journal. */
    method NameBack(t: Target) returns (o: Outcome)
      requires Valid() && Dormant(w) && Quitting(t) && (tainted || record.backup !in w.written)
      modifies this`w, this`schedule, this`past
      ensures Valid()
      ensures o.Done? ==> Dormant(w) && Quitting(t)
      ensures o.Done? ==> Same(old(w).(local := Some(Notice(BackupFence, Some(record.backup)))), w)
      ensures old(schedule) == [] ==> o.Done? && schedule == []
    {
      hide Struck, Passed, Inv, Step, Lawful, Lawfully, Valid, Rely;
      LastIsInv();
      if !tainted { NameBackIsLawful(w, t); }
      o := Do(SetLocal(Some(Notice(BackupFence, Some(record.backup)))));
      if o.Done? { DormantIsStill(old(w).(local := Some(Notice(BackupFence, Some(record.backup)))), w); }
    }

    /** maintenance-exit of this run. */
    method LetGo(t: Target) returns (o: Outcome)
      requires Valid() && Dormant(w) && Quitting(t)
      modifies this`w, this`schedule, this`past
      ensures Valid()
      ensures o.Done? ==> Dormant(w) && Quitting(t) && Same(old(w).(maintenance := None), w)
      ensures old(schedule) == [] && OwnOrNone(old(w), record) ==> o.Done? && schedule == []
    {
      hide Struck, Passed, Inv, Step, Lawful, Lawfully, Valid, Rely;
      if !OwnOrNone(w, record) { return Raised(false); }
      if w.maintenance.None? { return Done; }
      LastIsInv();
      if !tainted { LetGoIsLawful(w, t); }
      o := Do(SetMaintenance(None));
      if o.Done? { DormantIsStill(old(w).(maintenance := None), w); }
    }

    /** The journal leaves the unfinished set. */
    method Retire(t: Target) returns (o: Outcome)
      requires Valid() && Quitting(t)
      modifies this`w, this`record, this`schedule, this`past
      ensures Valid() && record == Abandoning(old(record))
      ensures o.Done? ==> w.journals == old(w).journals[t := record]
      ensures o.Done? && Dormant(old(w)) ==> Same(old(w).(journals := w.journals, next := w.next), w)
      ensures old(schedule) == [] ==> o.Done? && schedule == []
    {
      hide Struck, Passed, Inv, Step, Lawful, Lawfully, Valid, Abandonable;
      LastIsInv();
      record := Abandoning(record);
      if !tainted { AbandonIsLawful(w, t); }
      o := Do(WriteJournal(t, record));
    }

    /** The canonical fence under an abandonable claim. */
    method FenceBack(t: Target) returns (o: Outcome)
      requires Valid() && Quitting(t) && FenceContinuous(w, record)
      modifies this`w, this`schedule, this`past
      ensures Valid()
      ensures o.Done? ==> Dormant(w) && Quitting(t) && w.logins == {} && (tainted || record.backup !in w.written)
      ensures o.Done? ==> w.journals == old(w).journals && w.maintenance == old(w).maintenance
      ensures old(schedule) == [] ==> o.Done? && schedule == []
    {
      hide Inv, Step, Lawful, Lawfully, Valid;
      LastIsInv();
      if !tainted { ContinuousIsQuiet(w, t) by { QuittingIsUnreopened(w, t); } }
      o := Fence();
    }

    /** The backup's fence, name and freedom, and only then the journal. */
    method GoBack(t: Target) returns (o: Outcome)
      requires Valid() && Quitting(t) && FenceContinuous(w, record)
      modifies this`w, this`record, this`schedule, this`past
      ensures Valid() && (o.Done? ==> record == Abandoning(old(record)))
      ensures o.Done? ==> w.journals == old(w).journals[t := record] && (tainted || Restored(w, record.backup))
      ensures old(schedule) == [] && OwnOrNone(old(w), old(record)) ==> o.Done? && schedule == []
    {
      hide Inv, Step, Lawful, Lawfully, Valid, Rely, Perform;
      :- FenceBack(t);
      :- CloseAgain();
      :- NameBack(t);
      :- LetGo(t);
      :- Retire(t);
      LastIsInv();
      if !tainted { RestoredIsExact(w, record.backup); }
      o := Done;
    }

    /**
     * abandon(): back to the backup's own fence exactly where it still is one; otherwise only the
     * claim is given up. A forward fix left beside it by a kill keeps its journal.
     */
    method Abandon(t: Target) returns (o: Outcome, restored: bool)
      requires Valid()
      modifies this`w, this`record, this`schedule, this`past
      ensures Valid()
      ensures o.Done? ==> Open(old(w).journals, t) && w.journals == old(w).journals[t := record]
      ensures o.Done? ==> record == Abandoning(old(w).journals[t]) && !record.identityStarted
      ensures o.Done? ==> (restored <==> FenceContinuous(old(w), old(w).journals[t]))
      ensures o.Done? && restored && !tainted ==> Restored(w, record.backup)
      ensures old(schedule) == [] && Quittable(old(w), t) ==> o.Done? && schedule == []
    {
      hide Inv, Step, Lawful, Lawfully, Valid, Rely, Perform, SameSchemas;
      restored := false;
      o := Raised(false);
      if !Open(w.journals, t) { return; }
      record := w.journals[t];
      o := Glimpse();
      if !o.Done? { return; }
      if !Abandonable(w, t) { return Raised(false), false; }
      if !FenceContinuous(w, record) {
        o := Retire(t);
        return;
      }
      restored := true;
      o := GoBack(t);
    }

    /** A look that moves none of the fences. */
    method Glimpse() returns (o: Outcome)
      requires Valid()
      modifies this`w, this`schedule, this`past
      ensures Valid() && (o.Done? ==> SameFences(old(w), w) && w.pairs == old(w).pairs)
      ensures old(schedule) == [] ==> o.Done? && schedule == [] && w == old(w)
    {
      hide Inv, Step, Lawful, Lawfully, Valid;
      o := Prepare(Effect.Look);
    }
  }
}
