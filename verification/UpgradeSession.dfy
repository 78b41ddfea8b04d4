/**
 * Operators at the console: any sequence of commands of the upgrade tool, the recovery actor and
 * the identity-maintenance adapter, each of which may fail or be killed after any effect, with the
 * rest of the host going on between and during them.
 */
module UpgradeSession {
  import opened Common
  import opened Flyway
  import opened UpgradeState
  import opened UpgradeEffects
  import opened UpgradeRules
  import opened UpgradeTool

  /** A runtime after its first installation: in service, no pair taken, no upgrade begun. */
  predicate Installed(w: World) {
    && w.journals == map[] && w.active.None? && w.keycloak.None? && w.actor.None? && !w.connected
    && w.local.None? && w.pairs == map[] && w.written == {}
    && w.history != [] && Increasing(RowVersions(w.history))
  }

  lemma InstalledKeepsInvariant(w: World)
    requires Installed(w)
    ensures Inv(w) && Wired(w)
  {
  }

  // ---------- the recovery actor ----------

  /** The newest pair is exactly the live state, under its own fence. */
  predicate Captured(w: World, b: BackupId) {
    && Dormant(w) && w.logins == {} && w.maintenance.None?
    && w.local == Some(Notice(BackupFence, Some(b)))
    && b in w.pairs && w.pairs[b] == Pair(w.history, w.schema, w.digests)
  }

  /** A capture, with a thaw's line left over that an unfinished upgrade still counts on. */
  ghost predicate CapturesStale(w: World) {
    w.maintenance.None? && Stale(w)
  }

  /** recovery backup: refused under a maintenance owner; the fence, then the capture. */
  method Backup(u: Upgrade) returns (o: Outcome, b: BackupId)
    requires u.Valid()
    modifies u`w, u`schedule, u`past, u`tainted
    ensures u.Valid() && u.tainted == (old(u.tainted) || CapturesStale(old(u.w)))
    ensures o.Done? ==> Captured(u.w, b) && u.w.journals == old(u.w).journals
    ensures o.Done? ==> u.tainted || b !in old(u.w).pairs
    ensures old(u.schedule) == [] && old(u.w).maintenance.None? ==>
      (o.Done? && u.schedule == []
       && u.w == old(u.w).(ready := u.w.ready, pending := u.w.pending, local := u.w.local, logins := {}, connected := false,
                           running := old(u.w).running - FENCE_STOPPED, pairs := u.w.pairs, next := u.w.next))
  {
    hide Inv, Step, Lawful, Lawfully, Upgrade.Valid;
    b := 0;
    u.Taint(CapturesStale(u.w));
    o := u.Glimpse();
    if !o.Done? { return; }
    if u.w.maintenance.Some? { return Raised(false), 0; }
    o := u.Fence();
    if !o.Done? { return; }
    o, b := Dump(u);
  }

  /** The dumps of both databases, published, and then the fence's own name in the recovery journal. */
  method Dump(u: Upgrade) returns (o: Outcome, b: BackupId)
    requires u.Valid() && Dormant(u.w) && u.w.logins == {} && u.w.maintenance.None?
    modifies u`w, u`schedule, u`past
    ensures u.Valid()
    ensures o.Done? ==> Captured(u.w, b) && u.w.journals == old(u.w).journals
    ensures o.Done? ==> u.tainted || b !in old(u.w).pairs
    ensures old(u.schedule) == [] ==>
      o.Done? && u.schedule == [] && u.w == old(u.w).(local := u.w.local, pairs := u.w.pairs, next := u.w.next)
  {
    hide Inv, Step, Lawful, Lawfully, Upgrade.Valid, Rely, Exact;
    o, b := Publish(u);
    if !o.Done? { return; }
    ghost var a := u.w;
    o := u.CloseAgain();
    if !o.Done? { return; }
    SameIsExact(a, u.w, b);
    o := Sign(u, b);
  }

  /** Both dumps exist and the pair is published. */
  method Publish(u: Upgrade) returns (o: Outcome, b: BackupId)
    requires u.Valid() && Dormant(u.w)
    modifies u`w, u`schedule, u`past
    ensures u.Valid()
    ensures o.Done? ==> Dormant(u.w) && b in u.w.pairs && u.w.pairs[b] == Pair(u.w.history, u.w.schema, u.w.digests)
    ensures o.Done? ==> u.w.journals == old(u.w).journals && u.w.logins == old(u.w).logins && u.w.maintenance == old(u.w).maintenance
    ensures o.Done? ==> u.tainted || (b !in old(u.w).pairs && Exact(u.w, b))
    ensures old(u.schedule) == [] ==> o.Done? && u.schedule == [] && u.w == old(u.w).(pairs := u.w.pairs, next := u.w.next)
  {
    hide Inv, Step, Lawful, Lawfully, Upgrade.Valid, Rely, Exact;
    b := u.w.next;
    ghost var v := Perform(u.w, Capture);
    u.LastIsInv();
    if !u.tainted { CaptureIsLawful(u.w); }
    o := u.Do(Capture);
    if o.Done? {
      DormantIsStill(v, u.w);
      SameIsExact(v, u.w, b);
    }
  }

  /** The closing line of the capture. */
  method Sign(u: Upgrade, b: BackupId) returns (o: Outcome)
    requires u.Valid() && Dormant(u.w) && u.w.maintenance.None? && (u.tainted || Exact(u.w, b))
    modifies u`w, u`schedule, u`past
    ensures u.Valid()
    ensures o.Done? ==> Dormant(u.w) && Same(old(u.w).(local := Some(Notice(BackupFence, Some(b)))), u.w)
    ensures old(u.schedule) == [] ==> o.Done? && u.schedule == [] && u.w == old(u.w).(local := u.w.local)
  {
    hide Inv, Step, Lawful, Lawfully, Upgrade.Valid, Rely, Exact;
    u.LastIsInv();
    ghost var v := Perform(u.w, SetLocal(Some(Notice(BackupFence, Some(b)))));
    if !u.tainted { NameCapture(u.w, v, b); }
    o := u.Do(SetLocal(Some(Notice(BackupFence, Some(b)))));
    if o.Done? { DormantIsStill(v, u.w); }
  }

  lemma CaptureIsLawful(w: World)
    requires Inv(w) && !Exposed(w)
    ensures var v := Perform(w, Capture); Lawfully(w, v) && w.next !in w.pairs && Exact(v, w.next)
  {
    hide Inv, Lawfully;
    CapturePair(w, Perform(w, Capture));
  }

  lemma SameIsExact(a: World, b: World, pair: BackupId)
    requires Same(a, b)
    ensures Exact(a, pair) ==> Exact(b, pair)
  {
  }

  /** What a thaw asks for. */
  predicate Thawable(w: World) {
    w.maintenance.None? && BackupLine(w)
  }

  /** No consumer of the databases is locked out. */
  predicate EveryoneMayLogIn(w: World) {
    AppRole in w.logins && MigratorRole in w.logins && KeycloakRole in w.logins && ReaderRole in w.logins
  }

  predicate Drained(w: World) {
    w.logins == {} && !w.connected
  }

  /** recovery thaw: only of a backup's own fence; the roles, then the gate, then the line. */
  method Thaw(u: Upgrade) returns (o: Outcome)
    requires u.Valid()
    modifies u`w, u`schedule, u`past
    ensures u.Valid()
    ensures o.Done? ==> GateOpen(u.w) && u.w.local.None? && u.w.maintenance.None? && u.w.journals == old(u.w).journals
    ensures o.Done? ==> Thawable(old(u.w)) && old(u.w).logins == {} && EveryoneMayLogIn(u.w)
    ensures old(u.schedule) == [] && Thawable(old(u.w)) && Drained(old(u.w)) ==> o.Done?
  {
    hide Inv, Step, Lawful, Lawfully, Upgrade.Valid;
    :- u.Prepare(Effect.Look);
    if !Thawable(u.w) || !Drained(u.w) { return Raised(false); }
    :- Readmit(u);
    :- OpenAgain(u);
    o := DropLine(u);
  }

  /** role_login(True) of a thaw. */
  method Readmit(u: Upgrade) returns (o: Outcome)
    requires u.Valid() && Thawable(u.w)
    modifies u`w, u`schedule, u`past
    ensures u.Valid()
    ensures o.Done? ==> Thawable(u.w) && EveryoneMayLogIn(u.w) && SameFences(old(u.w), u.w)
    ensures old(u.schedule) == [] ==> o.Done? && u.schedule == []
  {
    hide Inv, Step, Lawful, Lawfully, Held, Upgrade.Valid;
    var roles := [AppRole, MigratorRole, KeycloakRole, ReaderRole];
    for i := 0 to |roles|
      invariant u.Valid() && Thawable(u.w) && SameFences(old(u.w), u.w)
      invariant forall k :: 0 <= k < i ==> roles[k] in u.w.logins
      invariant old(u.schedule) == [] ==> u.schedule == []
    {
      u.LastIsInv();
      if !u.tainted { ReadmitIsLawful(u.w, roles[i]); }
      :- u.Do(Allow(roles[i]));
    }
    assert AppRole == roles[0] && MigratorRole == roles[1] && KeycloakRole == roles[2] && ReaderRole == roles[3];
    o := Done;
  }

  lemma ReadmitIsLawful(w: World, role: Role)
    requires Inv(w) && w.maintenance.None?
    ensures Lawfully(w, Perform(w, Allow(role)))
  {
    hide Inv, Lawfully;
    AllowRole(w, Perform(w, Allow(role)), role);
  }

  /** gate('open') of a thaw: READY, then PENDING.json. */
  method OpenAgain(u: Upgrade) returns (o: Outcome)
    requires u.Valid() && Thawable(u.w) && u.w.logins != {}
    modifies u`w, u`schedule, u`past
    ensures u.Valid()
    ensures o.Done? ==> GateOpen(u.w) && SameButGate(old(u.w), u.w)
    ensures old(u.schedule) == [] ==> o.Done? && u.schedule == []
  {
    hide Inv, Step, Lawful, Lawfully, Upgrade.Valid;
    :- Unlatch(u, SetReady(true));
    o := Unlatch(u, SetPending(false));
  }

  /** One move of the gate of a thaw. */
  method Unlatch(u: Upgrade, e: Effect) returns (o: Outcome)
    requires u.Valid() && Thawable(u.w) && u.w.logins != {} && (e == SetReady(true) || e == SetPending(false))
    modifies u`w, u`schedule, u`past
    ensures u.Valid()
    ensures o.Done? ==> SameButGate(old(u.w), u.w)
    ensures o.Done? ==> u.w.ready == (e.SetReady? || old(u.w).ready) && u.w.pending == (e.SetReady? && old(u.w).pending)
    ensures old(u.schedule) == [] ==> o.Done? && u.schedule == []
  {
    hide Inv, Step, Lawful, Lawfully, Upgrade.Valid, Perform, Rely, Thawable, SameButGate;
    u.LastIsInv();
    if !u.tainted { UnlatchIsLawful(u.w, e); }
    UnlatchPerforms(u.w, e);
    MovedGateIsSame(u.w, Perform(u.w, e));
    o := u.Do(e);
    if o.Done? { RelyKeepsDoors(old(u.w), Perform(old(u.w), e), u.w); }
  }

  lemma MovedGateIsSame(a: World, b: World)
    requires b == a.(ready := b.ready, pending := b.pending)
    ensures SameButGate(a, b)
  {
  }

  lemma RelyKeepsDoors(a: World, b: World, c: World)
    requires SameButGate(a, b) && Rely(b, c)
    ensures SameButGate(a, c) && c.ready == b.ready && c.pending == b.pending
  {
  }

  lemma UnlatchPerforms(w: World, e: Effect)
    requires e == SetReady(true) || e == SetPending(false)
    ensures Perform(w, e) == w.(ready := e.SetReady? || w.ready, pending := e.SetReady? && w.pending)
  {
  }

  lemma UnlatchIsLawful(w: World, e: Effect)
    requires Inv(w) && Thawable(w) && w.logins != {} && (e == SetReady(true) || e == SetPending(false))
    ensures Lawfully(w, Perform(w, e))
  {
    UnlatchPerforms(w, e);
    hide Inv, Lawfully, Perform;
    ThawGate(w, Perform(w, e));
  }

  /** Lines, owners, roles, journals and pairs are as before; what was written stays written. */
  predicate SameButGate(a: World, b: World) {
    && b.local == a.local && b.maintenance == a.maintenance && b.logins == a.logins
    && b.journals == a.journals && b.pairs == a.pairs && a.written <= b.written
  }

  /** The backup's line is removed last. */
  method DropLine(u: Upgrade) returns (o: Outcome)
    requires u.Valid() && Thawable(u.w) && GateOpen(u.w)
    modifies u`w, u`schedule, u`past
    ensures u.Valid()
    ensures o.Done? ==> GateOpen(u.w) && u.w.local.None? && u.w.maintenance.None? && u.w.journals == old(u.w).journals
    ensures o.Done? ==> u.w.logins == old(u.w).logins
    ensures old(u.schedule) == [] ==> o.Done? && u.schedule == []
  {
    hide Inv, Step, Lawful, Lawfully, Upgrade.Valid;
    u.LastIsInv();
    if !u.tainted { ThawLine(u.w, Perform(u.w, SetLocal(None))); }
    o := u.Do(SetLocal(None));
  }

  // ---------- the identity-maintenance adapter ----------

  /** enter of a run of its own: refused while the gate is closed or any other owner holds the fence. */
  method EnterForeign(u: Upgrade) returns (o: Outcome)
    requires u.Valid()
    modifies u`w, u`schedule, u`past
    ensures u.Valid()
    ensures o.Done? ==> old(u.w).maintenance.None? && u.w.maintenance.Some? && u.w.journals == old(u.w).journals
    ensures o.Done? ==> GateOpen(old(u.w))
    ensures old(u.schedule) == [] && GateOpen(old(u.w)) && old(u.w).maintenance.None? ==> o.Done? && u.schedule == []
  {
    hide Inv, Step, Lawful, Lawfully, Upgrade.Valid;
    :- u.Glimpse();
    if !GateOpen(u.w) || u.w.maintenance.Some? { return Raised(false); }
    u.LastIsInv();
    if !u.tainted { ForeignMaintenance(u.w, Perform(u.w, SetMaintenance(Some(u.w.next)))); }
    o := u.Do(SetMaintenance(Some(u.w.next)));
  }

  /** The identity fence of an upgrade that has touched identity is given up from outside. */
  ghost predicate FreesHalfDone(w: World, run: Run) {
    w.maintenance == Some(run) && exists t :: Half(w.journals, t)
  }

  /** exit of any run: nothing to release, another owner's fence, or the fence itself. */
  method ExitForeign(u: Upgrade, run: Run) returns (o: Outcome)
    requires u.Valid()
    modifies u`w, u`schedule, u`past, u`freed
    ensures u.Valid() && u.freed == (old(u.freed) || FreesHalfDone(old(u.w), run))
    ensures o.Done? ==> u.w.maintenance.None? && old(u.w).maintenance in {None, Some(run)} && u.w.journals == old(u.w).journals
    ensures old(u.schedule) == [] && old(u.w).maintenance in {None, Some(run)} ==>
      o.Done? && u.schedule == [] && u.w == old(u.w).(maintenance := None)
  {
    hide Inv, Step, Lawful, Lawfully, Upgrade.Valid;
    u.Free(FreesHalfDone(u.w, run));
    :- u.Glimpse();
    if u.w.maintenance.None? { return Done; }
    if u.w.maintenance != Some(run) { return Raised(false); }
    u.LastIsInv();
    if !u.tainted { ForeignExitIsLawful(u.w); }
    o := u.Do(SetMaintenance(None));
  }

  lemma ForeignExitIsLawful(w: World)
    requires Inv(w)
    ensures Lawfully(w, Perform(w, SetMaintenance(None)))
  {
    hide Inv, Lawfully;
    ExitMaintenance(w, Perform(w, SetMaintenance(None)));
  }

  // ---------- sessions ----------

  datatype Command =
    | ApplyTo(target: Target, plan: Plan, backup: BackupId)
    | FixForward(target: Target, predecessor: Target, plan: Plan)
    | ResumeOf(target: Target, plan: Plan)
    | AbandonOf(target: Target)
    | TakeBackup
    | ThawBackup
    | EnterMaintenanceRun
    | ExitMaintenanceRun(run: Run)
    | Wait(nature: seq<Effect>)

  /**
   * The orders that leave the guarantees: resuming one of two unfinished upgrades that count on the
   * same pair, and a capture over the line of an interrupted thaw.
   */
  ghost predicate Reckless(w: World, c: Command) {
    match c
    case ResumeOf(t, plan) => ResumesRival(w, t, plan)
    case TakeBackup => CapturesStale(w)
    case _ => false
  }

  /** The order that takes the identity fence from an upgrade that has touched identity. */
  ghost predicate Freeing(w: World, c: Command) {
    c.ExitMaintenanceRun? && FreesHalfDone(w, c.run)
  }

  /** What an order brings about when nothing goes wrong, from a state in which it can succeed. */
  ghost predicate Accomplished(v: World, c: Command, w: World) {
    match c
    case ApplyTo(t, plan, b) =>
      Appliable(v, t, plan, b) ==> Served(w, t, plan) && Up(w.running) && w.journals[t].backup == b
    case FixForward(t, p, plan) =>
      FixReady(v, t, p, plan) ==> Served(w, t, plan) && Up(w.running) && w.journals[t].predecessor == Some(p)
    case ResumeOf(t, plan) =>
      Resumable(v, t, plan) ==> Served(w, t, plan) && Up(w.running)
    case AbandonOf(t) =>
      Quittable(v, t) ==> t in w.journals && w.journals[t].status == Abandoned
    case TakeBackup =>
      v.maintenance.None? ==> exists b :: Captured(w, b)
    case ThawBackup =>
      Thawable(v) && Drained(v) ==> GateOpen(w) && w.local.None? && EveryoneMayLogIn(w)
    case EnterMaintenanceRun =>
      GateOpen(v) && v.maintenance.None? ==> w.maintenance.Some?
    case ExitMaintenanceRun(run) =>
      v.maintenance == Some(run) ==> w.maintenance.None?
    case Wait(nature) =>
      w == Passed(v, nature)
  }

  /** The product is open to its users on the target: what a completed upgrade leaves behind. */
  predicate Served(w: World, t: Target, plan: Plan) {
    && t in w.journals && w.journals[t].plan == plan && w.journals[t].status == Complete && w.journals[t].reopened
    && w.ready && !w.pending && w.local.None? && w.maintenance.None? && EveryoneMayLogIn(w)
    && w.active == Some(t) && w.keycloak == Some(t) && w.actor.None? && !w.connected
    && w.session == plan.session && Migrated(w.history, plan.inventory)
    && (plan.notice ==> w.digests.texts.notice == APPROVED)
    && forall i :: 0 <= i < |plan.changed| && plan.changed[i] != Keycloak ==>
         plan.changed[i] in w.created && w.created[plan.changed[i]] == t
  }

  lemma CompletedIsServed(w: World, t: Target, j: Journal)
    requires Completed(w, t, j)
    ensures Served(w, t, j.plan) && w.journals[t] == j
  {
    hide Migrated;
  }

  method Run(u: Upgrade, c: Command)
    requires u.Valid()
    modifies u`w, u`record, u`contained, u`schedule, u`past, u`aside, u`tainted, u`freed
    ensures u.Valid() && u.tainted == (old(u.tainted) || Reckless(old(u.w), c))
    ensures u.freed == (old(u.freed) || Freeing(old(u.w), c))
    ensures u.calm ==> Accomplished(old(u.w), c, u.w)
  {
    hide Inv, Step, Lawful, Lawfully, Upgrade.Valid, Completed, Appliable, FixReady, Resumable, Quittable, Captured, Passed;
    hide Stale, Rival, ResumesRival, CapturesStale, FreesHalfDone, Served;
    u.GoesOn();
    u.LastIsInv();
    match c {
      case ApplyTo(t, plan, b) =>
        var o := u.Apply(t, plan, b);
        if o.Done? { CompletedIsServed(u.w, t, u.record); }
      case FixForward(t, p, plan) =>
        var o := u.ForwardFix(t, p, plan);
        if o.Done? { CompletedIsServed(u.w, t, u.record); }
      case ResumeOf(t, plan) =>
        var o := u.Resume(t, plan);
        if o.Done? { CompletedIsServed(u.w, t, u.record); }
      case AbandonOf(t) => var _, _ := u.Abandon(t);
      case TakeBackup => var _, _ := Backup(u);
      case ThawBackup => var _ := Thaw(u);
      case EnterMaintenanceRun => var _ := EnterForeign(u);
      case ExitMaintenanceRun(run) => var _ := ExitForeign(u, run);
      case Wait(nature) => u.Elapse(nature);
    }
  }

  /** When each order was given: indices into the run, in order, from its first state on. */
  ghost predicate Moments(past: seq<World>, at: seq<nat>, commands: seq<Command>) {
    && |at| == |commands| && (forall i :: 0 <= i < |at| ==> at[i] < |past|)
    && (at != [] ==> at[0] == 0)
    && (forall i :: 0 < i < |at| ==> at[i-1] <= at[i])
  }

  /** The state in which an order left the host: where the next one was given, or the end. */
  ghost function Left(past: seq<World>, at: seq<nat>, i: nat): World
    requires past != [] && i < |at| && forall k :: 0 <= k < |at| ==> at[k] < |past|
  {
    if i + 1 < |at| then past[at[i+1]] else past[|past|-1]
  }

  ghost predicate SomeReckless(past: seq<World>, at: seq<nat>, commands: seq<Command>)
    requires Moments(past, at, commands)
  {
    exists i :: 0 <= i < |at| && Reckless(past[at[i]], commands[i])
  }

  ghost predicate SomeFreeing(past: seq<World>, at: seq<nat>, commands: seq<Command>)
    requires Moments(past, at, commands)
  {
    exists i :: 0 <= i < |at| && Freeing(past[at[i]], commands[i])
  }

  /** Every order accomplished what it could. */
  ghost predicate AllAccomplished(past: seq<World>, at: seq<nat>, commands: seq<Command>)
    requires past != [] && Moments(past, at, commands)
  {
    forall i :: 0 <= i < |at| ==> Accomplished(past[at[i]], commands[i], Left(past, at, i))
  }

  /** The moments of a run, and one more at its end. */
  ghost predicate Extends(past: seq<World>, later: seq<World>, at: seq<nat>, at': seq<nat>) {
    && past != [] && past <= later && at' == at + [|past| - 1]
    && (forall i :: 0 <= i < |at| ==> at[i] < |past|)
  }

  lemma OrderIsKept(past: seq<World>, later: seq<World>, at: seq<nat>, at': seq<nat>, commands: seq<Command>, c: Command, i: nat)
    requires Extends(past, later, at, at') && |commands| == |at| && i <= |at|
    ensures i < |at| ==> later[at'[i]] == past[at[i]] && (commands + [c])[i] == commands[i]
    ensures i == |at| ==> later[at'[i]] == past[|past|-1] && (commands + [c])[i] == c
  {
  }

  lemma {:induction false} MomentsGrow(past: seq<World>, later: seq<World>, at: seq<nat>, at': seq<nat>, commands: seq<Command>, c: Command)
    requires Extends(past, later, at, at') && Moments(past, at, commands) && (at == [] ==> |past| == 1)
    ensures Moments(later, at', commands + [c])
  {
  }

  lemma {:induction false} RecklessGrows(past: seq<World>, later: seq<World>, at: seq<nat>, at': seq<nat>, commands: seq<Command>, c: Command)
    requires Extends(past, later, at, at') && Moments(past, at, commands) && Moments(later, at', commands + [c])
    ensures SomeReckless(later, at', commands + [c]) <==> SomeReckless(past, at, commands) || Reckless(past[|past|-1], c)
  {
    hide Reckless;
    OrderIsKept(past, later, at, at', commands, c, |at|);
    if SomeReckless(past, at, commands) {
      var i :| 0 <= i < |at| && Reckless(past[at[i]], commands[i]);
      OrderIsKept(past, later, at, at', commands, c, i);
      assert Reckless(later[at'[i]], (commands + [c])[i]);
    }
    if Reckless(past[|past|-1], c) {
      assert Reckless(later[at'[|at|]], (commands + [c])[|at|]);
    }
    if SomeReckless(later, at', commands + [c]) {
      var i :| 0 <= i < |at'| && Reckless(later[at'[i]], (commands + [c])[i]);
      OrderIsKept(past, later, at, at', commands, c, i);
    }
  }

  lemma {:induction false} FreeingGrows(past: seq<World>, later: seq<World>, at: seq<nat>, at': seq<nat>, commands: seq<Command>, c: Command)
    requires Extends(past, later, at, at') && Moments(past, at, commands) && Moments(later, at', commands + [c])
    ensures SomeFreeing(later, at', commands + [c]) <==> SomeFreeing(past, at, commands) || Freeing(past[|past|-1], c)
  {
    hide Freeing;
    OrderIsKept(past, later, at, at', commands, c, |at|);
    if SomeFreeing(past, at, commands) {
      var i :| 0 <= i < |at| && Freeing(past[at[i]], commands[i]);
      OrderIsKept(past, later, at, at', commands, c, i);
      assert Freeing(later[at'[i]], (commands + [c])[i]);
    }
    if Freeing(past[|past|-1], c) {
      assert Freeing(later[at'[|at|]], (commands + [c])[|at|]);
    }
    if SomeFreeing(later, at', commands + [c]) {
      var i :| 0 <= i < |at'| && Freeing(later[at'[i]], (commands + [c])[i]);
      OrderIsKept(past, later, at, at', commands, c, i);
    }
  }

  lemma {:induction false} AccomplishedGrows(past: seq<World>, later: seq<World>, at: seq<nat>, at': seq<nat>, commands: seq<Command>, c: Command)
    requires Extends(past, later, at, at') && Moments(past, at, commands) && Moments(later, at', commands + [c])
    requires AllAccomplished(past, at, commands) && Accomplished(past[|past|-1], c, later[|later|-1])
    ensures AllAccomplished(later, at', commands + [c])
  {
    hide Accomplished;
    forall i | 0 <= i < |at'| ensures Accomplished(later[at'[i]], (commands + [c])[i], Left(later, at', i)) {
      OrderIsKept(past, later, at, at', commands, c, i);
      if i < |at| {
        assert Accomplished(past[at[i]], commands[i], Left(past, at, i));
        LeftIsKept(past, later, at, at', i);
      }
    }
  }

  lemma LeftIsKept(past: seq<World>, later: seq<World>, at: seq<nat>, at': seq<nat>, i: nat)
    requires Extends(past, later, at, at') && i < |at|
    ensures (forall k :: 0 <= k < |at'| ==> at'[k] < |later|) && Left(later, at', i) == Left(past, at, i)
  {
  }

  /** One more order, given at the end of a run that then went on. */
  lemma {:induction false} OneMore(past: seq<World>, later: seq<World>, at: seq<nat>, commands: seq<Command>, c: Command)
    requires past != [] && past <= later && Moments(past, at, commands) && (at == [] ==> |past| == 1)
    ensures Moments(later, at + [|past| - 1], commands + [c])
    ensures var at' := at + [|past| - 1];
      SomeReckless(later, at', commands + [c]) <==> SomeReckless(past, at, commands) || Reckless(past[|past|-1], c)
    ensures var at' := at + [|past| - 1];
      SomeFreeing(later, at', commands + [c]) <==> SomeFreeing(past, at, commands) || Freeing(past[|past|-1], c)
    ensures AllAccomplished(past, at, commands) && Accomplished(past[|past|-1], c, later[|later|-1]) ==>
      AllAccomplished(later, at + [|past| - 1], commands + [c])
  {
    hide Reckless, Freeing, Accomplished, SomeReckless, SomeFreeing, AllAccomplished;
    var at' := at + [|past| - 1];
    assert Extends(past, later, at, at');
    hide Moments, Extends;
    MomentsGrow(past, later, at, at', commands, c);
    RecklessGrows(past, later, at, at', commands, c);
    FreeingGrows(past, later, at, at', commands, c);
    if AllAccomplished(past, at, commands) && Accomplished(past[|past|-1], c, later[|later|-1]) {
      AccomplishedGrows(past, later, at, at', commands, c);
    }
  }

  /**
   * Whatever is ordered, whatever fails and wherever a process dies, every state of the run keeps
   * the invariant and every two neighbours obey the rules, unless an order was reckless where it was
   * given; no upgrade that touched identity loses its fence unless an order took it; and where
   * nothing fails, every order accomplishes what it is for.
   */
  method Session(w: World, commands: seq<Command>, schedule: seq<Tick>) returns (u: Upgrade, ghost at: seq<nat>)
    requires Installed(w)
    ensures fresh(u) && u.Valid() && u.past != [] && u.past[0] == w && u.past[|u.past|-1] == u.w
    ensures Moments(u.past, at, commands)
    ensures !SomeReckless(u.past, at, commands) ==> Lawful(u.past)
    ensures !SomeReckless(u.past, at, commands) && !SomeFreeing(u.past, at, commands) ==> Strict(u.past)
    ensures schedule == [] ==> AllAccomplished(u.past, at, commands)
  {
    hide Inv, Step, Lawful, Lawfully, Installed, Strict, Upgrade.Valid, Moments, SomeReckless, SomeFreeing, AllAccomplished;
    InstalledKeepsInvariant(w);
    u := new Upgrade(w, schedule);
    at := [];
    Unordered(u.past);
    for i := 0 to |commands|
      invariant fresh(u) && u.Valid() && u.origin == w && u.calm == (schedule == [])
      invariant u.past != [] && u.past[|u.past|-1] == u.w && |at| == i && (i == 0 ==> |u.past| == 1)
      invariant Moments(u.past, at, commands[..i])
      invariant u.tainted == SomeReckless(u.past, at, commands[..i])
      invariant u.freed == SomeFreeing(u.past, at, commands[..i])
      invariant u.calm ==> AllAccomplished(u.past, at, commands[..i])
    {
      u.Mark();
      ghost var before := u.past;
      Run(u, commands[i]);
      u.GoesOn();
      u.LastIsNow();
      OneMore(before, u.past, at, commands[..i], commands[i]);
      assert commands[..i+1] == commands[..i] + [commands[i]];
      at := at + [|before| - 1];
    }
    assert commands[..|commands|] == commands;
    u.BeganAtOrigin();
    RunIsKept(u);
  }

  lemma Unordered(past: seq<World>)
    requires past != []
    ensures Moments(past, [], []) && !SomeReckless(past, [], []) && !SomeFreeing(past, [], []) && AllAccomplished(past, [], [])
  {
  }

  lemma RunIsKept(u: Upgrade)
    requires u.Valid()
    ensures !u.tainted ==> Lawful(u.past)
    ensures !u.tainted && !u.freed ==> Strict(u.past)
  {
  }
}
