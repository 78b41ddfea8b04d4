/**
 * Whole upgrades from an installed runtime, in plain terms: a first one, one resumed after a failure or
 * after its migration actor was orphaned, one fixed forward once its identity was touched, and one given
 * up. None of them leaves the product out of service.
 */
module UpgradeRuns {
  import opened Common
  import opened Flyway
  import opened UpgradeState
  import opened UpgradeEffects
  import opened UpgradeRules
  import opened UpgradeTool
  import opened UpgradeSession
  import opened UpgradeTheorems
  import opened UpgradeGaps

  /**
   * An installed runtime in service, and a plan whose files, in strict version order, begin with the rows
   * that are there and go on after them; a notice that is to migrate is one of the two reviewed ones.
   */
  predicate Ready(w: World, plan: Plan) {
    && Installed(w) && w.maintenance.None? && Postgres in w.running && w.snapshots == map[]
    && |w.history| < |plan.inventory| <= 2000
    && (forall i, j :: 0 <= i < j < |plan.inventory| ==>
          Less(VersionKey(plan.inventory[i].version), VersionKey(plan.inventory[j].version)))
    && (forall i :: 0 <= i < |w.history| ==> IsOf(w.history[i], plan.inventory[i]))
    && (plan.notice ==> w.digests.texts.notice == LEGACY || w.digests.texts.notice == APPROVED)
  }

  lemma ReadyIsPromising(w: World, plan: Plan)
    requires Ready(w, plan)
    ensures Promising(w, plan)
  {
    hide Installed, VersionKey, Less;
  }

  /** The target serves everybody with everything, on exactly the migrations of its plan. */
  predicate Delivered(w: World, t: Target, plan: Plan) {
    && Served(w, t, plan) && Up(w.running)
    && |w.history| == |plan.inventory| && forall i :: 0 <= i < |w.history| ==> IsOf(w.history[i], plan.inventory[i])
  }

  lemma CompletedIsDelivered(w: World, t: Target, j: Journal)
    requires Inv(w) && Completed(w, t, j) && Up(w.running) && Increasing(FileVersions(j.plan.inventory))
    ensures Delivered(w, t, j.plan) && t in w.journals && w.journals[t] == j
  {
    CompletedIsServed(w, t, j);
    CompletionIsDetermined(w, t, j);
    hide Inv, Completed, Increasing, FileVersions, Served;
  }

  lemma PlanIncreases(w: World, plan: Plan)
    requires Promising(w, plan)
    ensures Increasing(FileVersions(plan.inventory))
  {
  }

  /** backup and apply. */
  method FirstUpgrade(w: World, t: Target, plan: Plan) returns (u: Upgrade)
    requires Ready(w, plan)
    ensures fresh(u) && u.Valid() && !u.tainted && !u.freed && u.past[0] == w && Delivered(u.w, t, plan)
  {
    hide Inv, Step, Lawful, Lawfully, Grip, Rely, Upgrade.Valid, CanMigrate, Completed, Delivered, Ready, Promising;
    ReadyIsPromising(w, plan);
    PlanIncreases(w, plan);
    InstalledIsQuiet(w, plan);
    u := new Upgrade(w, []);
    var o, b := Backup(u);
    CapturedIsAppliable(w, u.w, t, plan, b);
    hide Appliable, Installed;
    o := u.Apply(t, plan, b);
    u.LastIsInv();
    CompletedIsDelivered(u.w, t, u.record);
    u.BeganAtOrigin();
  }

  lemma InstalledIsQuiet(w: World, plan: Plan)
    requires Promising(w, plan)
    ensures Inv(w) && Wired(w) && w.maintenance.None? && !CapturesStale(w)
  {
    InstalledKeepsInvariant(w);
  }

  // ---------- a failure, and a resume ----------

  lemma FailedIsResumable(w: World, t: Target, plan: Plan)
    requires t in w.journals && w.journals[t].plan == plan && w.journals[t].status == Failed && !w.journals[t].reopened
    requires Shuttered(w, w.journals[t]) && t in w.plans && w.plans[t] == plan && w.actor.None?
    requires CanMigrate(w.history, plan.inventory) && w.journals[t].before == w.digests && w.snapshots == map[]
    requires plan.notice ==> w.digests.texts.notice in {LEGACY, APPROVED}
    ensures Resumable(w, t, plan)
  {
    hide CanMigrate;
  }

  /** apply that fails once its migrations are committed, and its resume. */
  method ResumedUpgrade(w: World, t: Target, plan: Plan) returns (u: Upgrade)
    requires Ready(w, plan)
    ensures fresh(u) && u.Valid() && !u.tainted && !u.freed && u.past[0] == w && Delivered(u.w, t, plan)
  {
    hide Inv, Step, Lawful, Lawfully, Grip, Rely, Upgrade.Valid, CanMigrate, Completed, Delivered, Ready;
    ReadyIsPromising(w, plan);
    PlanIncreases(w, plan);
    ghost var b;
    u, b := ClaimFirst(w, t, plan);
    FailAfterMigrating(u, t, plan);
    Retry(u, t, plan);
    u.BeganAtOrigin();
  }

  /** The resume of the only unfinished upgrade. */
  method Retry(u: Upgrade, t: Target, plan: Plan)
    requires u.Valid() && !u.tainted && u.schedule == [] && Resumable(u.w, t, plan)
    requires forall s :: s in u.w.journals ==> s == t
    requires Increasing(FileVersions(plan.inventory))
    modifies u
    ensures u.Valid() && !u.tainted && u.freed == old(u.freed) && Delivered(u.w, t, plan)
  {
    hide Inv, Step, Lawful, Lawfully, Grip, Rely, Upgrade.Valid, CanMigrate, Completed, Delivered, Resumable;
    var o := u.Resume(t, plan);
    u.LastIsInv();
    CompletedIsDelivered(u.w, t, u.record);
  }

  // ---------- an orphaned actor ----------

  /** The actor connects, commits this many files and exits. */
  function Labour(n: nat): seq<Effect> {
    if n == 0 then [ActorConnects] else Labour(n - 1) + [ActorCommits]
  }

  lemma PassesOn(w: World, nature: seq<Effect>, e: Effect)
    ensures Passed(w, nature + [e]) == Nature(Passed(w, nature), e)
  {
    assert (nature + [e])[..|nature|] == nature;
  }

  lemma ActorArrives(w: World, t: Target, j: Journal)
    requires CanWork(w, t, j)
    ensures Passed(w, Labour(0)) == w.(connected := true)
  {
    hide CanMigrate;
    assert Passed(w, []) == w;
    PassesOn(w, [], ActorConnects);
    assert [] + [ActorConnects] == Labour(0);
  }

  lemma CommitIsNatural(w: World)
    ensures Nature(w, ActorCommits) == Perform(w, ActorCommits)
  {
  }

  /** Left alone, an actor that may log in commits file after file. */
  lemma {:induction false} OrphanLabours(w: World, t: Target, j: Journal, n: nat)
    requires CanWork(w, t, j) && |w.history| + n <= |j.plan.inventory|
    ensures var v := Passed(w, Labour(n));
      CanWork(v, t, j) && v.connected && |v.history| == |w.history| + n && v == w.(history := v.history, connected := true)
  {
    hide CanMigrate, Perform, Nature, Passed;
    if n == 0 {
      ActorArrives(w, t, j);
    } else {
      OrphanLabours(w, t, j, n - 1);
      var v := Passed(w, Labour(n - 1));
      PassesOn(w, Labour(n - 1), ActorCommits);
      CommitIsNatural(v);
      WorkCommits(v, t, j);
      CommitPerforms(v);
      hide CanWork;
    }
  }

  /** And goes away once it has committed them all. */
  lemma OrphanFinishes(w: World, t: Target, j: Journal)
    requires CanWork(w, t, j)
    ensures var v := Passed(w, Labour(|j.plan.inventory| - |w.history|) + [ActorExits]);
      v == w.(history := v.history, actor := None, connected := false)
      && CanMigrate(v.history, j.plan.inventory) && |v.history| == |j.plan.inventory|
  {
    var n := |j.plan.inventory| - |w.history|;
    OrphanLabours(w, t, j, n);
    PassesOn(w, Labour(n), ActorExits);
    ExitIsNatural(Passed(w, Labour(n)));
    hide CanMigrate, Passed, Nature, Labour;
  }

  lemma ExitIsNatural(w: World)
    ensures Nature(w, ActorExits) == w.(actor := None, connected := false)
  {
    hide CanCommit;
  }

  /** apply killed as soon as its migration actor runs; the orphan does the actor's work; and a resume. */
  method OrphanedUpgrade(w: World, t: Target, plan: Plan) returns (u: Upgrade)
    requires Ready(w, plan)
    ensures fresh(u) && u.Valid() && !u.tainted && !u.freed && u.past[0] == w && Delivered(u.w, t, plan)
  {
    hide Inv, Step, Lawful, Lawfully, Grip, Rely, Upgrade.Valid, CanMigrate, Completed, Delivered, Ready, Passed, Resumable;
    ReadyIsPromising(w, plan);
    PlanIncreases(w, plan);
    ghost var b;
    u, b := ClaimFirst(w, t, plan);
    MarkFirst(u, t);
    OrphanActor(u, t);
    OrphanFinishes(u.w, t, u.record);
    assert u.record.plan == plan && u.record.before == u.w.digests;
    u.LastIsInv();
    u.Elapse(Labour(|plan.inventory| - |u.w.history|) + [ActorExits]);
    OrphanedIsResumable(u.w, t, u.record);
    Retry(u, t, plan);
    u.BeganAtOrigin();
  }

  lemma OrphanedIsResumable(w: World, t: Target, j: Journal)
    requires t in w.journals && w.journals[t] == j && Unfinished(j) && !j.reopened && w.maintenance == Some(j.run)
    requires Closed(w) && NamesPair(w, j) && t in w.plans && w.plans[t] == j.plan && w.actor.None?
    requires CanMigrate(w.history, j.plan.inventory) && j.before == w.digests && w.snapshots == map[]
    requires j.plan.notice ==> w.digests.texts.notice in {LEGACY, APPROVED}
    ensures Resumable(w, t, j.plan)
  {
    hide CanMigrate;
  }

  /** The first steps of apply, up to the mark of its migration phase. */
  method MarkFirst(u: Upgrade, t: Target)
    requires u.Valid() && u.schedule == [] && u.Holding(t) && u.aside.journals == map[t := u.record]
    requires u.w.journals[t] == u.record && Dormant(u.w) && u.w.logins == {} && u.w.maintenance.None?
    requires u.record.status == Running && u.w.actor.None?
    modifies u`w, u`record, u`schedule, u`past
    ensures u.Valid() && u.schedule == [] && u.Holding(t) && u.w.journals == map[t := u.record] && u.aside == old(u.aside)
    ensures u.record == old(u.record).(phase := Migrating, migrationStarted := true)
    ensures Shuttered(u.w, u.record) && u.w.logins == {} && u.w.actor.None?
    ensures u.w.history == old(u.w).history && u.w.digests == old(u.w).digests && u.w.snapshots == old(u.w).snapshots
    ensures t in u.w.plans && u.w.plans[t] == u.record.plan
  {
    hide Inv, Step, Lawful, Lawfully, Grip, Rely, Upgrade.Valid, Perform;
    var o := u.Settle(t);
    o := u.Enter(t, Migrating);
    o := u.MarkMigration(t);
    assert u.w.journals == map[t := u.record];
  }

  /** The role and the actor. */
  method OrphanActor(u: Upgrade, t: Target)
    requires u.Valid() && u.schedule == [] && u.Holding(t) && u.w.journals == map[t := u.record]
    requires Shuttered(u.w, u.record) && u.w.logins == {} && u.w.actor.None?
    requires u.record.phase == Migrating && u.record.migrationStarted && CanMigrate(u.w.history, u.record.plan.inventory)
    modifies u`w, u`schedule, u`past
    ensures u.Valid() && u.schedule == [] && CanWork(u.w, t, u.record) && u.w.journals == old(u.w).journals
    ensures Closed(u.w) && NamesPair(u.w, u.record) && u.w.maintenance == Some(u.record.run)
    ensures u.w == old(u.w).(logins := u.w.logins, actor := u.w.actor, connected := false)
  {
    hide Inv, Step, Lawful, Lawfully, Grip, Rely, Upgrade.Valid, CanMigrate;
    var o := u.Act(t, Allow(MigratorRole));
    o := u.Act(t, StartActor(t));
  }

  // ---------- a forward fix ----------

  /** apply that fails once identity was touched and its texts were kept; a forward fix of it. */
  method FixedUpgrade(w: World, t: Target, s: Target, plan: Plan) returns (u: Upgrade)
    requires Ready(w, plan) && s != t
    ensures fresh(u) && u.Valid() && !u.tainted && !u.freed && u.past[0] == w && Delivered(u.w, s, plan)
    ensures s in u.w.journals && u.w.journals[s].predecessor == Some(t)
  {
    hide Inv, Step, Lawful, Lawfully, Grip, Rely, Upgrade.Valid, CanMigrate, Completed, Delivered, Ready, FixReady;
    ReadyIsPromising(w, plan);
    PlanIncreases(w, plan);
    ghost var b;
    u, b := ClaimFirst(w, t, plan);
    FailAfterIdentity(u, t, plan);
    FailedIsFixable(u.w, t, s, plan);
    var o := u.ForwardFix(s, t, plan);
    u.LastIsInv();
    CompletedIsDelivered(u.w, s, u.record);
    u.BeganAtOrigin();
  }

  /** What a claim that has just been made needs to get to its identity phase. */
  predicate Begun(w: World, t: Target, j: Journal, plan: Plan) {
    && w.journals == map[t := j] && Dormant(w) && w.logins == {} && w.maintenance.None? && w.actor.None?
    && j.plan == plan && j.status == Running && !j.reopened && j.before == w.digests && Postgres in w.running
    && CanMigrate(w.history, plan.inventory) && |w.history| < |plan.inventory|
    && w.snapshots == map[] && (plan.notice ==> w.digests.texts.notice in {LEGACY, APPROVED})
  }

  /** The first steps of apply, until identity is what the plan wants. */
  method ReachIdentity(u: Upgrade, t: Target, plan: Plan)
    requires u.Valid() && u.schedule == [] && u.Holding(t) && u.aside.journals == map[t := u.record]
    requires Begun(u.w, t, u.record, plan)
    modifies u`w, u`record, u`schedule, u`past
    ensures u.Valid() && u.schedule == [] && u.Holding(t) && u.Marked(t) && u.aside == old(u.aside)
    ensures SameClaim(old(u.record), u.record) && u.record.status == Running && !u.record.reopened && u.record.migrationStarted
    ensures u.w.logins == {KeycloakRole} && u.w.keycloak == Some(t) && u.w.actor.None?
    ensures CanMigrate(u.w.history, plan.inventory) && Migrated(u.w.history, plan.inventory)
    ensures IdentityHolds(u.w, t, u.record) && Postgres in u.w.running && Keycloak in u.w.running
    ensures u.w.snapshots == if plan.notice then map[t := u.record.before.texts] else map[]
    ensures t in u.w.plans && u.w.plans[t] == plan
  {
    hide Inv, Step, Lawful, Lawfully, Grip, Rely, Upgrade.Valid, CanMigrate, Migrated, Perform, IdentityHolds;
    var o := u.Settle(t);
    o := u.MigrationSteps(t);
    assert |u.w.history| == |plan.inventory| by { MigratedIsWhole(u.w.history, plan.inventory); }
    o := u.IdentitySteps(t);
  }

  /** And a failure. */
  method FailAfterIdentity(u: Upgrade, t: Target, plan: Plan)
    requires u.Valid() && u.schedule == [] && u.Holding(t) && u.aside.journals == map[t := u.record]
    requires Begun(u.w, t, u.record, plan)
    modifies u`w, u`record, u`contained, u`schedule, u`past
    ensures u.Valid() && u.schedule == [] && u.w.journals == map[t := u.record] && u.record.plan == plan
    ensures Shuttered(u.w, u.record) && u.w.actor.None? && CanMigrate(u.w.history, plan.inventory)
    ensures u.record.status == Failed && !u.record.reopened && u.record.migrationStarted && u.record.before == old(u.record).before
    ensures IdentityHolds(u.w, t, u.record) && Postgres in u.w.running
    ensures u.w.snapshots == if plan.notice then map[t := u.record.before.texts] else map[]
  {
    hide Inv, Step, Lawful, Lawfully, Grip, Rely, Upgrade.Valid, CanMigrate, Migrated, Perform, Begun;
    assert u.record.plan == plan by { BegunIsOfPlan(u.w, t, u.record, plan); }
    ReachIdentity(u, t, plan);
    var o := u.Fail(t);
    assert Postgres !in FENCE_STOPPED;
    assert u.w.journals == map[t := u.record];
  }

  lemma BegunIsOfPlan(w: World, t: Target, j: Journal, plan: Plan)
    requires Begun(w, t, j, plan)
    ensures j.plan == plan
  {
  }

  lemma FailedIsFixable(w: World, t: Target, s: Target, plan: Plan)
    requires t in w.journals && w.journals == map[t := w.journals[t]] && s != t && Postgres in w.running
    requires w.journals[t].status == Failed && !w.journals[t].reopened && w.journals[t].migrationStarted
    requires Shuttered(w, w.journals[t]) && w.actor.None? && CanMigrate(w.history, plan.inventory) && w.journals[t].plan == plan
    requires IdentityHolds(w, t, w.journals[t])
    requires w.snapshots == if plan.notice then map[t := w.journals[t].before.texts] else map[]
    requires plan.notice ==> w.journals[t].before.texts.notice in {LEGACY, APPROVED}
    ensures FixReady(w, s, t, plan)
  {
    hide CanMigrate;
  }

  // ---------- a death after the reopening ----------

  /** A user writes while the target serves. */
  method UserComesIn(u: Upgrade, t: Target, accounts: nat)
    requires u.Valid() && !u.tainted && u.schedule == [] && InService(u.w, t, u.record)
    modifies u`w, u`past
    ensures u.Valid() && u.schedule == []
    ensures u.w == old(u.w).(digests := old(u.w).digests.(accounts := accounts), written := old(u.w).written + old(u.w).pairs.Keys)
  {
    hide Inv, Step, Lawful, Lawfully, Rely, Upgrade.Valid, Migrated, Replaced, Passed;
    u.LastIsInv();
    UserWrites(u.w, accounts);
    u.Elapse([UserWrite(accounts)]);
  }

  lemma ServiceIsMigrated(w: World, t: Target, j: Journal)
    requires InService(w, t, j)
    ensures Migrated(w.history, j.plan.inventory) && NoticeSettled(w, t, j.plan) && j.reopened && w.actor.None?
    ensures t in w.journals && w.journals[t] == j
  {
  }

  lemma MigratedCanMigrate(w: World, files: seq<Migration>)
    requires Inv(w) && Migrated(w.history, files) && Increasing(FileVersions(files))
    ensures CanMigrate(w.history, files)
  {
    AcceptedIsBounded(w.history, files);
    assert Increasing(RowVersions(w.history));
    hide Inv, FlywayDelta, Increasing;
    AcceptedIsPrefix(w.history, files);
  }

  lemma ReopenedIsResumable(w: World, t: Target, j: Journal)
    requires t in w.journals && w.journals[t] == j && Unfinished(j) && j.reopened
    requires w.maintenance == Some(j.run) && t in w.plans && w.plans[t] == j.plan && w.actor.None?
    requires CanMigrate(w.history, j.plan.inventory) && NoticeSettled(w, t, j.plan)
    ensures Resumable(w, t, j.plan)
  {
    hide CanMigrate;
  }

  /** apply killed once users were let in and one of them wrote, with the gate still open; and its resume. */
  method ReopenedUpgrade(w: World, t: Target, plan: Plan, accounts: nat) returns (u: Upgrade)
    requires Ready(w, plan)
    ensures fresh(u) && u.Valid() && !u.tainted && !u.freed && u.past[0] == w && Delivered(u.w, t, plan)
  {
    hide Inv, Step, Lawful, Lawfully, Grip, Rely, Upgrade.Valid, CanMigrate, Migrated, Completed, Delivered, Ready, Resumable, Replaced;
    ReadyIsPromising(w, plan);
    PlanIncreases(w, plan);
    ghost var b;
    u, b := ClaimFirst(w, t, plan);
    ReachIdentity(u, t, plan);
    var o := u.SwitchSteps(t);
    u.LastIsInv();
    ServiceIsMigrated(u.w, t, u.record);
    MigratedCanMigrate(u.w, plan.inventory);
    UserComesIn(u, t, accounts);
    hide InService;
    ReopenedIsResumable(u.w, t, u.record);
    Retry(u, t, plan);
    u.BeganAtOrigin();
  }

  // ---------- giving up ----------

  /** apply that fails before its actor committed anything, given up, and the pair thawed: everybody is let in again. */
  method AbandonedUpgrade(w: World, t: Target, plan: Plan) returns (u: Upgrade)
    requires Ready(w, plan)
    ensures fresh(u) && u.Valid() && !u.tainted && !u.freed && u.past[0] == w
    ensures GateOpen(u.w) && u.w.local.None? && u.w.maintenance.None? && EveryoneMayLogIn(u.w)
    ensures t in u.w.journals && u.w.journals[t].status == Abandoned
  {
    hide Inv, Step, Lawful, Lawfully, Grip, Rely, Upgrade.Valid, CanMigrate, Ready, SameSchemas;
    ReadyIsPromising(w, plan);
    ghost var b;
    u, b := ClaimFirst(w, t, plan);
    FailAfterMark(u, t);
    var o, restored := u.Abandon(t);
    o := Thaw(u);
    u.BeganAtOrigin();
  }
}
