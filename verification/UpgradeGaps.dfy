/**
 * Where the protocol's promises end. Each reckless order, and the order that takes an identity fence
 * away, has a run of the program's own steps that breaks a promise; and such states are reached from
 * an installed runtime by none of these orders.
 */
module UpgradeGaps {
  import opened Common
  import opened Flyway
  import opened UpgradeState
  import opened UpgradeEffects
  import opened UpgradeRules
  import opened UpgradeTool
  import opened UpgradeSession

  /** fence_continuous answers yes for t, which was never reopened, over product writes newer than its pair. */
  predicate Fooled(w: World, t: Target) {
    && Open(w.journals, t) && !w.journals[t].reopened
    && FenceContinuous(w, w.journals[t]) && w.journals[t].backup in w.written
  }

  // ---------- resuming one of two unfinished upgrades ----------

  /** The other one counts on the same pair. */
  lemma RivalSharesPair(w: World, t: Target, s: Target)
    requires Inv(w) && Open(w.journals, t) && Open(w.journals, s) && s != t && !w.journals[t].reopened
    ensures !w.journals[s].reopened && w.journals[s].backup == w.journals[t].backup && w.journals[s].backup in w.pairs
  {
  }

  /** Nothing that a resume cannot mend stands in its way: no foreign owner, no strange history, no unknown notice. */
  predicate Passable(w: World, t: Target, plan: Plan) {
    && ResumesRival(w, t, plan) && OwnOrNone(w, w.journals[t]) && CanMigrate(w.history, plan.inventory)
    && (plan.notice && t !in w.snapshots ==> w.journals[t].before.texts.notice in {LEGACY, APPROVED})
  }

  /**
   * The steps of a resume, up to the reopened gate; a user's write; and the next call refused, so
   * that the failure fences again under the shared pair's name.
   */
  method RivalResumeFoolsTheFence(u: Upgrade, t: Target, s: Target, plan: Plan, accounts: nat)
    requires u.Valid() && u.schedule == [] && Inv(u.w)
    requires Passable(u.w, t, plan) && Open(u.w.journals, s) && s != t
    modifies u
    ensures u.Valid() && Fooled(u.w, s) && t in u.w.journals && u.w.journals[t].reopened
  {
    hide Inv, Step, Lawful, Lawfully, Grip, Rely, Upgrade.Valid, Passable, CanMigrate;
    ghost var first := u.w;
    RivalSharesPair(u.w, t, s) by { PassableIsUnreopened(u.w, t, plan); }
    u.Taint(true);
    OutliveOrphan(u, t, plan);
    ResumeIntoIdentity(u, t, plan);
    SwitchOver(u, t);
    Overtake(u, t, accounts);
    var o := u.Fail(t);
    assert s in first.journals && u.w.journals == first.journals[t := u.w.journals[t]];
  }

  lemma PassableIsUnreopened(w: World, t: Target, plan: Plan)
    requires Passable(w, t, plan)
    ensures Open(w.journals, t) && !w.journals[t].reopened
  {
  }

  /** An orphan of the interrupted attempt, if any is left, exits. */
  method OutliveOrphan(u: Upgrade, t: Target, plan: Plan)
    requires u.Valid() && u.tainted && Passable(u.w, t, plan)
    modifies u`w, u`past
    ensures u.Valid() && Passable(u.w, t, plan) && u.w.actor.None?
    ensures SameFences(old(u.w), u.w) && u.w.pairs == old(u.w).pairs
  {
    hide Inv, Step, Lawful, Lawfully, Upgrade.Valid, CanMigrate;
    u.Elapse([ActorExits]);
    OrphanExits(old(u.w));
    hide Passed;
  }

  lemma OrphanExits(w: World)
    ensures Passed(w, [ActorExits]) == w.(actor := None, connected := false)
  {
    assert Passed(w, [ActorExits][..0]) == w;
  }

  /** What the identity phase wants to find: the claim's baseline, under the texts kept so far. */
  function Mended(w: World, t: Target, j: Journal): Digests {
    if j.plan.notice && t in w.snapshots then j.before.(texts := Aligned(w.snapshots[t])) else j.before
  }

  lemma MendedIsReady(w: World, t: Target, j: Journal)
    requires w.digests == Mended(w, t, j)
    requires j.plan.notice && t !in w.snapshots ==> j.before.texts.notice in {LEGACY, APPROVED}
    ensures IdentityIsReady(w, t, j)
  {
  }

  /** A resume up to its identity phase, with a Keycloak whose start mends what an earlier one left unfinished. */
  method ResumeIntoIdentity(u: Upgrade, t: Target, plan: Plan)
    requires u.Valid() && u.tainted && u.schedule == [] && Passable(u.w, t, plan) && u.w.actor.None?
    modifies u`w, u`record, u`schedule, u`past, u`aside
    ensures u.Valid() && u.schedule == [] && u.Holding(t) && u.aside == old(u.w)
    ensures u.Marked(t) && u.record.status == Running && u.w.logins == {KeycloakRole} && u.w.keycloak == Some(t)
    ensures IdentityHolds(u.w, t, u.record) && Migrated(u.w.history, u.record.plan.inventory) && u.w.actor.None?
    ensures SameClaim(u.record, old(u.w).journals[t])
  {
    hide Inv, Step, Lawful, Lawfully, Grip, Rely, Upgrade.Valid, Upgrade.Holding, CanMigrate, Migrated, Perform, IdentityIsReady, IdentityHolds;
    var o := u.TakeUp(t);
    o := u.Refence(t);
    o := u.MigrationSteps(t);
    StartMended(u, t);
    o := u.Align(t);
  }

  /** The identity phase up to a Keycloak that starts over the baseline. */
  method StartMended(u: Upgrade, t: Target)
    requires u.Valid() && u.schedule == [] && u.Holding(t) && Shuttered(u.w, u.record) && u.w.logins == {}
    requires u.w.journals[t] == u.record && u.record.status == Running && u.w.actor.None?
    requires u.record.plan.notice && t !in u.w.snapshots ==> u.record.before.texts.notice in {LEGACY, APPROVED}
    modifies u`w, u`record, u`schedule, u`past
    ensures u.Valid() && u.schedule == [] && u.Holding(t)
    ensures u.Marked(t) && u.record.status == Running && u.w.logins == {KeycloakRole} && u.w.keycloak == Some(t)
    ensures IdentityIsReady(u.w, t, u.record) && u.w.history == old(u.w).history && u.w.actor.None?
    ensures SameClaim(old(u.record), u.record)
  {
    hide Inv, Step, Lawful, Lawfully, Grip, Rely, Upgrade.Valid, Upgrade.Holding, Perform, IdentityIsReady;
    var o := u.ReadThrough(t);
    o := u.AnnounceIdentity(t);
    o := u.BootKeycloak(t, Seen(Mended(u.w, t, u.record), u.w.schema, u.w.session));
    MendedIsReady(u.w, t, u.record);
  }

  /** The switch to the target, and its reopening. */
  method SwitchOver(u: Upgrade, t: Target)
    requires u.Valid() && u.tainted && u.schedule == [] && u.Holding(t)
    requires u.Marked(t) && u.record.status == Running && u.w.logins == {KeycloakRole} && u.w.keycloak == Some(t)
    requires IdentityHolds(u.w, t, u.record) && Migrated(u.w.history, u.record.plan.inventory) && u.w.actor.None?
    modifies u`w, u`record, u`schedule, u`past
    ensures u.Valid() && u.schedule == [] && u.Holding(t)
    ensures InService(u.w, t, u.record) && u.w.maintenance == Some(u.record.run) && SameClaim(old(u.record), u.record)
  {
    hide Inv, Step, Lawful, Lawfully, Grip, Rely, Upgrade.Valid, Upgrade.Holding, Migrated, IdentityHolds, InService;
    var o := u.SwitchSteps(t);
  }

  lemma UserWrites(w: World, accounts: nat)
    requires Exposed(w)
    ensures Passed(w, [UserWrite(accounts)])
      == w.(digests := w.digests.(accounts := accounts), written := w.written + w.pairs.Keys)
  {
    assert Passed(w, [UserWrite(accounts)][..0]) == w;
  }

  /** A user writes while the target serves. */
  method Overtake(u: Upgrade, t: Target, accounts: nat)
    requires u.Valid() && u.tainted && u.schedule == [] && u.Holding(t) && InService(u.w, t, u.record)
    modifies u`w, u`past
    ensures u.Valid() && u.schedule == [] && u.Holding(t)
    ensures u.w.written >= u.w.pairs.Keys && u.w.maintenance == old(u.w).maintenance
  {
    hide Inv, Step, Lawful, Lawfully, Grip, Rely, Upgrade.Valid, Migrated, Replaced, Passed;
    UserWrites(u.w, accounts);
    u.Elapse([UserWrite(accounts)]);
  }

  // ---------- a capture over a stale line ----------

  /** A write while the gate is open, and a capture killed when it has closed the gate. */
  method StaleCaptureFoolsTheFence(u: Upgrade, t: Target, accounts: nat)
    requires u.Valid() && u.schedule == [] && Inv(u.w) && CapturesStale(u.w)
    requires Open(u.w.journals, t) && !u.w.journals[t].reopened && Some(u.w.journals[t].backup) == u.w.local.value.backup
    modifies u
    ensures u.Valid() && Fooled(u.w, t)
  {
    PairIsKnown(u.w, t);
    hide Inv, Step, Lawful, Lawfully, Rely, Upgrade.Valid, Passed, Relied;
    u.Taint(true);
    var o := u.Glimpse();
    UserWrites(u.w, accounts);
    u.Elapse([UserWrite(accounts)]);
    o := u.Shut();
  }

  lemma PairIsKnown(w: World, t: Target)
    requires Inv(w) && t in w.journals
    ensures w.journals[t].backup in w.pairs
  {
  }

  // ---------- an identity fence given up ----------

  /** The exit, a capture and its thaw let users in on a half-migrated identity, and no pair can be gone back to. */
  method FreedFenceIsServed(u: Upgrade, t: Target, run: Run)
    requires u.Valid() && u.schedule == [] && Inv(u.w) && FreesHalfDone(u.w, run)
    requires Half(u.w.journals, t)
    modifies u
    ensures u.Valid() && GateOpen(u.w) && u.w.journals == old(u.w).journals && Half(u.w.journals, t)
    ensures !Sealed(u.w, u.w.journals[t]) && !Startable(u.w, t) && !Abandonable(u.w, t)
  {
    hide Inv, Step, Lawful, Lawfully, Rely, Upgrade.Valid, SameSchemas;
    var o := ExitForeign(u, run);
    var b;
    o, b := Backup(u);
    o := Thaw(u);
  }

  // ---------- such states are reached ----------

  /** What the first attempt at a plan needs to find on an installed runtime. */
  predicate Promising(w: World, plan: Plan) {
    && Installed(w) && w.maintenance.None? && Postgres in w.running && w.snapshots == map[]
    && CanMigrate(w.history, plan.inventory) && |w.history| < |plan.inventory|
    && (plan.notice ==> w.digests.texts.notice in {LEGACY, APPROVED})
  }

  lemma CapturedIsAppliable(v: World, w: World, t: Target, plan: Plan, b: BackupId)
    requires Promising(v, plan) && Captured(w, b)
    requires w == v.(ready := w.ready, pending := w.pending, local := w.local, logins := {}, connected := false,
                     running := v.running - FENCE_STOPPED, pairs := w.pairs, next := w.next)
    ensures Appliable(w, t, plan, b)
  {
    assert Postgres !in FENCE_STOPPED;
    assert w.running * FENCE_STOPPED == {};
  }

  /** backup, then apply, killed right after its claim. */
  method ClaimFirst(w: World, t: Target, plan: Plan) returns (u: Upgrade, ghost b: BackupId)
    requires Promising(w, plan)
    ensures fresh(u) && u.Valid() && !u.tainted && u.schedule == [] && u.origin == w
    ensures u.aside.journals == map[t := u.record]
    ensures u.Holding(t) && u.w.journals == map[t := u.record] && u.w.journals[t] == u.record && Dormant(u.w) && u.w.logins == {}
    ensures u.w.maintenance.None? && u.w.local == Some(Notice(BackupFence, Some(b)))
    ensures u.record.backup == b && u.record.plan == plan && u.record.status == Running && u.record.phase == Claimed
    ensures !u.record.reopened && !u.record.identityStarted && !u.record.migrationStarted && u.record.predecessor.None?
    ensures u.record.before == u.w.digests == w.digests && u.w.history == w.history && u.w.snapshots == map[] && u.w.actor.None?
    ensures !u.freed && SameSchemas(u.w, b) && Postgres in u.w.running
  {
    hide Inv, Step, Lawful, Lawfully, Grip, Rely, Upgrade.Valid, CanMigrate;
    InstalledKeepsInvariant(w);
    u := new Upgrade(w, []);
    var o, backup := Backup(u);
    b := backup;
    CapturedIsAppliable(w, u.w, t, plan, backup);
    assert SameSchemas(u.w, backup);
    hide VerifiedFence;
    o := u.First(t, plan, backup);
    assert u.aside.journals == map[t := u.record];
  }

  /** apply that commits its migrations and fails; a forward fix of it, killed between its claim and the supersession. */
  method ReachRivals(w: World, t: Target, s: Target, plan: Plan) returns (u: Upgrade)
    requires Promising(w, plan) && s != t
    ensures fresh(u) && u.Valid() && !u.tainted && !u.freed && u.schedule == [] && u.past[0] == w
    ensures Passable(u.w, t, plan) && Open(u.w.journals, s)
  {
    hide Inv, Step, Lawful, Lawfully, Grip, Rely, Upgrade.Valid, CanMigrate, Migrated;
    ghost var b;
    u, b := ClaimFirst(w, t, plan);
    FailAfterMigrating(u, t, plan);
    var o := u.Weigh(t);
    o := u.Carry(s, t, plan);
    o := u.ClaimFix(s, t, plan);
    assert s in u.w.journals && Unfinished(u.w.journals[s]);
    u.BeganAtOrigin();
  }

  /** The first steps of apply, and a failure once every migration is committed. */
  method FailAfterMigrating(u: Upgrade, t: Target, plan: Plan)
    requires u.Valid() && u.schedule == [] && u.Holding(t) && u.aside.journals == map[t := u.record]
    requires u.w.journals[t] == u.record && Dormant(u.w) && u.w.logins == {} && u.w.maintenance.None?
    requires u.record.plan == plan && u.record.status == Running && !u.record.reopened && u.record.before == u.w.digests
    requires u.w.actor.None? && CanMigrate(u.w.history, plan.inventory) && |u.w.history| < |plan.inventory|
    modifies u`w, u`record, u`contained, u`schedule, u`past
    ensures u.Valid() && u.schedule == [] && u.w.journals == map[t := u.record]
    ensures Shuttered(u.w, u.record) && u.w.actor.None? && CanMigrate(u.w.history, plan.inventory)
    ensures u.record.plan == plan && u.record.status == Failed && !u.record.reopened && u.record.migrationStarted
    ensures u.record.before == u.w.digests == old(u.w).digests && u.w.snapshots == old(u.w).snapshots
    ensures t in u.w.plans && u.w.plans[t] == plan
  {
    hide Inv, Step, Lawful, Lawfully, Grip, Rely, Upgrade.Valid, CanMigrate, Migrated, Perform;
    var o := u.Settle(t);
    o := u.MigrationSteps(t);
    PrefixIsAccepted(u.w.history, plan.inventory);
    assert |u.w.history| == |plan.inventory| by { MigratedIsWhole(u.w.history, plan.inventory); }
    o := u.Fail(t);
    assert u.w.journals == map[t := u.record];
  }

  lemma MigratedIsWhole(history: seq<Row>, files: seq<Migration>)
    requires CanMigrate(history, files) && Migrated(history, files)
    ensures |history| == |files|
  {
    hide FlywayDelta;
    PrefixIsAccepted(history, files);
  }

  /** apply killed right after its claim; a thaw killed before it removes the pair's line. */
  method ReachStaleLine(w: World, t: Target, plan: Plan) returns (u: Upgrade)
    requires Promising(w, plan)
    ensures fresh(u) && u.Valid() && !u.tainted && !u.freed && u.schedule == [] && u.past[0] == w
    ensures CapturesStale(u.w) && Open(u.w.journals, t) && !u.w.journals[t].reopened
    ensures Some(u.w.journals[t].backup) == u.w.local.value.backup
  {
    hide Inv, Step, Lawful, Lawfully, Grip, Rely, Upgrade.Valid, CanMigrate;
    ghost var b;
    u, b := ClaimFirst(w, t, plan);
    var o := Readmit(u);
    o := OpenAgain(u);
    assert Relied(u.w.journals, u.w.local.value.backup.value);
    u.BeganAtOrigin();
  }

  /** apply killed right after the mark of its identity phase. */
  method ReachHalfDone(w: World, t: Target, plan: Plan) returns (u: Upgrade, ghost run: Run)
    requires Promising(w, plan)
    ensures fresh(u) && u.Valid() && !u.tainted && !u.freed && u.schedule == [] && u.past[0] == w
    ensures FreesHalfDone(u.w, run) && Half(u.w.journals, t)
  {
    hide Inv, Step, Lawful, Lawfully, Grip, Rely, Upgrade.Valid, CanMigrate, Migrated;
    ghost var b;
    u, b := ClaimFirst(w, t, plan);
    TouchIdentity(u, t);
    run := u.record.run;
    assert Half(u.w.journals, t);
    u.BeganAtOrigin();
  }

  /** The first steps of apply, up to the mark of its identity phase. */
  method TouchIdentity(u: Upgrade, t: Target)
    requires u.Valid() && u.schedule == [] && u.Holding(t)
    requires u.w.journals[t] == u.record && Dormant(u.w) && u.w.logins == {} && u.w.maintenance.None?
    requires u.record.status == Running && !u.record.reopened
    requires u.w.actor.None? && CanMigrate(u.w.history, u.record.plan.inventory)
    modifies u`w, u`record, u`schedule, u`past
    ensures u.Valid() && u.schedule == [] && u.Marked(t) && Unfinished(u.record) && !u.record.reopened
  {
    hide Inv, Step, Lawful, Lawfully, Grip, Rely, Upgrade.Valid, CanMigrate, Migrated, Perform, MovedMigration, Same;
    var o := u.Settle(t);
    o := u.MigrationSteps(t);
    ghost var a := u.w;
    o := u.ReadThrough(t);
    SameJournals(a.(journals := u.w.journals, next := u.w.next), u.w);
    o := u.AnnounceIdentity(t);
  }

  /** apply that fails after its migration mark, before its actor committed anything; a forward fix killed right after its claim. */
  method ReachIdleRivals(w: World, t: Target, s: Target, plan: Plan) returns (u: Upgrade)
    requires Promising(w, plan) && s != t
    ensures fresh(u) && u.Valid() && !u.tainted && !u.freed && u.schedule == [] && u.past[0] == w
    ensures Quittable(u.w, t) && FenceContinuous(u.w, u.w.journals[t])
    ensures Fixes(u.w.journals, s, t) && !u.w.journals[s].migrationStarted
    ensures forall x :: Open(u.w.journals, x) <==> x == s || x == t
  {
    hide Inv, Step, Lawful, Lawfully, Grip, Rely, Upgrade.Valid, CanMigrate, Migrated, SameSchemas;
    ghost var b;
    u, b := ClaimFirst(w, t, plan);
    FailAfterMark(u, t);
    ghost var a := u.w;
    var o := u.Weigh(t);
    o := u.Carry(s, t, plan);
    o := u.ClaimFix(s, t, plan);
    BooksAreSame(a, u.w, b);
    u.BeganAtOrigin();
  }

  /** The first steps of apply, and a failure once the migration mark is durable. */
  method FailAfterMark(u: Upgrade, t: Target)
    requires u.Valid() && u.schedule == [] && u.Holding(t) && u.aside.journals == map[t := u.record]
    requires u.w.journals[t] == u.record && Dormant(u.w) && u.w.logins == {} && u.w.maintenance.None?
    requires u.record.status == Running && !u.record.reopened && !u.record.identityStarted && u.w.actor.None?
    requires SameSchemas(u.w, u.record.backup) && u.record.before == u.w.digests
    modifies u`w, u`record, u`contained, u`schedule, u`past
    ensures u.Valid() && u.schedule == [] && u.w.journals == map[t := u.record]
    ensures Shuttered(u.w, u.record) && u.w.actor.None? && SameSchemas(u.w, u.record.backup)
    ensures u.record == old(u.record).(status := Failed, phase := Migrating, migrationStarted := true)
    ensures u.record.before == u.w.digests && u.w.snapshots == old(u.w).snapshots
  {
    hide Inv, Step, Lawful, Lawfully, Grip, Rely, Upgrade.Valid, Perform, SameSchemas;
    ghost var a := u.w;
    var o := u.Settle(t);
    o := u.Enter(t, Migrating);
    o := u.MarkMigration(t);
    o := u.Fail(t);
    assert u.w.journals == map[t := u.record];
    BooksAreSame(a, u.w, u.record.backup);
  }

  lemma BooksAreSame(a: World, b: World, pair: BackupId)
    requires SameSchemas(a, pair) && b.pairs == a.pairs && b.history == a.history && b.schema == a.schema
    ensures SameSchemas(b, pair)
  {
  }

  // ---------- dead ends ----------

  /** Whether an order of the upgrade tool gets past everything it checks before it writes. */
  predicate Admitted(w: World, c: Command) {
    match c
    case ApplyTo(t, _, b) => Vacant(w.journals, t) && !AnyUnfinished(w.journals) && VerifiedFence(w, b)
    case FixForward(t, p, plan) => Fixable(w.journals, t, p) && Startable(w, p) && CanCarry(w, t, p, plan)
    case ResumeOf(t, plan) =>
      Open(w.journals, t) && w.journals[t].plan == plan && t in w.plans && w.plans[t] == plan && Startable(w, t)
    case AbandonOf(t) => Abandonable(w, t)
    case _ => false
  }

  /** Two unfinished upgrades that cannot be abandoned any more leave no order that is not reckless. */
  lemma {:induction false} RivalsAreADeadEnd(w: World, s: Target, t: Target, c: Command)
    requires Inv(w) && Open(w.journals, s) && Open(w.journals, t) && s != t && !w.journals[t].reopened
    requires !Abandonable(w, s) && !Abandonable(w, t) && Admitted(w, c)
    ensures Reckless(w, c)
  {
    forall x: Target ensures Contested(w.journals, x) {
      var other := if x == s then t else s;
      assert other in w.journals && other != x;
    }
    assert AnyUnfinished(w.journals);
    forall x | Open(w.journals, x) ensures !w.journals[x].reopened {
      if x != t { RivalSharesPair(w, t, x); }
    }
    if c.AbandonOf? { AbandonableIsOneOfTwo(w, s, t, c.target); }
    hide Inv, Abandonable, Contested;
  }

  /** Only a first claim can be abandoned, and of three unfinished upgrades none could be. */
  lemma AbandonableIsOneOfTwo(w: World, s: Target, t: Target, x: Target)
    requires Inv(w) && Open(w.journals, s) && Open(w.journals, t) && s != t && Abandonable(w, x)
    ensures x == s || x == t
  {
    hide Held, Evidence, Lineage, HistoryGrows, Untouched, Marked, Conserved, SameSchemas;
  }

  /** An unfinished fix alone, without marks and over a broken fence, leaves no order at all. */
  lemma {:induction false} OrphanIsADeadEnd(w: World, s: Target, c: Command)
    requires Open(w.journals, s) && forall x :: Open(w.journals, x) ==> x == s
    requires w.journals[s].predecessor.Some? && !w.journals[s].migrationStarted && !Startable(w, s)
    ensures !Admitted(w, c)
  {
    assert AnyUnfinished(w.journals);
  }

  /** A thaw leaves the fix of an abandoned target alone over a broken fence. */
  lemma ThawedFixIsOrphaned(v: World, w: World, t: Target, s: Target, j: Journal)
    requires Fixes(v.journals, s, t) && !v.journals[s].migrationStarted && !v.journals[s].reopened && s != t
    requires forall x :: Open(v.journals, x) <==> x == s || x == t
    requires w.journals == v.journals[t := j] && j.status == Abandoned && GateOpen(w)
    ensures Open(w.journals, s) && (forall x :: Open(w.journals, x) ==> x == s) && !Startable(w, s)
    ensures w.journals[s].predecessor.Some? && !w.journals[s].migrationStarted
  {
    assert Open(v.journals, s);
    OpenAfter(v.journals, w.journals, t);
    forall x | Open(w.journals, x) ensures x == s {
      assert Open(v.journals, x);
    }
  }

  /** Where the failed target can still be abandoned, going back to its pair and thawing it orphans the fix. */
  method AbandonAndThawOrphanTheFix(u: Upgrade, t: Target, s: Target, c: Command)
    requires u.Valid() && !u.tainted && u.schedule == [] && Inv(u.w)
    requires Quittable(u.w, t) && FenceContinuous(u.w, u.w.journals[t])
    requires Fixes(u.w.journals, s, t) && !u.w.journals[s].migrationStarted
    requires forall x :: Open(u.w.journals, x) <==> x == s || x == t
    modifies u
    ensures u.Valid() && !u.tainted && GateOpen(u.w)
    ensures Open(u.w.journals, s) && !Admitted(u.w, c)
  {
    ghost var v := u.w;
    FixIsUnreopened(v, t, s);
    hide Inv, Step, Lawful, Lawfully, Rely, Upgrade.Valid, SameSchemas, Admitted;
    var o, restored := u.Abandon(t);
    hide Fixes, Open, Abandonable, FenceContinuous;
    o := Thaw(u);
    ThawedFixIsOrphaned(v, u.w, t, s, u.record);
    OrphanIsADeadEnd(u.w, s, c);
  }

  lemma FixIsUnreopened(w: World, t: Target, s: Target)
    requires Inv(w) && Quittable(w, t) && Fixes(w.journals, s, t) && Open(w.journals, s)
    ensures s != t && !w.journals[s].reopened
  {
    AbandonableIsPristine(w, t);
    RivalSharesPair(w, t, s);
  }
}
