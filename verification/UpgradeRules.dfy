/** What the tool may do while one upgrade is its business, and what it may rely on afterwards. */
module UpgradeRules {
  import opened Common
  import opened Flyway
  import opened UpgradeState
  import opened UpgradeEffects

  /** Durable reopening aside, the pair is still the last write. */
  ghost predicate Quiet(w: World, t: Target) {
    t in w.journals &&
    (w.journals[t].reopened || (!Exposed(w) && w.journals[t].backup !in w.written))
  }

  lemma QuietIsStable(a: World, b: World, t: Target)
    requires Quiet(a, t) && Rely(a, b)
    ensures Quiet(b, t)
  {
  }

  lemma FitIsStable(a: World, b: World, t: Target, j: Journal)
    requires Fit(a, t, j) && Quiet(a, t) && Rely(a, b)
    ensures Fit(b, t, j)
  {
  }

  /** Only a running actor has a database session. */
  predicate Wired(w: World) {
    w.connected ==> w.actor.Some?
  }

  lemma WiredIsKept(w: World, e: Effect)
    requires Wired(w)
    ensures Wired(Perform(w, e)) && Wired(Nature(w, e))
  {
  }

  lemma RelyIsReflexive(w: World)
    requires Wired(w)
    ensures Rely(w, w)
  {
  }

  /** Between a and b only doors were shut and roles, services and sessions withdrawn, by the tool or the host. */
  ghost predicate Calmer(a: World, b: World) {
    && b == a.(ready := b.ready, pending := b.pending, local := b.local, logins := b.logins,
               running := b.running, history := b.history, actor := b.actor, connected := b.connected,
               digests := b.digests, written := b.written)
    && (b.ready ==> a.ready) && (a.pending ==> b.pending) && b.logins <= a.logins
    && (b.local == a.local || (b.local.Some? && b.local.value.cause != BackupFence))
    && (b.actor == a.actor || b.actor.None?)
    && (b.connected ==> b.actor.Some?)
    && (a.actor.None? ==> b.history == a.history)
    && b.digests == a.digests.(accounts := b.digests.accounts)
    && a.written <= b.written
    && (!GateOpen(a) ==> b.running <= a.running)
    && (!Exposed(a) ==> b.digests == a.digests && b.written == a.written)
  }

  predicate Closing(e: Effect) {
    match e
    case SetReady(r) => !r
    case SetPending(p) => p
    case SetLocal(n) => n == Some(Notice(Quiescing, None))
    case Deny(_) => true
    case StopWriters => true
    case EndSessions => true
    case Look => true
    case _ => false
  }

  /**
   * What a closing effect has to respect: the gate does not close over a stale line, and no role is
   * withdrawn while a backup's own line stands, since either would make the line look like a fence.
   */
  ghost predicate Tame(w: World, e: Effect) {
    && (e.SetReady? || e.SetPending? ==> !Stale(w))
    && (e.Deny? ==> !BackupLine(w))
  }

  lemma ClosingIsCalm(w: World, e: Effect)
    requires Closing(e) && Wired(w)
    ensures Calmer(w, Perform(w, e))
  {
  }

  lemma ClosingIsLawful(w: World, e: Effect)
    requires Inv(w) && Closing(e) && Wired(w) && Tame(w, e)
    ensures Lawfully(w, Perform(w, e))
  {
    ClosingIsDiscreet(w, Perform(w, e), e);
    hide Inv, Lawfully, Discreet, Quieter, Perform;
    QuieterIsLawful(w, Perform(w, e));
  }

  lemma ClosingIsDiscreet(w: World, v: World, e: Effect)
    requires Closing(e) && Wired(w) && Tame(w, e) && v == Perform(w, e)
    ensures Quieter(w, v) && Discreet(w, v)
  {
    match e
    case SetReady(_) =>
    case SetPending(_) =>
    case SetLocal(_) =>
    case Deny(_) =>
    case StopWriters =>
    case EndSessions =>
    case Look =>
  }

  lemma RelyIsCalm(a: World, b: World)
    requires Rely(a, b) && Wired(a)
    ensures Calmer(a, b)
  {
  }

  lemma CalmerIsTransitive(a: World, b: World, c: World)
    requires Calmer(a, b) && Calmer(b, c)
    ensures Calmer(a, c)
  {
  }

  lemma CalmerKeepsFit(a: World, b: World, t: Target, j: Journal)
    requires Calmer(a, b) && Quiet(a, t)
    ensures Quiet(b, t)
    ensures Fit(a, t, j) ==> Fit(b, t, j)
  {
  }

  // ---------- the effects a claim permits ----------

  /** Reopening: the durable mark is set and the recovery journal names this upgrade's pair. */
  predicate Reopens(w: World, t: Target) {
    && Open(w.journals, t) && w.journals[t].reopened && w.journals[t].phase == Reopening
    && NamesPair(w, w.journals[t])
    && w.active == Some(t) && Replaced(w.created, t, w.journals[t].plan)
  }

  predicate NamesPair(w: World, j: Journal) {
    w.local.Some? && w.local.value.cause.UpgradeFence? && w.local.value.backup == Some(j.backup)
  }

  /** Identity may change: the durable mark is set and the phase is the identity phase. */
  predicate Identifies(w: World, t: Target, j: Journal) {
    && t in w.journals && w.journals[t].identityStarted && w.journals[t].phase == Identifying && j.phase == Identifying
    && NamesPair(w, j)
  }

  /** The write-ahead discipline: what may be done to the runtime while j is the claim of t in memory. */
  predicate Permits(w: World, t: Target, j: Journal, e: Effect)
    requires t in w.journals
  {
    (Closing(e) && !(e.Deny? && BackupLine(w))) ||
    match e
    case WriteJournal(u, k) => u == t && k == j
    case WritePlan(u, _) => u == t
    case WriteActive(u) => u == t
    case WriteSnapshot(u, texts) => u == t && t !in w.snapshots && texts == w.journals[t].before.texts
    case SetReady(_) => Reopens(w, t)
    case SetPending(_) => Reopens(w, t)
    case SetLocal(n) =>
      if n.None? then w.journals[t].reopened
      else n.value.cause.UpgradeFence? && n.value.backup == Some(j.backup)
    case SetMaintenance(r) =>
      if r.None? then w.journals[t].reopened
      else r.value == j.run && w.maintenance in {None, Some(j.run)} && Closed(w) && !Exposed(w) && w.logins == {} && NamesPair(w, j)
    case Allow(role) =>
      w.journals[t].reopened || (role in AllowedRoles(w.journals, w.journals[t]) && role in AllowedRoles(w.journals, j))
    case StartActor(u) => u == t && w.journals[t].migrationStarted
    case ActorConnects => true
    case ActorCommits => true
    case ActorExits => true
    case StartKeycloak(u, _, _) => u == t && Identifies(w, t, j)
    case AlignRealm(_, _) => Identifies(w, t, j)
    case PutNotice => Identifies(w, t, j)
    case Create(_, u) => u == t
    case Start(s) => s == Postgres || (GateOpen(w) && w.journals[t].reopened)
    case _ => false
  }

  /** The tool's grip on the upgrade of t, whose claim in memory is j. */
  ghost predicate Grip(w: World, t: Target, j: Journal) {
    Fit(w, t, j) && Quiet(w, t)
  }

  lemma GripIsStable(a: World, b: World, t: Target, j: Journal)
    requires t in a.journals && Rely(a, b)
    ensures t in b.journals && (Grip(a, t, j) ==> Grip(b, t, j))
  {
    hide Fit, Quiet;
    if Grip(a, t, j) {
      FitIsStable(a, b, t, j);
      QuietIsStable(a, b, t);
    }
  }

  lemma GripIsCalm(a: World, b: World, t: Target, j: Journal)
    requires Grip(a, t, j) && Calmer(a, b)
    ensures Grip(b, t, j) && t in b.journals
  {
    hide Fit, Quiet;
    CalmerKeepsFit(a, b, t, j);
  }

  lemma WrittenIsGripped(w: World, v: World, t: Target, j: Journal)
    requires Grip(w, t, j) && v == w.(journals := w.journals[t := j])
    ensures Grip(v, t, j)
  {
    hide AllowedRoles, Preserved;
    OpenAfter(w.journals, v.journals, t);
    assert forall s, p :: Fixes(v.journals, s, p) <==> Fixes(w.journals, s, p);
    WrittenAllows(w, v, t, j);
  }

  lemma WrittenAllows(w: World, v: World, t: Target, j: Journal)
    requires Fit(w, t, j) && v == w.(journals := w.journals[t := j])
    ensures AllowedRoles(v.journals, j) == AllowedRoles(w.journals, j)
  {
  }

  lemma WriteKeepsGrip(w: World, v: World, t: Target, j: Journal)
    requires Inv(w) && Grip(w, t, j) && v == Perform(w, WriteJournal(t, j))
    ensures Lawfully(w, v) && Grip(v, t, j)
  {
    NextStays(w, t, j);
    hide Inv, Lawfully, Fit, Quiet;
    RewriteJournal(w, v, t, j);
    WrittenIsGripped(w, v, t, j);
  }

  lemma NextStays(w: World, t: Target, j: Journal)
    requires Inv(w) && Grip(w, t, j)
    ensures j.run < w.next && j.run == w.journals[t].run && j.backup == w.journals[t].backup
  {
  }

  predicate GateEffect(e: Effect) {
    e.SetReady? || e.SetPending? || e.SetLocal? || e.SetMaintenance?
  }

  lemma GateEffectIsGripped(w: World, t: Target, j: Journal, e: Effect)
    requires Grip(w, t, j) && Permits(w, t, j, e) && GateEffect(e)
    ensures Grip(Perform(w, e), t, j)
  {
  }

  lemma GateEffectIsLawful(w: World, v: World, t: Target, j: Journal, e: Effect)
    requires Inv(w) && Sole(w.journals, t) && Quiet(w, t) && Permits(w, t, j, e) && GateEffect(e) && !Closing(e)
    requires j.run == w.journals[t].run < w.next && j.backup == w.journals[t].backup && v == Perform(w, e)
    ensures Lawfully(w, v)
  {
    hide Inv, Lawfully, Sole;
    match e
    case SetReady(_) => OpenGate(w, v, t);
    case SetPending(_) => OpenGate(w, v, t);
    case SetLocal(n) =>
      if n.None? { DropLocal(w, v, t); } else { NameUpgradeFence(w, v, t, n.value.cause.phase); }
    case SetMaintenance(r) =>
      if r.Some? { EnterMaintenance(w, v, t); }
      else { ExitMaintenance(w, v); }
  }

  /** No permitted effect takes the identity fence from an upgrade that has touched identity. */
  lemma PermittedFreesNothing(w: World, t: Target, j: Journal, e: Effect)
    requires Grip(w, t, j) && Permits(w, t, j, e) && e.SetMaintenance?
    ensures !Frees(w, Perform(w, e))
  {
  }

  lemma GateKeepsGrip(w: World, v: World, t: Target, j: Journal, e: Effect)
    requires Inv(w) && Grip(w, t, j) && v == Perform(w, e) && Permits(w, t, j, e) && GateEffect(e) && !Closing(e)
    ensures Lawfully(w, v) && Grip(v, t, j)
  {
    NextStays(w, t, j);
    assert Sole(w.journals, t);
    GateEffectIsGripped(w, t, j, e);
    hide Inv, Lawfully, Sole, Fit, Quiet, Permits, Perform;
    GateEffectIsLawful(w, v, t, j, e);
  }

  lemma IdentityKeepsGrip(w: World, v: World, t: Target, j: Journal, e: Effect)
    requires Inv(w) && Grip(w, t, j) && v == Perform(w, e) && Permits(w, t, j, e)
    requires e.StartKeycloak? || e.AlignRealm? || e.PutNotice?
    ensures Lawfully(w, v) && Grip(v, t, j)
  {
    hide Inv, Lawfully;
    ChangeIdentity(w, v, t);
  }

  lemma RuntimeKeepsGrip(w: World, v: World, t: Target, j: Journal, e: Effect)
    requires Inv(w) && Grip(w, t, j) && Wired(w) && v == Perform(w, e) && Permits(w, t, j, e)
    requires e.WritePlan? || e.WriteActive? || e.WriteSnapshot? || e.Create?
    ensures Lawfully(w, v) && Grip(v, t, j)
  {
    hide Inv, Lawfully;
    match e
    case WritePlan(_, _) => QuieterIsLawful(w, v);
    case WriteActive(_) => SwitchTarget(w, v, t);
    case Create(_, _) => SwitchTarget(w, v, t);
    case WriteSnapshot(_, x) => WriteSnapshotOnce(w, v, t, x);
  }

  lemma AdmissionKeepsGrip(w: World, v: World, t: Target, j: Journal, e: Effect)
    requires Inv(w) && Grip(w, t, j) && v == Perform(w, e) && Permits(w, t, j, e)
    requires e.Allow? || e.Start?
    ensures Lawfully(w, v) && Grip(v, t, j)
  {
    hide Inv, Lawfully;
    match e
    case Allow(role) => AllowRole(w, v, role);
    case Start(s) => if s == Postgres { StartQuietService(w, v, s); } else { ServiceStartIsLawful(w, v); }
  }

  lemma ActorKeepsGrip(w: World, v: World, t: Target, j: Journal, e: Effect)
    requires Inv(w) && Grip(w, t, j) && v == Perform(w, e) && Permits(w, t, j, e)
    requires e.StartActor? || e.ActorConnects? || e.ActorCommits? || e.ActorExits?
    ensures Lawfully(w, v) && Grip(v, t, j)
  {
    hide Inv, Lawfully;
    if e.StartActor? {
      StartMigrationActor(w, v, t);
    } else {
      assert v == Nature(w, e);
      NatureIsLawful(w, e);
    }
  }

  /** While the tool has its grip nobody counts on a stale line. */
  lemma GripIsFresh(w: World, t: Target, j: Journal)
    requires Inv(w) && Grip(w, t, j)
    ensures !Stale(w)
  {
  }

  lemma ClosingKeepsGrip(w: World, v: World, t: Target, j: Journal, e: Effect)
    requires Inv(w) && Grip(w, t, j) && v == Perform(w, e) && Closing(e) && Wired(w) && !(e.Deny? && BackupLine(w))
    ensures Lawfully(w, v) && Grip(v, t, j)
  {
    GripIsFresh(w, t, j);
    hide Inv, Lawfully, Fit, Quiet;
    ClosingIsLawful(w, e);
    ClosingIsCalm(w, e);
    CalmerKeepsFit(w, v, t, j);
  }

  /** Every permitted effect obeys the rules of a run and keeps the grip. */
  lemma PermittedIsLawful(w: World, t: Target, j: Journal, e: Effect)
    requires Inv(w) && Grip(w, t, j) && Wired(w)
    requires Permits(w, t, j, e)
    ensures Lawfully(w, Perform(w, e)) && Grip(Perform(w, e), t, j)
  {
    hide Inv, Lawfully, Grip, Perform;
    if Closing(e) && !(e.Deny? && BackupLine(w)) {
      ClosingKeepsGrip(w, Perform(w, e), t, j, e);
    } else {
      match e {
        case WriteJournal(_, _) => WriteKeepsGrip(w, Perform(w, e), t, j);
        case WritePlan(_, _) => RuntimeKeepsGrip(w, Perform(w, e), t, j, e);
        case WriteActive(_) => RuntimeKeepsGrip(w, Perform(w, e), t, j, e);
        case WriteSnapshot(_, _) => RuntimeKeepsGrip(w, Perform(w, e), t, j, e);
        case Allow(_) => AdmissionKeepsGrip(w, Perform(w, e), t, j, e);
        case Create(_, _) => RuntimeKeepsGrip(w, Perform(w, e), t, j, e);
        case Start(_) => AdmissionKeepsGrip(w, Perform(w, e), t, j, e);
        case SetReady(_) => GateKeepsGrip(w, Perform(w, e), t, j, e);
        case SetPending(_) => GateKeepsGrip(w, Perform(w, e), t, j, e);
        case SetLocal(_) => GateKeepsGrip(w, Perform(w, e), t, j, e);
        case SetMaintenance(_) => GateKeepsGrip(w, Perform(w, e), t, j, e);
        case StartKeycloak(_, _, _) => IdentityKeepsGrip(w, Perform(w, e), t, j, e);
        case AlignRealm(_, _) => IdentityKeepsGrip(w, Perform(w, e), t, j, e);
        case PutNotice => IdentityKeepsGrip(w, Perform(w, e), t, j, e);
        case StartActor(_) => ActorKeepsGrip(w, Perform(w, e), t, j, e);
        case ActorConnects => ActorKeepsGrip(w, Perform(w, e), t, j, e);
        case ActorCommits => ActorKeepsGrip(w, Perform(w, e), t, j, e);
        case ActorExits => ActorKeepsGrip(w, Perform(w, e), t, j, e);
      }
    }
  }

  // ---------- stretches in which nothing but the tool moves ----------

  /** No product writer is left, and a migration actor that may be left can do nothing. */
  predicate Dormant(w: World) {
    Closed(w) && !Exposed(w) && !w.connected && (w.actor.None? || MigratorRole !in w.logins)
  }

  predicate NoWriterStarted(a: World, b: World) {
    Application in b.running ==> Application in a.running
  }

  /** Only services and a migration actor may have stopped by themselves. */
  predicate Same(a: World, b: World) {
    b == a.(running := b.running, actor := b.actor) && NoWriterStarted(a, b) && (b.actor == a.actor || b.actor.None?)
  }

  lemma SameJournals(a: World, b: World)
    requires Same(a, b)
    ensures b.journals == a.journals && b.logins == a.logins
  {
  }

  lemma DormantIsStill(a: World, b: World)
    requires Dormant(a) && Rely(a, b)
    ensures Same(a, b) && Dormant(b)
  {
  }

  /** The runtime is shut under this upgrade's own fences. */
  predicate Shuttered(w: World, j: Journal) {
    Dormant(w) && w.maintenance == Some(j.run) && NamesPair(w, j)
  }

  /** What must hold of a shut runtime before the next phase is written. */
  predicate MayEnter(w: World, t: Target, j: Journal, p: Phase) {
    && p in {Migrating, Reading, Identifying, Replacing, Reopening}
    && w.logins <= PhaseRoles(j.(phase := p))
    && (p in {Replacing, Reopening} ==> j.identityStarted && (j.reopened || Conserves(w, t, j)))
  }

  lemma PhaseFits(w: World, t: Target, j: Journal, p: Phase)
    requires Grip(w, t, j) && Shuttered(w, j) && w.journals[t] == j && Unfinished(j) && MayEnter(w, t, j, p)
    ensures Grip(w, t, j.(phase := p))
  {
  }

  /** A mark may be written ahead of what it announces. */
  lemma MarkFits(w: World, t: Target, j: Journal, k: Journal)
    requires Grip(w, t, j) && Shuttered(w, j) && w.journals[t] == j && Unfinished(j)
    requires (j.phase == Migrating && w.logins == {} && k == j.(migrationStarted := true)) ||
             (j.phase == Identifying && w.logins <= {KeycloakRole} && k == j.(identityStarted := true)) ||
             (j.phase == Reopening && j.identityStarted && w.logins <= {KeycloakRole} && k == j.(reopened := true)
              && (j.reopened || Conserves(w, t, j)))
    ensures Grip(w, t, k)
  {
  }

  // ---------- the migration ----------

  /** The target's Flyway has nothing left to do and nothing to object to. */
  predicate Migrated(history: seq<Row>, files: seq<Migration>) {
    && files != [] && FlywayDelta(history, files).Ok?
    && FlywayDelta(history, files).value.pending == []
    && FlywayDelta(history, files).value.currentVersion == Some(FlywayDelta(history, files).value.targetVersion)
  }

  predicate Acceptable(history: seq<Row>, files: seq<Migration>) {
    files != [] && FlywayDelta(history, files).Ok?
  }

  /** A history that its target's Flyway accepts, wherever an interrupted actor left it. */
  predicate CanMigrate(history: seq<Row>, files: seq<Migration>) {
    files != [] && |history| <= |files| <= BOUND && Increasing(FileVersions(files)) && Prefix(history, files)
  }

  lemma PrefixIsAccepted(history: seq<Row>, files: seq<Migration>)
    requires CanMigrate(history, files)
    ensures Acceptable(history, files)
    ensures FlywayDelta(history, files).value.pending == [] <==> |history| == |files|
    ensures |history| == |files| ==> Migrated(history, files)
  {
    hide FlywayDelta, SplitAt, Prefix, Increasing;
    PrefixIsSplit(history, files);
    SplitIsAccepted(history, files, |history|);
    assert |files[|history|..]| == |Scripts(files[|history|..])|;
    if |history| == |files| {
      WholePrefixEnds(history, files);
    }
  }

  lemma WholePrefixEnds(history: seq<Row>, files: seq<Migration>)
    requires files != [] && Prefix(history, files) && |history| == |files| && FlywayDelta(history, files).Ok?
    ensures FlywayDelta(history, files).value.currentVersion == Some(FlywayDelta(history, files).value.targetVersion)
  {
    hide CheckRows, Pending, InOrder;
    assert Matches(history[|history|-1], files[|files|-1]);
  }

  /** Beside the journal of t, journals and pairs are still the ones of a. */
  ghost predicate Beside(a: World, b: World, t: Target) {
    t in b.journals && b.journals == a.journals[t := b.journals[t]] && b.pairs == a.pairs
  }

  /** Only what a migration actor does has moved. */
  predicate MovedHistory(a: World, b: World) {
    b == a.(running := b.running, history := b.history, actor := b.actor, connected := b.connected, logins := b.logins)
    && NoWriterStarted(a, b)
  }

  /** Only the claim and what a migration actor does have moved. */
  predicate MovedMigration(a: World, b: World) {
    b == a.(journals := b.journals, next := b.next, running := b.running, history := b.history,
            actor := b.actor, connected := b.connected)
  }

  lemma SameThenMoved(a: World, b: World, c: World)
    requires Same(a, b) && MovedMigration(b, c)
    ensures MovedMigration(a, c) && b.history == a.history
  {
  }

  lemma ConnectPerforms(a: World)
    ensures var v := Perform(a, ActorConnects); v == a.(connected := v.connected)
  {
  }

  lemma CommitPerforms(a: World)
    ensures var v := Perform(a, ActorCommits); v == a.(history := v.history)
  {
    hide NextRow, Inventory, Prefix, Increasing, FileVersions;
    if CanCommit(a) {
      assert Perform(a, ActorCommits) == a.(history := a.history + [NextRow(a.history, Inventory(a))]);
    }
  }

  lemma ActorPerforms(a: World, v: World, e: Effect)
    requires v == Perform(a, e) && (e == ActorConnects || e == ActorCommits || e == ActorExits)
    ensures v == a.(history := v.history, actor := v.actor, connected := v.connected)
    ensures e == ActorExits ==> v.actor.None? && !v.connected
  {
    ConnectPerforms(a);
    CommitPerforms(a);
    assert Perform(a, ActorExits) == a.(actor := None, connected := false);
    hide Perform;
  }

  lemma ActorMovesHistory(a: World, b: World, e: Effect)
    requires Closed(a) && !Exposed(a) && Rely(Perform(a, e), b)
    requires e == ActorConnects || e == ActorCommits || e == ActorExits
    ensures MovedHistory(a, b) && b.logins == a.logins && (e == ActorExits ==> b.actor.None? && !b.connected)
  {
    ActorPerforms(a, Perform(a, e), e);
    hide Perform;
  }

  /** The actor of t runs, may log in, and finds a history it accepts. */
  predicate CanWork(w: World, t: Target, j: Journal) {
    && w.actor == Some(t) && MigratorRole in w.logins
    && t in w.journals && w.journals[t].plan == j.plan && CanMigrate(w.history, j.plan.inventory)
  }

  /** Every migration of the inventory is committed, and the actor is gone. */
  predicate AllCommitted(a: World, b: World, j: Journal) {
    CanMigrate(b.history, j.plan.inventory) && |b.history| == |j.plan.inventory| && b.actor.None? && b.running == a.running
  }

  /** Flyway is current and nothing else has stopped or started. */
  predicate UpToDate(a: World, b: World, j: Journal) {
    && Migrated(b.history, j.plan.inventory) && CanMigrate(b.history, j.plan.inventory)
    && b.actor.None? && b.running == a.running
  }

  lemma WorkCommits(w: World, t: Target, j: Journal)
    requires CanWork(w, t, j) && w.connected && |w.history| < |j.plan.inventory|
    ensures var v := Perform(w, ActorCommits);
      CanWork(v, t, j) && v.connected && v.running == w.running && |v.history| == |w.history| + 1
  {
    NextRowKeepsOrder(w.history, j.plan.inventory);
  }

  // ---------- identity ----------

  /** Only identity, the notice snapshot, the claim and the roles have moved. */
  predicate MovedIdentity(a: World, b: World) {
    && b == a.(journals := b.journals, next := b.next, snapshots := b.snapshots, logins := b.logins, running := b.running,
               actor := b.actor, digests := b.digests, schema := b.schema, session := b.session, keycloak := b.keycloak)
    && (a.actor.None? ==> b.actor.None?)
  }

  /** The live notice is one of the two reviewed ones, over the texts an earlier snapshot kept. */
  predicate NoticeAligns(w: World, t: Target) {
    && w.digests.texts.notice in {LEGACY, APPROVED}
    && (t in w.snapshots ==> Aligned(w.snapshots[t]) == Aligned(w.digests.texts))
  }

  /** What an undisturbed identity phase needs to find. */
  predicate IdentityIsReady(w: World, t: Target, j: Journal) {
    && (j.reopened || Preserved(j.before, w.digests, j.plan.notice))
    && (j.plan.notice ==> NoticeAligns(w, t) && (t in w.snapshots || w.digests.texts == j.before.texts))
  }

  lemma ReadyIsKept(a: World, b: World, t: Target, j: Journal, k: Journal)
    requires IdentityIsReady(a, t, j) && b.digests == a.digests && b.snapshots == a.snapshots
    requires k == j.(identityStarted := k.identityStarted)
    ensures IdentityIsReady(b, t, k) && (k.reopened || b.digests.accounts == k.before.accounts)
  {
  }

  /** Texts were kept for this target only, and only where the notice migrates. */
  predicate KeptOwn(a: map<Target, Texts>, b: map<Target, Texts>, t: Target, notice: bool) {
    if notice then t in b && b == a[t := b[t]] else b == a
  }

  /** What the identity phase must leave: the reviewed session policy, and preserved identity under an approved notice. */
  predicate IdentityHolds(w: World, t: Target, j: Journal) {
    && w.session == j.plan.session
    && (j.reopened || Preserved(j.before, w.digests, j.plan.notice))
    && NoticeSettled(w, t, j.plan)
  }

  /** Only containers were recreated and the pointer moved. */
  predicate MovedContainers(a: World, b: World) {
    && b == a.(created := b.created, active := b.active, running := b.running, actor := b.actor)
    && NoWriterStarted(a, b) && (a.actor.None? ==> b.actor.None?)
  }

  // ---------- the runtime in service ----------

  /** Everything an upgrade has to bring about before its doors open. */
  predicate Switchable(w: World, t: Target, j: Journal) {
    && t in w.journals && w.journals[t] == j && w.active == Some(t) && Replaced(w.created, t, j.plan)
    && w.keycloak == Some(t) && w.session == j.plan.session && NoticeSettled(w, t, j.plan)
    && w.actor.None? && !w.connected && Migrated(w.history, j.plan.inventory)
  }

  /** The target serves the product. */
  predicate InService(w: World, t: Target, j: Journal) {
    Switchable(w, t, j) && j.reopened && GateOpen(w) && w.local.None? && w.logins == ROLES
  }

  /** The product with everything it cannot do without. */
  predicate Essential(running: set<Service>) {
    && Application in running && Caddy in running && Keycloak in running && Postgres in running
    && Telemetry in running && Prometheus in running && NodeExporter in running && Blackbox in running
  }

  /** Every service of the runtime. */
  predicate Up(running: set<Service>) {
    Essential(running) && Localizer in running && Grafana in running
  }

  /** No writer and no way in: what the canonical fence stops. */
  predicate Down(running: set<Service>) {
    Application !in running && Caddy !in running && Keycloak !in running && Grafana !in running
  }

  /** No other identity-maintenance run holds the fence. */
  predicate OwnOrNone(w: World, j: Journal) {
    w.maintenance.None? || w.maintenance == Some(j.run)
  }

  /** The one final state of a completed upgrade. */
  predicate Completed(w: World, t: Target, j: Journal) {
    InService(w, t, j) && j.status == Complete && j.phase == Finished && w.maintenance.None?
  }

  lemma SwitchableIsStable(a: World, b: World, t: Target, j: Journal)
    requires Switchable(a, t, j) && Rely(a, b)
    ensures Switchable(b, t, j) && (InService(a, t, j) ==> InService(b, t, j)) && b.maintenance == a.maintenance
  {
    hide Migrated, Replaced;
  }

  /** The claim moves on while its target serves. */
  lemma ServiceFits(w: World, t: Target, j: Journal, k: Journal)
    requires Grip(w, t, j) && InService(w, t, j)
    requires k == j.(status := k.status, phase := k.phase)
    requires (k.status == Running && k.phase in {Activation, Smoke, Finalizing}) || (k.status == Complete && k.phase == Finished)
    ensures Grip(w, t, k)
  {
    hide Migrated;
  }

  /** A failure may be recorded from anywhere. */
  lemma FailureFits(w: World, t: Target, j: Journal)
    requires Grip(w, t, j)
    ensures Grip(w, t, j.(status := Failed))
  {
  }

  /** What an undisturbed run needs to find: no orphan, an acceptable history, identity as recorded, a database. */
  predicate Undisturbed(w: World, t: Target, j: Journal) {
    w.actor.None? && CanMigrate(w.history, j.plan.inventory) && IdentityIsReady(w, t, j) && Postgres in w.running
  }

  // ---------- refencing ----------

  /** Doors, roles, services and sessions aside, only the host's own writes have moved. */
  predicate Refenced(a: World, b: World) {
    && b == a.(ready := b.ready, pending := b.pending, local := b.local, logins := b.logins, running := b.running,
            history := b.history, actor := b.actor, connected := b.connected, digests := b.digests,
            written := b.written, maintenance := b.maintenance, next := b.next)
    && a.written <= b.written
  }

  // ---------- taking up an upgrade ----------

  /** Another upgrade is unfinished too, as a forward fix killed before it superseded its predecessor leaves it. */
  predicate Contested(js: Journals, t: Target) {
    exists s :: s in js && s != t && Unfinished(js[s])
  }

  /** Going on here would serve users on a pair that the other unfinished upgrade goes on counting on. */
  predicate Rival(w: World, t: Target)
    requires t in w.journals
  {
    Contested(w.journals, t) && !w.journals[t].reopened && FenceContinuous(w, w.journals[t])
  }

  lemma UncontestedIsSole(js: Journals, t: Target)
    requires OneAtATime(js) && Open(js, t) && (!Contested(js, t) || js[t].reopened)
    ensures Sole(js, t)
  {
  }

  /** The journal on disk is always one the tool may go on from. */
  lemma OwnJournalFits(w: World, t: Target, status: Status)
    requires Inv(w) && Sole(w.journals, t) && Open(w.journals, t) && (status == Running || status == Failed)
    ensures Fit(w, t, w.journals[t].(status := status))
  {
    var j := w.journals[t];
    if Sealed(w, j) {
      assert HeldBy(w, j);
    }
  }

  /** fence_continuous is sound: where it answers yes, nothing was written since the pair and nothing can be. */
  lemma ContinuousIsQuiet(w: World, t: Target)
    requires Inv(w) && Open(w.journals, t) && !w.journals[t].reopened && FenceContinuous(w, w.journals[t])
    ensures !Exposed(w) && w.journals[t].backup !in w.written
  {
    var j := w.journals[t];
    if w.local.value.cause == Quiescing {
      assert Sealed(w, j);
      assert HeldBy(w, j);
    } else {
      assert Proves(w, w.local.value.cause, j.backup);
      assert !ReopenedPair(w.journals, j.backup);
      assert Relied(w.journals, j.backup);
    }
  }

  /** The recovery point still is the last write, or product writes were let in on purpose. */
  predicate Startable(w: World, t: Target)
    requires t in w.journals
  {
    w.journals[t].reopened || FenceContinuous(w, w.journals[t])
  }

  lemma ResumeIsGripped(w: World, t: Target)
    requires Inv(w) && Open(w.journals, t) && !Rival(w, t)
    requires Startable(w, t)
    ensures Grip(w, t, w.journals[t].(status := Running))
  {
    UncontestedIsSole(w.journals, t);
    OwnJournalFits(w, t, Running);
    hide Inv, Fit;
    if !w.journals[t].reopened {
      ContinuousIsQuiet(w, t);
    }
  }

  /** Journals, gate, identity fence and recovery journal have not moved. */
  predicate SameFences(a: World, b: World) {
    && b.journals == a.journals && b.ready == a.ready && b.pending == a.pending
    && b.local == a.local && b.maintenance == a.maintenance
  }

  lemma LookKeepsFences(a: World, b: World, e: Effect)
    requires Rely(Perform(a, e), b) && (e == Effect.Look || e == Start(Postgres))
    ensures SameFences(a, b) && b.pairs == a.pairs && (a.actor.None? ==> b.actor.None?)
  {
  }

  lemma FencesAreTransitive(a: World, b: World, c: World)
    requires SameFences(a, b) && SameFences(b, c)
    ensures SameFences(a, c)
  {
  }

  /** A resume that gets past its first checks although a rival counts on the same pair. */
  predicate ResumesRival(w: World, t: Target, plan: Plan) {
    Open(w.journals, t) && w.journals[t].plan == plan && t in w.plans && w.plans[t] == plan && Rival(w, t)
  }

  /** What an undisturbed resume needs to find. */
  predicate Resumable(w: World, t: Target, plan: Plan) {
    && Open(w.journals, t) && w.journals[t].plan == plan && t in w.plans && w.plans[t] == plan
    && OwnOrNone(w, w.journals[t])
    && Startable(w, t)
    && w.actor.None? && CanMigrate(w.history, plan.inventory) && IdentityIsReady(w, t, w.journals[t])
  }

  lemma ResumableIsUndisturbed(a: World, b: World, t: Target, plan: Plan, j: Journal)
    requires Resumable(a, t, plan) && j == a.journals[t].(status := Running)
    requires b == a.(journals := b.journals, next := b.next, running := b.running) && Postgres in b.running
    ensures OwnOrNone(b, j) && Undisturbed(b, t, j)
  {
  }

  // ---------- first claims ----------

  predicate AnyUnfinished(js: Journals) {
    exists s :: s in js && Unfinished(js[s])
  }

  function LastVersion(history: seq<Row>): Option<string> {
    if history == [] then None else Some(history[|history|-1].version)
  }

  /** The database identities are still the pair's own. */
  predicate SameSchemas(w: World, b: BackupId) {
    b in w.pairs && LastVersion(w.history) == LastVersion(w.pairs[b].history) && w.schema == w.pairs[b].schema
  }

  /** verify_fence: the backup's own fence is still closed, nothing can log in, nothing runs, nothing advanced. */
  predicate VerifiedFence(w: World, b: BackupId) {
    && Closed(w) && w.maintenance.None? && w.local == Some(Notice(BackupFence, Some(b)))
    && w.logins == {} && !w.connected && SameSchemas(w, b)
    && w.running * FENCE_STOPPED == {} && w.actor.None?
  }

  function FirstRecord(w: World, plan: Plan, b: BackupId): Journal {
    Journal(Running, Claimed, w.next, b, w.digests, plan, false, false, false, None)
  }

  lemma FirstClaimIsLawful(w: World, t: Target, plan: Plan, b: BackupId)
    requires Inv(w) && Vacant(w.journals, t) && !AnyUnfinished(w.journals) && VerifiedFence(w, b)
    ensures var v := Perform(w, WriteJournal(t, FirstRecord(w, plan, b)));
      Lawfully(w, v) && Grip(v, t, FirstRecord(w, plan, b)) && Dormant(v) && v.logins == {} && v.running == w.running
  {
    var j := FirstRecord(w, plan, b);
    var v := Perform(w, WriteJournal(t, j));
    hide Inv, Lawfully;
    ClaimJournal(w, v, t, j);
    assert Inv(v) by { LawfullyInv(w, v); }
    OpenAfter(w.journals, v.journals, t);
    assert Sole(v.journals, t);
    OwnJournalFits(v, t, Running);
    ContinuousIsQuiet(v, t);
    assert Grip(v, t, j);
  }

  lemma LawfullyInv(w: World, v: World)
    requires Lawfully(w, v)
    ensures Inv(v)
  {
    hide Inv, Step;
  }

  /** What an undisturbed first claim needs to find. */
  predicate Appliable(w: World, t: Target, plan: Plan, b: BackupId) {
    && Vacant(w.journals, t) && !AnyUnfinished(w.journals) && VerifiedFence(w, b)
    && CanMigrate(w.history, plan.inventory) && Postgres in w.running
    && (plan.notice ==> NoticeAligns(w, t))
  }

  lemma VerifiedIsDormant(w: World, b: BackupId)
    requires VerifiedFence(w, b)
    ensures Dormant(w) && Down(w.running)
  {
    StoppedIsDown(w.running);
  }

  lemma StoppedIsDown(running: set<Service>)
    ensures Down(running - FENCE_STOPPED)
    ensures running * FENCE_STOPPED == {} ==> Down(running)
  {
    if running * FENCE_STOPPED == {} {
      forall s | s in FENCE_STOPPED ensures s !in running {
        if s in running { assert s in running * FENCE_STOPPED; }
      }
    }
  }

  lemma AppliableIsUndisturbed(a: World, b: World, t: Target, plan: Plan, backup: BackupId, j: Journal)
    requires Appliable(a, t, plan, backup) && j == FirstRecord(a, plan, backup)
    requires b.history == a.history && b.actor.None? && b.digests == a.digests && b.snapshots == a.snapshots
    requires b.running == a.running
    ensures Undisturbed(b, t, j)
  {
    hide CanMigrate, VerifiedFence;
  }

  // ---------- forward fixes ----------

  function FixRecord(pred: Journal, p: Target, plan: Plan): Journal {
    Journal(Running, Claimed, pred.run, pred.backup, pred.before, plan, false, false, pred.reopened, Some(p))
  }

  predicate Fixable(js: Journals, t: Target, p: Target) {
    t != p && Vacant(js, t) && Open(js, p) && js[p].migrationStarted && !Contested(js, p)
  }

  /** What the notice baseline of a fix must be before it claims: its predecessor's, or none. */
  predicate Carried(w: World, t: Target, p: Target) {
    && (p in w.snapshots ==> t in w.snapshots && w.snapshots[t] == w.snapshots[p])
    && (p !in w.snapshots ==> t !in w.snapshots)
  }

  lemma FixClaimIsLawful(w: World, t: Target, p: Target, plan: Plan)
    requires Inv(w) && Fixable(w.journals, t, p) && Carried(w, t, p)
    ensures var j := FixRecord(w.journals[p], p, plan); var v := Perform(w, WriteJournal(t, j));
      Lawfully(w, v) && v == w.(journals := w.journals[t := j])
  {
    var j := FixRecord(w.journals[p], p, plan);
    var v := Perform(w, WriteJournal(t, j));
    assert j.run < w.next;
    assert forall s :: Open(w.journals, s) ==> s == p;
    hide Inv, Lawfully;
    ClaimForwardFix(w, v, t, j, p);
  }

  /** The predecessor's journal as the tool supersedes it. */
  function Superseding(pred: Journal): Journal {
    pred.(status := Superseded)
  }

  lemma SupersedeIsLawful(w: World, t: Target, p: Target)
    requires Inv(w) && t != p && Open(w.journals, p) && Open(w.journals, t)
    requires forall s :: Open(w.journals, s) ==> s == t || s == p
    requires w.journals[t].reopened || (!Exposed(w) && w.journals[t].backup !in w.written)
    requires w.journals[t].status == Running
    ensures var v := Perform(w, WriteJournal(p, Superseding(w.journals[p])));
      Lawfully(w, v) && Grip(v, t, w.journals[t]) && v == w.(journals := w.journals[p := Superseding(w.journals[p])])
      && v.journals[t] == w.journals[t]
  {
    var v := Perform(w, WriteJournal(p, Superseding(w.journals[p])));
    assert w.journals[p].run < w.next;
    hide Inv, Lawfully;
    RetireJournal(w, v, p, Superseded);
    assert Inv(v) by { LawfullyInv(w, v); }
    OpenAfter(w.journals, v.journals, p);
    OwnJournalFits(v, t, Running);
  }

  // ---------- abandoning ----------

  /** Nothing irreversible has begun, and nothing is left running that could. */
  predicate Abandonable(w: World, t: Target) {
    && Open(w.journals, t) && !w.journals[t].identityStarted && w.journals[t].predecessor.None?
    && w.actor.None? && SameSchemas(w, w.journals[t].backup)
  }

  /** What an undisturbed abandon needs to find. */
  predicate Quittable(w: World, t: Target) {
    Abandonable(w, t) && (FenceContinuous(w, w.journals[t]) ==> OwnOrNone(w, w.journals[t]))
  }

  lemma AbandonableIsPristine(w: World, t: Target)
    requires Inv(w) && Abandonable(w, t)
    ensures Pristine(w.journals[t])
    ensures w.history == w.pairs[w.journals[t].backup].history && w.schema == w.pairs[w.journals[t].backup].schema
  {
    SameLastVersion(w.pairs[w.journals[t].backup].history, w.history);
  }

  /** An unfinished upgrade's recovery point is still good. */
  predicate PairIsQuiet(w: World, j: Journal) {
    j.reopened || (!Exposed(w) && j.backup !in w.written)
  }

  lemma StartableIsQuiet(w: World, t: Target)
    requires Inv(w) && Open(w.journals, t) && Startable(w, t)
    ensures PairIsQuiet(w, w.journals[t])
  {
    hide Inv;
    if !w.journals[t].reopened { ContinuousIsQuiet(w, t); }
  }

  /** The notice baseline that a forward fix may carry from its predecessor. */
  predicate CanCarry(w: World, t: Target, p: Target, plan: Plan)
    requires p in w.journals
  {
    if p !in w.snapshots then w.journals[p].before.texts == w.digests.texts && t !in w.snapshots
    else plan.notice && w.snapshots[p].notice in {LEGACY, APPROVED} && (t in w.snapshots ==> w.snapshots[t] == w.snapshots[p])
  }

  lemma RelyKeepsQuiet(a: World, b: World)
    requires Rely(a, b)
    ensures forall j :: PairIsQuiet(a, j) ==> PairIsQuiet(b, j)
    ensures b.journals == a.journals && b.snapshots == a.snapshots
  {
  }

  /** The kept texts once a fix has carried its predecessor's. */
  function CarriedSnapshots(w: World, t: Target, p: Target): map<Target, Texts> {
    if p in w.snapshots then w.snapshots[t := w.snapshots[p]] else w.snapshots
  }

  /** What an undisturbed forward fix needs to find. */
  predicate FixReady(w: World, t: Target, p: Target, plan: Plan) {
    && Fixable(w.journals, t, p) && Startable(w, p) && CanCarry(w, t, p, plan) && OwnOrNone(w, w.journals[p])
    && w.actor.None? && CanMigrate(w.history, plan.inventory) && Postgres in w.running
    && IdentityIsReady(w.(snapshots := CarriedSnapshots(w, t, p)), t, FixRecord(w.journals[p], p, plan))
  }

  lemma FixReadyIsUndisturbed(a: World, b: World, t: Target, p: Target, plan: Plan, j: Journal)
    requires FixReady(a, t, p, plan) && j == FixRecord(a.journals[p], p, plan)
    requires b == a.(journals := b.journals, next := b.next, plans := b.plans, snapshots := CarriedSnapshots(a, t, p))
    ensures OwnOrNone(b, j) && Undisturbed(b, t, j)
  {
  }

  function Abandoning(j: Journal): Journal {
    j.(status := Abandoned)
  }

  lemma AbandonIsLawful(w: World, t: Target)
    requires Inv(w) && Abandonable(w, t)
    ensures var v := Perform(w, WriteJournal(t, Abandoning(w.journals[t])));
      Lawfully(w, v) && v == w.(journals := w.journals[t := Abandoning(w.journals[t])])
  {
    assert w.journals[t].run < w.next;
    AbandonableIsPristine(w, t);
    hide Inv, Lawfully;
    RetireJournal(w, Perform(w, WriteJournal(t, Abandoning(w.journals[t]))), t, Abandoned);
  }

  lemma NameBackIsLawful(w: World, t: Target)
    requires Inv(w) && Abandonable(w, t)
    requires Dormant(w) && w.journals[t].backup !in w.written
    ensures Lawfully(w, Perform(w, SetLocal(Some(Notice(BackupFence, Some(w.journals[t].backup))))))
  {
    AbandonableIsPristine(w, t);
    hide Inv, Lawfully;
    NameBackupFence(w, Perform(w, SetLocal(Some(Notice(BackupFence, Some(w.journals[t].backup))))), t);
  }

  lemma LetGoIsLawful(w: World, t: Target)
    requires Inv(w) && Abandonable(w, t)
    ensures Lawfully(w, Perform(w, SetMaintenance(None))) && !Frees(w, Perform(w, SetMaintenance(None)))
  {
    AbandonableIsPristine(w, t);
    NobodyTouchedIdentity(w, t);
    hide Inv, Lawfully;
    ExitMaintenance(w, Perform(w, SetMaintenance(None)));
  }

  lemma NobodyTouchedIdentity(w: World, t: Target)
    requires Inv(w) && Open(w.journals, t) && Pristine(w.journals[t])
    ensures forall s :: !Half(w.journals, s)
  {
    hide Inv;
    forall s | Open(w.journals, s) ensures !Half(w.journals, s) {
      if s != t { FixIsIdle(w, t, s); }
    }
  }

  /** The backup's own fence stands again over exactly what the pair captured. */
  predicate Restored(w: World, b: BackupId) {
    && Closed(w) && !Exposed(w) && w.logins == {} && !w.connected && w.maintenance.None?
    && w.local == Some(Notice(BackupFence, Some(b)))
    && b in w.pairs && b !in w.written
    && w.history == w.pairs[b].history && w.schema == w.pairs[b].schema && w.digests == w.pairs[b].digests
  }

  lemma RestoredIsExact(w: World, b: BackupId)
    requires Inv(w) && w.local == Some(Notice(BackupFence, Some(b))) && SameSchemas(w, b)
    requires Closed(w) && w.logins == {} && !w.connected && w.maintenance.None?
    ensures Restored(w, b)
  {
    SameLastVersion(w.pairs[b].history, w.history);
    assert Proves(w, BackupFence, b);
  }
}
