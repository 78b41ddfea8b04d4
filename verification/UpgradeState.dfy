/**
 * The durable state of an installed runtime during in-place upgrades, the atomic effects that
 * change it, and what must hold of it at every instant. Every effect is one that a SIGKILL can
 * follow immediately.
 */
module UpgradeState {
  import opened Common
  import opened Flyway

  type Target = nat      // a full source SHA
  type Run = nat         // a runUuid
  type BackupId = nat

  datatype Role = AppRole | MigratorRole | KeycloakRole | ReaderRole

  datatype Service = Application | Blackbox | Caddy | Localizer | Grafana | Keycloak
    | NodeExporter | Postgres | Prometheus | Telemetry

  const ROLES: set<Role> := {AppRole, MigratorRole, KeycloakRole, ReaderRole}
  const FENCE_STOPPED: set<Service> := {Caddy, Application, Keycloak, Grafana}

  /** Localization texts: the one registration notice, and everything else in every locale. */
  datatype Texts = Texts(notice: nat, others: nat)

  /** The identity digests: account tables, localizations, every other configuration table. */
  datatype Digests = Digests(accounts: nat, texts: Texts, others: nat)

  const LEGACY: nat := 0
  const APPROVED: nat := 1

  function Aligned(texts: Texts): Texts {
    texts.(notice := APPROVED)
  }

  /** The reviewed plan a claim is bound to; its hash identifies it. */
  datatype Plan = Plan(inventory: seq<Migration>, session: nat, notice: bool, changed: seq<Service>)

  datatype Status = Running | Failed | Complete | Abandoned | Superseded

  datatype Phase = Claimed | Migrating | Reading | Identifying | Replacing | Reopening
    | Activation | Smoke | Finalizing | Finished

  datatype Journal = Journal(status: Status, phase: Phase, run: Run, backup: BackupId,
                             before: Digests, plan: Plan,
                             migrationStarted: bool, identityStarted: bool, reopened: bool,
                             predecessor: Option<Target>)

  type Journals = map<Target, Journal>

  datatype Cause = Quiescing | BackupFence | UpgradeFence(phase: Phase)

  /** The local recovery journal PENDING.json. */
  datatype Notice = Notice(cause: Cause, backup: Option<BackupId>)

  /** What a canonical pair captured. */
  datatype Pair = Pair(history: seq<Row>, schema: nat, digests: Digests)

  datatype World = World(
    journals: Journals,
    plans: map<Target, Plan>,
    snapshots: map<Target, Texts>,      // registration-notice.json of a target
    active: Option<Target>,             // ACTIVE.json
    ready: bool, pending: bool,         // READY and PENDING.json in the gate volume
    maintenance: Option<Run>,           // IDENTITY-MAINTENANCE.json in the gate volume
    local: Option<Notice>,              // PENDING.json of the recovery actor
    logins: set<Role>,
    running: set<Service>,
    created: map<Service, Target>,      // the target whose definition a container was created from
    keycloak: Option<Target>,           // the target whose Keycloak was started last
    history: seq<Row>, schema: nat, digests: Digests, session: nat,
    actor: Option<Target>, connected: bool,   // a migration actor, and its database session
    pairs: map<BackupId, Pair>,
    written: set<BackupId>,             // pairs older than some product write
    next: nat)                          // above every identifier in use

  // ---------- observations ----------

  predicate GateOpen(w: World) {
    w.ready && !w.pending
  }

  predicate Closed(w: World) {
    !w.ready && w.pending
  }

  predicate Unfinished(j: Journal) {
    j.status == Running || j.status == Failed
  }

  predicate Open(js: Journals, t: Target) {
    t in js && Unfinished(js[t])
  }

  /** Whether a product write may still reach a database. */
  predicate Exposed(w: World) {
    GateOpen(w) || Application in w.running
  }

  predicate FenceContinuous(w: World, j: Journal) {
    && Closed(w)
    && w.local.Some?
    && if w.local.value.cause == Quiescing then w.maintenance == Some(j.run)
       else w.local.value.backup == Some(j.backup)
  }

  /** No superseded container of a changed persistent service is left. */
  predicate Replaced(created: map<Service, Target>, t: Target, plan: Plan) {
    forall s :: s in plan.changed && s != Keycloak ==> s in created && created[s] == t
  }

  predicate Preserved(before: Digests, after: Digests, notice: bool) {
    && before.accounts == after.accounts
    && before.others == after.others
    && (!notice ==> before.texts == after.texts)
  }

  /** Where the notice migrates, the live texts are the kept ones with that one notice approved. */
  predicate NoticeSettled(w: World, t: Target, plan: Plan) {
    plan.notice ==> t in w.snapshots && w.digests.texts == Aligned(w.snapshots[t])
  }

  /** Identity is what the claim recorded, up to the one approved notice. */
  predicate Conserves(w: World, t: Target, j: Journal) {
    Preserved(j.before, w.digests, j.plan.notice) && NoticeSettled(w, t, j.plan)
  }

  // ---------- effects ----------

  datatype Effect =
    | WriteJournal(target: Target, journal: Journal)
    | WritePlan(target: Target, plan: Plan)
    | WriteActive(target: Target)
    | WriteSnapshot(target: Target, texts: Texts)
    | SetReady(ready: bool)
    | SetPending(pending: bool)
    | SetLocal(notice: Option<Notice>)
    | SetMaintenance(run: Option<Run>)
    | Allow(role: Role)
    | Deny(role: Role)
    | StopWriters
    | EndSessions
    | StartActor(target: Target)
    | ActorConnects
    | ActorCommits
    | ActorExits
    | StartKeycloak(target: Target, digests: Digests, schema: nat)
    | AlignRealm(digests: Digests, session: nat)
    | PutNotice
    | Create(service: Service, target: Target)
    | Start(service: Service)
    | Stop(service: Service)
    | Capture
    | UserWrite(accounts: nat)
    | Look            // an observation, or a call that changes nothing modelled here

  function Inventory(w: World): seq<Migration> {
    if w.actor.Some? && w.actor.value in w.journals then w.journals[w.actor.value].plan.inventory else []
  }

  /** A connected actor's Flyway has a next migration it accepts to commit. */
  predicate CanCommit(w: World) {
    var files := Inventory(w);
    w.connected && |w.history| < |files| && Prefix(w.history, files) && Increasing(FileVersions(files))
  }

  function Perform(w: World, e: Effect): World {
    match e
    case WriteJournal(t, j) => w.(journals := w.journals[t := j], next := if j.run < w.next then w.next else j.run + 1)
    case WritePlan(t, p) => w.(plans := w.plans[t := p])
    case WriteActive(t) => w.(active := Some(t))
    case WriteSnapshot(t, texts) => w.(snapshots := w.snapshots[t := texts])
    case SetReady(b) => w.(ready := b)
    case SetPending(b) => w.(pending := b)
    case SetLocal(n) => w.(local := n)
    case SetMaintenance(r) => w.(maintenance := r, next := if r.Some? && w.next <= r.value then r.value + 1 else w.next)
    case Allow(role) => w.(logins := w.logins + {role})
    case Deny(role) => w.(logins := w.logins - {role})
    case StopWriters => w.(running := w.running - FENCE_STOPPED)
    case EndSessions => w.(connected := false)
    case StartActor(t) => w.(actor := Some(t), connected := false)
    case ActorConnects => if w.actor.Some? && MigratorRole in w.logins then w.(connected := true) else w
    case ActorCommits => if CanCommit(w) then w.(history := w.history + [NextRow(w.history, Inventory(w))]) else w
    case ActorExits => w.(actor := None, connected := false)
    case StartKeycloak(t, d, s) => w.(keycloak := Some(t), digests := d, schema := s, running := w.running + {Keycloak})
    case AlignRealm(d, s) => w.(digests := d, session := s)
    case PutNotice => w.(digests := w.digests.(texts := Aligned(w.digests.texts)))
    case Create(s, t) => w.(created := w.created[s := t])
    case Start(s) => w.(running := w.running + {s})
    case Stop(s) => w.(running := w.running - {s})
    case Capture => w.(pairs := w.pairs[w.next := Pair(w.history, w.schema, w.digests)], next := w.next + 1)
    case UserWrite(a) => w.(digests := w.digests.(accounts := a), written := w.written + w.pairs.Keys)
    case Look => w
  }

  predicate Fixes(js: Journals, t: Target, p: Target) {
    t in js && js[t].predecessor == Some(p)
  }

  /** What may happen at any instant without the tool: users, the engine, an orphaned actor. */
  predicate Natural(w: World, e: Effect) {
    match e
    case UserWrite(_) => Exposed(w)
    case Start(s) => GateOpen(w)
    case Stop(_) => true
    case ActorConnects => true
    case ActorCommits => true
    case ActorExits => true
    case _ => false
  }

  function Nature(w: World, e: Effect): World {
    if Natural(w, e) then Perform(w, e) else w
  }

  // ---------- what holds at every instant ----------

  predicate Marks(js: Journals, t: Target) {
    t in js && js[t].status != Abandoned
  }

  /** Journals point at captured pairs, and no upgrade is its own forward fix. */
  ghost predicate Lineage(js: Journals, pairs: map<BackupId, Pair>, written: set<BackupId>, next: nat) {
    && (forall t :: t in js ==>
          js[t].backup in pairs && js[t].before == pairs[js[t].backup].digests && js[t].run < next)
    && (forall t :: t in js ==> js[t].predecessor != Some(t))
    && (forall b :: b in pairs ==> b < next)
    && written <= pairs.Keys
  }

  /** Two claims of one recovery point. */
  predicate Twins(a: Journal, b: Journal) {
    a.run == b.run && a.backup == b.backup && a.before == b.before && a.reopened == b.reopened
  }

  /** s is the forward fix of t, and has not touched identity unless both were reopened. */
  predicate Succeeds(js: Journals, s: Target, t: Target) {
    Fixes(js, s, t) && (js[s].reopened || !js[s].identityStarted)
  }

  /** Of two unfinished upgrades one is the forward fix of the other, on the same recovery point. */
  ghost predicate OneAtATime(js: Journals) {
    forall s, t :: Open(js, s) && Open(js, t) && s != t ==>
      Twins(js[s], js[t]) && (Succeeds(js, s, t) || Succeeds(js, t, s))
  }

  /** The roles that an upgrade stopped in this phase may have left able to log in. */
  function PhaseRoles(j: Journal): set<Role> {
    (if j.phase == Migrating && j.migrationStarted then {MigratorRole} else {}) +
    (if j.phase in {Identifying, Replacing, Reopening} then {KeycloakRole} else {})
  }

  function AllowedRoles(js: Journals, j: Journal): set<Role> {
    if j.phase == Claimed && j.predecessor.Some? && j.predecessor.value in js
    then PhaseRoles(js[j.predecessor.value])
    else PhaseRoles(j)
  }

  predicate Sealed(w: World, j: Journal) {
    !j.reopened && w.maintenance == Some(j.run)
  }

  ghost predicate HeldBy(w: World, j: Journal) {
    && Closed(w) && Application !in w.running
    && w.logins <= AllowedRoles(w.journals, j)
    && j.backup !in w.written
    && FenceContinuous(w, j)
  }

  /** An upgrade that holds the identity fence and never reopened keeps every product writer out. */
  ghost predicate Held(w: World) {
    forall t :: Open(w.journals, t) && Sealed(w, w.journals[t]) ==> HeldBy(w, w.journals[t])
  }

  ghost predicate ReopenedPair(js: Journals, b: BackupId) {
    exists t :: t in js && js[t].backup == b && js[t].reopened
  }

  /** An unfinished upgrade still counts on this pair. */
  ghost predicate Relied(js: Journals, b: BackupId) {
    exists t :: Open(js, t) && !js[t].reopened && js[t].backup == b
  }

  /** The pair is exactly what is live, and no writer is left. */
  ghost predicate Exact(w: World, b: BackupId) {
    && !Exposed(w) && b !in w.written && !ReopenedPair(w.journals, b)
    && b in w.pairs && w.digests == w.pairs[b].digests && w.schema == w.pairs[b].schema
  }

  /**
   * What the recovery journal proves about the pair it names. A backup's own line may also be left
   * over from a thaw, which lets the roles log in before it opens the gate.
   */
  ghost predicate Proves(w: World, cause: Cause, b: BackupId) {
    && b in w.pairs
    && match cause
       case Quiescing => false
       case UpgradeFence(_) => ReopenedPair(w.journals, b) || (!Exposed(w) && b !in w.written)
       case BackupFence => Exact(w, b) || (w.logins != {} && (GateOpen(w) || !Relied(w.journals, b)))
  }

  /** The recovery journal holds a backup's own line. */
  predicate BackupLine(w: World) {
    w.local.Some? && w.local.value.cause == BackupFence && w.local.value.backup.Some?
  }

  /** The gate is open although the line of a pair that an unfinished upgrade counts on still stands. */
  ghost predicate Stale(w: World) {
    GateOpen(w) && BackupLine(w) && Relied(w.journals, w.local.value.backup.value)
  }

  ghost predicate Evidence(w: World) {
    w.local.Some? && w.local.value.backup.Some? ==> Proves(w, w.local.value.cause, w.local.value.backup.value)
  }

  /** One pair never serves both a reopened upgrade and an unfinished one that believes it is sealed. */
  ghost predicate OnePairOneStory(js: Journals) {
    forall s, t :: s in js && Open(js, t) && js[s].reopened && js[s].backup == js[t].backup ==> js[t].reopened
  }

  /** Until identity starts or a product write happens, identity is what the pair captured. */
  ghost predicate Untouched(js: Journals, written: set<BackupId>, digests: Digests) {
    forall t :: Open(js, t) && Pristine(js[t]) && js[t].backup !in written ==> digests == js[t].before
  }

  predicate Pristine(j: Journal) {
    !j.reopened && !j.identityStarted && j.predecessor.None?
  }

  /** Flyway only ever appends in version order, so every pair's history is a beginning of the live one. */
  ghost predicate HistoryGrows(history: seq<Row>, pairs: map<BackupId, Pair>) {
    && history != [] && Increasing(RowVersions(history))
    && (forall b :: b in pairs ==> pairs[b].history != [] && pairs[b].history <= history)
  }

  /** Whatever was started irreversibly has its durable mark. */
  ghost predicate Marked(js: Journals, actor: Option<Target>, connected: bool, keycloak: Option<Target>) {
    && (actor.Some? ==> Marks(js, actor.value) && js[actor.value].migrationStarted)
    && (connected ==> actor.Some?)
    && (keycloak.Some? ==> Marks(js, keycloak.value) && js[keycloak.value].identityStarted)
    && (forall t :: t in js && js[t].reopened ==> js[t].identityStarted || js[t].predecessor.Some?)
    && (forall t :: t in js && js[t].migrationStarted ==> js[t].phase != Claimed)
    && (forall t :: t in js && js[t].status == Abandoned ==> !js[t].reopened && !js[t].identityStarted)
  }

  /** Past the identity phase, before any reopening or product write, identity is the pair's own. */
  ghost predicate Conserved(w: World) {
    forall t :: Open(w.journals, t) && !w.journals[t].reopened && w.journals[t].phase in {Replacing, Reopening} ==>
      w.journals[t].identityStarted && (w.journals[t].backup !in w.written ==> Conserves(w, t, w.journals[t]))
  }

  ghost predicate Inv(w: World) {
    && Lineage(w.journals, w.pairs, w.written, w.next)
    && OneAtATime(w.journals)
    && OnePairOneStory(w.journals)
    && Held(w)
    && Evidence(w)
    && Untouched(w.journals, w.written, w.digests)
    && HistoryGrows(w.history, w.pairs)
    && Marked(w.journals, w.actor, w.connected, w.keycloak)
    && Conserved(w)
  }

  // ---------- what one effect may do ----------

  predicate SameClaim(a: Journal, b: Journal) {
    a.run == b.run && a.backup == b.backup && a.before == b.before && a.plan == b.plan && a.predecessor == b.predecessor
  }

  /** Marks of a claim are never withdrawn. */
  predicate Forward(a: Journal, b: Journal) {
    && SameClaim(a, b)
    && (a.migrationStarted ==> b.migrationStarted)
    && (a.identityStarted ==> b.identityStarted)
    && (a.reopened ==> b.reopened)
  }

  /** A claim only moves forward, and is marked reopened only over conserved identity. */
  predicate Advances(w: World, t: Target, a: Journal, b: Journal) {
    && Forward(a, b)
    && (!a.reopened && b.reopened ==> Conserves(w, t, a))
  }

  ghost predicate JournalsAdvance(w: World, js: Journals) {
    js == w.journals ||
    forall t :: t in w.journals ==>
      t in js && (w.journals[t].status != Abandoned ==> Advances(w, t, w.journals[t], js[t]))
  }

  predicate NewlyClaimed(a: Journals, b: Journals, t: Target) {
    t in b && b[t].status != Abandoned && (t in a ==> a[t].status == Abandoned)
  }

  /** j takes its recovery point, and the first texts that were kept, from the claim of p. */
  predicate Inherits(w: World, t: Target, j: Journal, p: Target) {
    && Open(w.journals, p) && Twins(j, w.journals[p]) && w.journals[p].migrationStarted
    && (p in w.snapshots ==> t in w.snapshots && w.snapshots[t] == w.snapshots[p])
    && (p !in w.snapshots ==> t !in w.snapshots)
  }

  ghost predicate ClaimsInherit(w: World, js: Journals) {
    js == w.journals ||
    forall t :: NewlyClaimed(w.journals, js, t) && js[t].predecessor.Some? ==> Inherits(w, t, js[t], js[t].predecessor.value)
  }

  /** An unfinished upgrade has touched identity and was not reopened since. */
  predicate Half(js: Journals, t: Target) {
    Open(js, t) && !js[t].reopened && js[t].identityStarted
  }

  /** Identity is marked as touched only by the owner of the identity fence. */
  ghost predicate MarksUnderFence(w: World, v: World) {
    v.journals == w.journals ||
    (v.maintenance == w.maintenance
     && forall t :: Half(v.journals, t) ==>
          w.maintenance == Some(v.journals[t].run) || (Half(w.journals, t) && w.journals[t].run == v.journals[t].run))
  }

  /** Kept texts are never replaced, and those an upgrade keeps itself are the ones its claim recorded. */
  ghost predicate SnapshotsKept(w: World, b: map<Target, Texts>) {
    b == w.snapshots ||
    forall t ::
      && (t in w.snapshots ==> t in b && b[t] == w.snapshots[t])
      && (t !in w.snapshots && t in b && Marks(w.journals, t) ==> b[t] == w.journals[t].before.texts)
  }

  ghost predicate PairsKept(a: map<BackupId, Pair>, b: map<BackupId, Pair>) {
    a == b || forall p :: p in a ==> p in b && b[p] == a[p]
  }

  /** The gate opens by a thaw of a backup's own fence, or as the reopening of a switched target. */
  ghost predicate MayOpen(w: World) {
    || (w.maintenance.None? && w.local.Some? && w.local.value.cause.BackupFence?)
    || (exists t :: Open(w.journals, t) && w.journals[t].reopened && w.journals[t].phase == Reopening
          && w.active == Some(t) && Replaced(w.created, t, w.journals[t].plan))
  }

  /** The rules of the protocol for two consecutive states. */
  ghost predicate Step(a: World, b: World) {
    && (!GateOpen(a) && GateOpen(b) ==> MayOpen(a))
    && (b.keycloak != a.keycloak ==>
          b.keycloak.Some? && b.keycloak.value in a.journals && a.journals[b.keycloak.value].identityStarted)
    && (b.actor != a.actor && b.actor.Some? ==>
          b.actor.value in a.journals && a.journals[b.actor.value].migrationStarted)
    && a.history <= b.history && (a.history != b.history ==> a.connected)
    && JournalsAdvance(a, b.journals)
    && ClaimsInherit(a, b.journals) && MarksUnderFence(a, b)
    && SnapshotsKept(a, b.snapshots) && (b.journals == a.journals || b.snapshots == a.snapshots)
    && PairsKept(a.pairs, b.pairs)
    && a.written <= b.written
  }

  /** A run: every state satisfies the invariant and every two neighbours obey the rules. */
  ghost predicate Lawful(past: seq<World>) {
    past == [] ||
    (Inv(past[|past|-1]) && Lawful(past[..|past|-1])
     && (|past| > 1 ==> Step(past[|past|-2], past[|past|-1])))
  }

  /** The identity fence is taken from an upgrade that has touched identity, or moved beside it. */
  ghost predicate Frees(a: World, b: World) {
    a.maintenance.Some? && b.maintenance != a.maintenance && exists t :: Half(a.journals, t)
  }

  /** A run in which that never happens. */
  ghost predicate Strict(past: seq<World>) {
    forall k :: 0 <= k && k + 1 < |past| ==> !Frees(past[k], past[k+1])
  }

  // ---------- the rest of the host, as the tool may rely on it ----------

  /** What can have changed between two of the tool's own effects while it holds the lease. */
  ghost predicate Rely(a: World, b: World) {
    && b == a.(running := b.running, history := b.history, actor := b.actor, connected := b.connected,
               digests := b.digests, written := b.written)
    && (b.actor == a.actor || b.actor.None?)
    && (b.connected ==> b.actor.Some? && (a.connected || MigratorRole in a.logins))
    && a.history <= b.history
    && (!a.connected && (a.actor.None? || MigratorRole !in a.logins) ==> b.history == a.history)
    && b.digests == a.digests.(accounts := b.digests.accounts)
    && a.written <= b.written
    && (!GateOpen(a) ==> b.running <= a.running)
    && (!Exposed(a) ==> b.digests == a.digests && b.written == a.written)
  }
}
