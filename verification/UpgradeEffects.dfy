/** Each atomic effect keeps the invariant and the rules, under the condition the tool meets. */
module UpgradeEffects {
  import opened Common
  import opened Flyway
  import opened UpgradeState

  ghost predicate Lawfully(w: World, v: World) {
    Inv(v) && Step(w, v)
  }

  // ---------- closing, stopping, withdrawing ----------

  /** v is w with doors shut, roles and services withdrawn, and perhaps a capture announced. */
  ghost predicate Quieter(w: World, v: World) {
    && v == w.(ready := v.ready, pending := v.pending, local := v.local, logins := v.logins,
               running := v.running, actor := v.actor, connected := v.connected, plans := v.plans)
    && (v.ready ==> w.ready) && (w.pending ==> v.pending)
    && (v.local == w.local || v.local == Some(Notice(Quiescing, None)))
    && v.logins <= w.logins && v.running <= w.running
    && (v.actor == w.actor || v.actor.None?)
    && (v.connected ==> w.connected && v.actor.Some?)
  }

  /** A backup's own line outlives the roles it was left over with, and the gate it was opened by, only if nobody counts on it. */
  ghost predicate Discreet(w: World, v: World) {
    BackupLine(w) && v.local == w.local ==>
      v.logins == w.logins && (!Stale(w) || (v.ready == w.ready && v.pending == w.pending))
  }

  lemma QuieterIsLawful(w: World, v: World)
    requires Inv(w) && Quieter(w, v) && Discreet(w, v)
    ensures Lawfully(w, v)
  {
    assert Held(v);
    assert Evidence(v);
  }

  // ---------- the host's own moves ----------

  lemma ExposedIsUnsealed(w: World)
    requires Inv(w) && Exposed(w)
    ensures forall t :: Open(w.journals, t) ==> !Sealed(w, w.journals[t])
    ensures w.local.Some? && w.local.value.backup.Some? && !BackupLine(w) ==> ReopenedPair(w.journals, w.local.value.backup.value)
    ensures BackupLine(w) ==> w.logins != {} && (GateOpen(w) || !Relied(w.journals, w.local.value.backup.value))
  {
  }

  lemma UserWriteIsLawful(w: World, v: World, accounts: nat)
    requires Inv(w) && Exposed(w)
    requires v == w.(digests := w.digests.(accounts := accounts), written := w.written + w.pairs.Keys)
    ensures Lawfully(w, v)
  {
    ExposedIsUnsealed(w);
    assert Lineage(v.journals, v.pairs, v.written, v.next);
    assert Held(v);
    assert Evidence(v);
    assert Untouched(v.journals, v.written, v.digests);
    assert Conserved(v);
  }

  lemma ServiceStartIsLawful(w: World, v: World)
    requires Inv(w) && GateOpen(w) && v == w.(running := v.running)
    ensures Lawfully(w, v)
  {
    ExposedIsUnsealed(w);
    assert Held(v);
    assert Evidence(v);
  }

  lemma CommitIsLawful(w: World, v: World)
    requires Inv(w) && CanCommit(w) && v == w.(history := w.history + [NextRow(w.history, Inventory(w))])
    ensures Lawfully(w, v)
  {
    NextRowKeepsOrder(w.history, Inventory(w));
    assert HistoryGrows(v.history, v.pairs);
  }

  lemma ConnectIsLawful(w: World, v: World)
    requires Inv(w) && w.actor.Some? && v == w.(connected := true)
    ensures Lawfully(w, v)
  {
    assert Marked(v.journals, v.actor, v.connected, v.keycloak);
  }

  lemma ConnectedHasActor(w: World)
    requires Inv(w)
    ensures w.connected ==> w.actor.Some?
  {
  }

  lemma NatureIsLawful(w: World, e: Effect)
    requires Inv(w)
    ensures Lawfully(w, Nature(w, e))
  {
    hide Inv, Step, CanCommit, Lawfully;
    var v := Nature(w, e);
    ConnectedHasActor(w);
    if v == w {
      QuieterIsLawful(w, v);
    } else {
      match e
      case UserWrite(a) => UserWriteIsLawful(w, v, a);
      case Start(s) => ServiceStartIsLawful(w, v);
      case ActorCommits => CommitIsLawful(w, v);
      case ActorConnects => ConnectIsLawful(w, v);
      case Stop(s) => QuieterIsLawful(w, v);
      case ActorExits => QuieterIsLawful(w, v);
    }
  }

  lemma NatureIsRelied(w: World, e: Effect)
    requires w.connected ==> w.actor.Some?
    ensures Rely(w, Nature(w, e))
  {
    hide NextRow, Prefix, Increasing, FileVersions;
  }

  /**
   * Nothing hinders the host: a service may stop at any moment and start behind an open gate, and users
   * may write wherever they are served.
   */
  lemma HostIsFree(w: World, s: Service, accounts: nat)
    ensures Nature(w, Stop(s)) == w.(running := w.running - {s})
    ensures w.ready && !w.pending ==> Nature(w, Start(s)) == w.(running := w.running + {s})
    ensures (w.ready && !w.pending) || Application in w.running ==>
      Nature(w, UserWrite(accounts)) == w.(digests := w.digests.(accounts := accounts), written := w.written + w.pairs.Keys)
  {
    StopsAreNatural(w, s);
    StartsAreNatural(w, s);
    WritesAreNatural(w, accounts);
    hide Nature;
  }

  lemma StopsAreNatural(w: World, s: Service)
    ensures Nature(w, Stop(s)) == w.(running := w.running - {s})
  {
    hide CanCommit;
  }

  lemma StartsAreNatural(w: World, s: Service)
    ensures GateOpen(w) ==> Nature(w, Start(s)) == w.(running := w.running + {s})
  {
    hide CanCommit;
  }

  lemma WritesAreNatural(w: World, accounts: nat)
    ensures Exposed(w) ==>
      Nature(w, UserWrite(accounts)) == w.(digests := w.digests.(accounts := accounts), written := w.written + w.pairs.Keys)
  {
    hide CanCommit;
  }

  /** What the host has done by itself, event after event. */
  function Passed(w: World, nature: seq<Effect>): World {
    if nature == [] then w else Nature(Passed(w, nature[..|nature|-1]), nature[|nature|-1])
  }

  lemma RelyIsTransitive(a: World, b: World, c: World)
    requires Rely(a, b) && Rely(b, c)
    ensures Rely(a, c)
  {
  }

  // ---------- the tool's own effects ----------

  /** Nothing but t is unfinished, or its own fix or predecessor is, and both were reopened. */
  ghost predicate Sole(js: Journals, t: Target) {
    && t in js && js[t].status != Abandoned && js[t].status != Superseded
    && forall s :: Open(js, s) && s != t ==>
         js[s].reopened && js[t].reopened && Twins(js[s], js[t]) && (Fixes(js, s, t) || Fixes(js, t, s))
  }

  lemma NameUpgradeFence(w: World, v: World, t: Target, phase: Phase)
    requires Inv(w) && Sole(w.journals, t)
    requires w.journals[t].reopened || (!Exposed(w) && w.journals[t].backup !in w.written)
    requires v == w.(local := Some(Notice(UpgradeFence(phase), Some(w.journals[t].backup))))
    ensures Lawfully(w, v)
  {
    assert Held(v);
    assert Evidence(v);
  }

  /** The fix of an unfinished first claim counts on the same pair and has not touched identity. */
  lemma FixIsIdle(w: World, t: Target, s: Target)
    requires Inv(w) && Open(w.journals, t) && Pristine(w.journals[t]) && Open(w.journals, s) && s != t
    ensures Twins(w.journals[s], w.journals[t]) && !w.journals[s].reopened && !w.journals[s].identityStarted
  {
  }

  lemma NameBackupFence(w: World, v: World, t: Target)
    requires Inv(w) && Open(w.journals, t) && Pristine(w.journals[t])
    requires Closed(w) && !Exposed(w) && w.journals[t].backup !in w.written
    requires w.schema == w.pairs[w.journals[t].backup].schema
    requires v == w.(local := Some(Notice(BackupFence, Some(w.journals[t].backup))))
    ensures Lawfully(w, v)
  {
    forall s | Open(v.journals, s) && Sealed(v, v.journals[s]) ensures HeldBy(v, v.journals[s]) {
      assert HeldBy(w, w.journals[s]);
      if s != t { FixIsIdle(w, t, s); }
    }
    assert !ReopenedPair(w.journals, w.journals[t].backup);
    assert Evidence(v);
  }

  lemma DropLocal(w: World, v: World, t: Target)
    requires Inv(w) && Sole(w.journals, t) && w.journals[t].reopened
    requires v == w.(local := None)
    ensures Lawfully(w, v)
  {
    assert Held(v);
  }

  lemma EnterMaintenance(w: World, v: World, t: Target)
    requires Inv(w) && Sole(w.journals, t)
    requires v == w.(maintenance := Some(w.journals[t].run))
    requires w.journals[t].reopened ||
      (Closed(w) && !Exposed(w) && w.logins <= AllowedRoles(w.journals, w.journals[t])
       && w.journals[t].backup !in w.written
       && w.local.Some? && w.local.value.backup == Some(w.journals[t].backup) && w.local.value.cause != Quiescing)
    ensures Lawfully(w, v)
  {
    assert Held(v);
    assert Evidence(v);
  }

  lemma ForeignMaintenance(w: World, v: World)
    requires Inv(w) && w.maintenance.None?
    requires v == w.(maintenance := Some(w.next), next := w.next + 1)
    ensures Lawfully(w, v)
  {
    assert Held(v);
    assert Lineage(v.journals, v.pairs, v.written, v.next);
  }

  lemma ExitMaintenance(w: World, v: World)
    requires Inv(w) && v == w.(maintenance := None)
    ensures Lawfully(w, v)
  {
    assert Held(v);
    assert Evidence(v);
  }

  lemma AllowRole(w: World, v: World, role: Role)
    requires Inv(w) && v == w.(logins := w.logins + {role})
    requires forall t :: Open(w.journals, t) && Sealed(w, w.journals[t]) ==> role in AllowedRoles(w.journals, w.journals[t])
    ensures Lawfully(w, v)
  {
    assert Held(v);
  }

  lemma OpenGate(w: World, v: World, t: Target)
    requires Inv(w) && Sole(w.journals, t) && Open(w.journals, t)
    requires w.journals[t].reopened && w.journals[t].phase == Reopening
    requires w.active == Some(t) && Replaced(w.created, t, w.journals[t].plan)
    requires w.local.Some? && w.local.value.cause.UpgradeFence? && w.local.value.backup == Some(w.journals[t].backup)
    requires v == w.(ready := v.ready, pending := v.pending)
    ensures Lawfully(w, v)
  {
    assert ReopenedPair(w.journals, w.journals[t].backup);
    assert Held(v);
    assert Evidence(v);
  }

  /** One move of the gate in a thaw: the roles may log in already, so the line is left over from here on. */
  lemma ThawGate(w: World, v: World)
    requires Inv(w) && w.maintenance.None? && BackupLine(w) && w.logins != {}
    requires v == w.(ready := v.ready, pending := v.pending) && (w.ready ==> v.ready) && (v.pending ==> w.pending)
    ensures Lawfully(w, v)
  {
    assert Held(v);
    assert Evidence(v);
  }

  /** The line of a backup's own fence goes once nobody holds the identity fence. */
  lemma ThawLine(w: World, v: World)
    requires Inv(w) && w.maintenance.None? && v == w.(local := None)
    ensures Lawfully(w, v)
  {
    assert Held(v);
  }

  /** A published pair; the recovery journal still says that a capture is under way. */
  lemma CapturePair(w: World, v: World)
    requires Inv(w) && v == w.(pairs := w.pairs[w.next := Pair(w.history, w.schema, w.digests)], next := w.next + 1)
    ensures Lawfully(w, v) && w.next !in w.pairs && w.next !in v.written && !ReopenedPair(v.journals, w.next)
  {
    CaptureIsNew(w, v);
    CaptureKeepsFences(w, v);
    hide Held, Evidence, Lineage, HistoryGrows, OneAtATime, OnePairOneStory, Untouched, Marked, Conserved;
  }

  lemma CaptureIsNew(w: World, v: World)
    requires Lineage(w.journals, w.pairs, w.written, w.next) && HistoryGrows(w.history, w.pairs)
    requires v == w.(pairs := w.pairs[w.next := Pair(w.history, w.schema, w.digests)], next := w.next + 1)
    ensures Lineage(v.journals, v.pairs, v.written, v.next) && HistoryGrows(v.history, v.pairs) && PairsKept(w.pairs, v.pairs)
    ensures w.next !in w.pairs && w.next !in v.written && !ReopenedPair(v.journals, w.next)
  {
    assert w.next !in w.pairs;
  }

  lemma CaptureKeepsFences(w: World, v: World)
    requires Held(w) && Evidence(w) && Conserved(w) && w.next !in w.pairs
    requires v == w.(pairs := w.pairs[w.next := Pair(w.history, w.schema, w.digests)], next := w.next + 1)
    ensures Held(v) && Evidence(v) && Conserved(v)
  {
  }

  /** The backup names its own fence over exactly what it captured. */
  lemma NameCapture(w: World, v: World, b: BackupId)
    requires Inv(w) && w.maintenance.None? && Exact(w, b) && v == w.(local := Some(Notice(BackupFence, Some(b))))
    ensures Lawfully(w, v)
  {
    assert Held(v);
    assert Evidence(v);
  }

  lemma StartMigrationActor(w: World, v: World, t: Target)
    requires Inv(w) && Marks(w.journals, t) && w.journals[t].migrationStarted
    requires v == w.(actor := Some(t), connected := false)
    ensures Lawfully(w, v)
  {
    assert Marked(v.journals, v.actor, v.connected, v.keycloak);
  }

  /** Keycloak or a realm actor may change identity in any way once the claim is marked. */
  lemma ChangeIdentity(w: World, v: World, t: Target)
    requires Inv(w) && Sole(w.journals, t) && w.journals[t].identityStarted
    requires w.journals[t].reopened || w.journals[t].phase == Identifying
    requires w.local.Some? && w.local.value.cause.UpgradeFence?
    requires v == w.(digests := v.digests, schema := v.schema, session := v.session, keycloak := v.keycloak, running := v.running)
    requires v.keycloak == w.keycloak || v.keycloak == Some(t)
    requires v.running <= w.running + {Keycloak}
    ensures Lawfully(w, v)
  {
    assert Held(v);
    assert Evidence(v);
    assert Untouched(v.journals, v.written, v.digests);
    assert Conserved(v);
  }

  lemma SwitchTarget(w: World, v: World, t: Target)
    requires Inv(w) && Sole(w.journals, t)
    requires v == w.(created := v.created, active := v.active)
    requires v.active == w.active || v.active == Some(t)
    requires forall s :: s in w.created ==> s in v.created && (v.created[s] == w.created[s] || v.created[s] == t)
    ensures Lawfully(w, v)
  {
    assert Conserved(v);
  }

  lemma WriteSnapshotOnce(w: World, v: World, t: Target, texts: Texts)
    requires Inv(w) && t !in w.snapshots && (Marks(w.journals, t) ==> texts == w.journals[t].before.texts)
    requires v == w.(snapshots := w.snapshots[t := texts])
    ensures Lawfully(w, v)
  {
    assert Conserved(v);
    assert Held(v);
    assert Evidence(v);
  }

  lemma StartQuietService(w: World, v: World, s: Service)
    requires Inv(w) && s != Application && v == w.(running := w.running + {s})
    ensures Lawfully(w, v)
  {
    assert Held(v);
    assert Evidence(v);
  }

  // ---------- journal writes ----------

  /** No unfinished forward fix names t as its predecessor. */
  ghost predicate Unfixed(js: Journals, t: Target) {
    forall s :: Open(js, s) ==> !Fixes(js, s, t)
  }

  /** When writing j as the journal of t keeps the invariant. */
  ghost predicate Fit(w: World, t: Target, j: Journal) {
    && Sole(w.journals, t)
    && Forward(w.journals[t], j) && j.predecessor != Some(t)
    && (j.status == Running || j.status == Failed || (j.status == Complete && j.reopened))
    && (j.reopened || Open(w.journals, t))
    && (j.reopened ==> j.identityStarted || j.predecessor.Some?)
    && (j.migrationStarted ==> j.phase != Claimed)
    && (Sealed(w, j) ==> w.logins <= AllowedRoles(w.journals, j))
    && (!j.reopened && j.identityStarted ==> w.journals[t].identityStarted || w.maintenance == Some(j.run))
    && (!w.journals[t].reopened && j.phase in {Replacing, Reopening} ==>
          j.identityStarted && (j.backup !in w.written ==> Conserves(w, t, j)))
    && (j.reopened && !w.journals[t].reopened ==>
          j.phase == Reopening && j.backup !in w.written && w.local.Some? && w.local.value.cause != BackupFence)
  }

  lemma RewriteKeepsReopenedPairs(js: Journals, t: Target, j: Journal, b: BackupId)
    requires t in js && Forward(js[t], j)
    ensures ReopenedPair(js, b) ==> ReopenedPair(js[t := j], b)
    ensures ReopenedPair(js[t := j], b) ==> ReopenedPair(js, b) || (b == j.backup && j.reopened && !js[t].reopened)
  {
    if ReopenedPair(js, b) {
      var s :| s in js && js[s].backup == b && js[s].reopened;
      assert s in js[t := j] && js[t := j][s].backup == b && js[t := j][s].reopened;
    }
    if ReopenedPair(js[t := j], b) {
      var s :| s in js[t := j] && js[t := j][s].backup == b && js[t := j][s].reopened;
      assert s == t || (s in js && js[s].backup == b && js[s].reopened);
    }
  }

  lemma RewriteKeepsLineage(w: World, t: Target, j: Journal)
    requires Lineage(w.journals, w.pairs, w.written, w.next)
    requires Marks(w.journals, t) && Forward(w.journals[t], j) && j.status != Abandoned
    ensures Lineage(w.journals[t := j], w.pairs, w.written, w.next)
  {
  }

  lemma RewriteKeepsHeld(w: World, v: World, t: Target, j: Journal)
    requires Inv(w) && Fit(w, t, j)
    requires v == w.(journals := w.journals[t := j])
    ensures Held(v)
  {
    OpenAfter(w.journals, v.journals, t);
    if Sealed(v, j) && Unfinished(j) {
      assert Open(w.journals, t) && Sealed(w, w.journals[t]);
      assert HeldBy(w, w.journals[t]);
    }
  }

  /** Only the pair of the written claim can have come to be served, and no other is newly counted on. */
  lemma RewriteKeepsReliance(js: Journals, t: Target, j: Journal, b: BackupId)
    requires t in js && Forward(js[t], j) && (j.reopened || Open(js, t))
    ensures Relied(js[t := j], b) ==> Relied(js, b)
  {
    if Relied(js[t := j], b) {
      var s :| Open(js[t := j], s) && !js[t := j][s].reopened && js[t := j][s].backup == b;
      assert Open(js, s) && !js[s].reopened && js[s].backup == b;
    }
  }

  lemma RewriteKeepsEvidence(w: World, v: World, t: Target, j: Journal)
    requires Inv(w) && Fit(w, t, j)
    requires v == w.(journals := w.journals[t := j])
    ensures Evidence(v)
  {
    if w.local.Some? && w.local.value.backup.Some? {
      RewriteKeepsReopenedPairs(w.journals, t, j, w.local.value.backup.value);
      RewriteKeepsReliance(w.journals, t, j, w.local.value.backup.value);
      assert Proves(w, w.local.value.cause, w.local.value.backup.value);
    }
  }

  lemma OpenAfter(js: Journals, v: Journals, t: Target)
    requires t in v && v == js[t := v[t]]
    ensures forall s :: Open(v, s) <==> if s == t then Unfinished(v[t]) else Open(js, s)
  {
  }

  lemma RewriteKeepsStory(js: Journals, v: Journals, t: Target, j: Journal)
    requires OnePairOneStory(js) && OneAtATime(js) && Sole(js, t) && Forward(js[t], j)
    requires (j.reopened || Open(js, t)) && v == js[t := j]
    ensures OnePairOneStory(v) && OneAtATime(v)
  {
    OpenAfter(js, v, t);
    RewriteKeepsTwins(js, v, t, j);
  }

  lemma RewriteKeepsTwins(js: Journals, v: Journals, t: Target, j: Journal)
    requires OneAtATime(js) && Sole(js, t) && Forward(js[t], j)
    requires (j.reopened || Open(js, t)) && v == js[t := j]
    ensures OneAtATime(v)
  {
    OpenAfter(js, v, t);
    assert forall s, p :: Fixes(v, s, p) <==> Fixes(js, s, p);
  }

  lemma RewriteKeepsPhases(w: World, v: World, t: Target, j: Journal)
    requires Untouched(w.journals, w.written, w.digests) && Conserved(w)
    requires Fit(w, t, j) && v == w.(journals := w.journals[t := j])
    ensures Untouched(v.journals, v.written, v.digests) && Conserved(v)
  {
    OpenAfter(w.journals, v.journals, t);
  }

  lemma RewriteKeepsMarked(w: World, v: World, t: Target, j: Journal)
    requires Marked(w.journals, w.actor, w.connected, w.keycloak)
    requires Fit(w, t, j) && v == w.(journals := w.journals[t := j])
    requires Conserved(w)
    ensures Marked(v.journals, v.actor, v.connected, v.keycloak)
    ensures JournalsAdvance(w, v.journals) && ClaimsInherit(w, v.journals) && MarksUnderFence(w, v)
    ensures Marks(w.journals, t) && j.status != Abandoned && Forward(w.journals[t], j)
    ensures Sole(w.journals, t) && (j.reopened || Open(w.journals, t))
  {
  }

  lemma RewriteJournal(w: World, v: World, t: Target, j: Journal)
    requires Inv(w) && Fit(w, t, j)
    requires v == w.(journals := w.journals[t := j])
    ensures Lawfully(w, v)
  {
    hide Held, Evidence, Lineage, OneAtATime, OnePairOneStory, HistoryGrows, Untouched, Marked, Conserved;
    hide JournalsAdvance, ClaimsInherit, MarksUnderFence, Sole, Forward, Fit;
    RewriteKeepsPhases(w, v, t, j);
    RewriteKeepsMarked(w, v, t, j);
    RewriteKeepsLineage(w, t, j);
    RewriteKeepsHeld(w, v, t, j);
    RewriteKeepsEvidence(w, v, t, j);
    RewriteKeepsStory(w.journals, v.journals, t, j);
  }

  // ---------- leaving the unfinished set ----------

  predicate Retires(w: World, v: World, p: Target, status: Status) {
    && p in w.journals && (status == Superseded || status == Abandoned)
    && v == w.(journals := w.journals[p := w.journals[p].(status := status)])
  }

  lemma RetireKeepsHeld(w: World, v: World, p: Target, status: Status)
    requires Held(w) && Retires(w, v, p, status)
    ensures Held(v)
  {
    OpenAfter(w.journals, v.journals, p);
    forall s | Open(v.journals, s) && Sealed(v, v.journals[s]) ensures HeldBy(v, v.journals[s]) {
      assert Open(w.journals, s) && Sealed(w, w.journals[s]);
      assert HeldBy(w, w.journals[s]);
      assert AllowedRoles(v.journals, v.journals[s]) == AllowedRoles(w.journals, w.journals[s]);
    }
  }

  lemma RetireKeepsReopenedPairs(w: World, v: World, p: Target, status: Status, b: BackupId)
    requires Retires(w, v, p, status)
    ensures ReopenedPair(v.journals, b) <==> ReopenedPair(w.journals, b)
    ensures Relied(v.journals, b) ==> Relied(w.journals, b)
  {
    var j := w.journals[p].(status := status);
    RewriteKeepsReopenedPairs(w.journals, p, j, b);
    if Relied(v.journals, b) {
      var s :| Open(v.journals, s) && !v.journals[s].reopened && v.journals[s].backup == b;
      assert Open(w.journals, s) && w.journals[s] == v.journals[s];
    }
  }

  lemma RetireKeepsEvidence(w: World, v: World, p: Target, status: Status)
    requires Evidence(w) && Retires(w, v, p, status)
    ensures Evidence(v)
  {
    if w.local.Some? && w.local.value.backup.Some? {
      RetireKeepsReopenedPairs(w, v, p, status, w.local.value.backup.value);
    }
  }

  lemma RetireKeepsBooks(w: World, v: World, p: Target, status: Status)
    requires Lineage(w.journals, w.pairs, w.written, w.next) && OneAtATime(w.journals) && OnePairOneStory(w.journals)
    requires Retires(w, v, p, status)
    ensures Lineage(v.journals, v.pairs, v.written, v.next)
    ensures OneAtATime(v.journals) && OnePairOneStory(v.journals)
  {
    OpenAfter(w.journals, v.journals, p);
    RetireKeepsOrder(w, v, p, status);
  }

  lemma RetireKeepsOrder(w: World, v: World, p: Target, status: Status)
    requires OneAtATime(w.journals) && Retires(w, v, p, status)
    ensures OneAtATime(v.journals)
  {
    OpenAfter(w.journals, v.journals, p);
    assert forall s, q :: Fixes(v.journals, s, q) <==> Fixes(w.journals, s, q);
  }

  lemma RetireKeepsPhases(w: World, v: World, p: Target, status: Status)
    requires Untouched(w.journals, w.written, w.digests) && Conserved(w)
    requires Retires(w, v, p, status)
    ensures Untouched(v.journals, v.written, v.digests) && Conserved(v)
  {
    OpenAfter(w.journals, v.journals, p);
  }

  lemma RetireKeepsMarked(w: World, v: World, p: Target, status: Status)
    requires Marked(w.journals, w.actor, w.connected, w.keycloak) && Retires(w, v, p, status) && Open(w.journals, p)
    requires status == Abandoned ==> w.actor != Some(p) && !w.journals[p].identityStarted && !w.journals[p].reopened
    ensures Marked(v.journals, v.actor, v.connected, v.keycloak)
    ensures JournalsAdvance(w, v.journals) && ClaimsInherit(w, v.journals) && MarksUnderFence(w, v)
  {
  }

  lemma RetireJournal(w: World, v: World, p: Target, status: Status)
    requires Inv(w) && Retires(w, v, p, status) && Open(w.journals, p)
    requires status == Abandoned ==> w.actor != Some(p) && !w.journals[p].identityStarted && !w.journals[p].reopened
    ensures Lawfully(w, v)
  {
    hide Held, Evidence, Lineage, OneAtATime, OnePairOneStory, HistoryGrows, Untouched, Marked, Conserved;
    hide JournalsAdvance, ClaimsInherit, MarksUnderFence;
    RetireKeepsPhases(w, v, p, status);
    RetireKeepsMarked(w, v, p, status);
    RetireKeepsBooks(w, v, p, status);
    RetireKeepsHeld(w, v, p, status);
    RetireKeepsEvidence(w, v, p, status);
  }

  // ---------- claims ----------

  predicate Vacant(js: Journals, t: Target) {
    t in js ==> js[t].status == Abandoned
  }

  predicate Unmarked(j: Journal) {
    j.status == Running && j.phase == Claimed && !j.migrationStarted && !j.identityStarted
  }

  lemma ClaimKeepsLineage(w: World, t: Target, j: Journal)
    requires Lineage(w.journals, w.pairs, w.written, w.next) && Vacant(w.journals, t) && Unmarked(j)
    requires j.backup in w.pairs && j.before == w.pairs[j.backup].digests && j.predecessor != Some(t)
    ensures Lineage(w.journals[t := j], w.pairs, w.written, if j.run < w.next then w.next else j.run + 1)
  {
  }

  /** A first claim under the fence its pair left closed. */
  ghost predicate FirstClaim(w: World, v: World, t: Target, j: Journal) {
    && Vacant(w.journals, t) && Unmarked(j) && !j.reopened && j.predecessor.None?
    && (forall s :: !Open(w.journals, s))
    && w.local == Some(Notice(BackupFence, Some(j.backup))) && w.maintenance.None? && w.logins == {}
    && j.before == w.digests && j.run >= w.next
    && v == w.(journals := w.journals[t := j], next := j.run + 1)
  }

  lemma FirstClaimKeepsEvidence(w: World, v: World, t: Target, j: Journal)
    requires Evidence(w) && FirstClaim(w, v, t, j)
    ensures Evidence(v) && OnePairOneStory(v.journals)
    ensures forall s :: Open(v.journals, s) ==> s == t
    ensures j.backup in w.pairs && j.before == w.pairs[j.backup].digests
  {
    OpenAfter(w.journals, v.journals, t);
    assert Exact(w, j.backup);
    forall s | s in v.journals && v.journals[s].reopened ensures v.journals[s].backup != j.backup {
      assert s in w.journals && w.journals[s].reopened;
      assert !ReopenedPair(w.journals, j.backup);
    }
    assert Exact(v, j.backup);
  }

  lemma FirstClaimKeepsMarked(w: World, v: World, t: Target, j: Journal)
    requires Marked(w.journals, w.actor, w.connected, w.keycloak) && FirstClaim(w, v, t, j)
    ensures Marked(v.journals, v.actor, v.connected, v.keycloak)
    ensures JournalsAdvance(w, v.journals) && ClaimsInherit(w, v.journals) && MarksUnderFence(w, v)
    ensures OneAtATime(v.journals)
    ensures Untouched(v.journals, v.written, v.digests) && Conserved(v) && Held(v)
  {
    OpenAfter(w.journals, v.journals, t);
  }

  lemma ClaimJournal(w: World, v: World, t: Target, j: Journal)
    requires Inv(w) && FirstClaim(w, v, t, j)
    ensures Lawfully(w, v)
  {
    hide Held, Evidence, Lineage, OneAtATime, OnePairOneStory, HistoryGrows, Untouched, Marked, Conserved;
    hide JournalsAdvance, ClaimsInherit, MarksUnderFence;
    FirstClaimKeepsEvidence(w, v, t, j);
    ClaimKeepsLineage(w, t, j);
    FirstClaimKeepsMarked(w, v, t, j);
  }

  /** A forward fix claims its predecessor's pair, run, marks of reopening and kept texts. */
  ghost predicate FixClaim(w: World, v: World, t: Target, j: Journal, p: Target) {
    && Vacant(w.journals, t) && Unmarked(j) && j.predecessor == Some(p) && t != p
    && (forall s :: Open(w.journals, s) ==> s == p) && Inherits(w, t, j, p)
    && v == w.(journals := w.journals[t := j])
  }

  lemma FixClaimIsPaired(w: World, v: World, t: Target, j: Journal, p: Target)
    requires FixClaim(w, v, t, j, p)
    ensures t != p && Fixes(v.journals, t, p)
    ensures forall s :: Open(v.journals, s) ==> s == t || s == p
  {
    OpenAfter(w.journals, v.journals, t);
  }

  lemma FixClaimKeepsOrder(w: World, v: World, t: Target, j: Journal, p: Target)
    requires FixClaim(w, v, t, j, p)
    ensures OneAtATime(v.journals)
  {
    FixClaimIsPaired(w, v, t, j, p);
    assert Succeeds(v.journals, t, p);
  }

  lemma FixClaimKeepsHeld(w: World, v: World, t: Target, j: Journal, p: Target)
    requires Inv(w) && FixClaim(w, v, t, j, p)
    ensures Held(v)
  {
    FixClaimIsPaired(w, v, t, j, p);
    forall s | Open(v.journals, s) && Sealed(v, v.journals[s]) ensures HeldBy(v, v.journals[s]) {
      assert Open(w.journals, p) && Sealed(w, w.journals[p]);
      assert HeldBy(w, w.journals[p]);
      assert w.journals[p].phase != Claimed;
    }
  }

  lemma FixClaimKeepsEvidence(w: World, v: World, t: Target, j: Journal, p: Target)
    requires Evidence(w) && OnePairOneStory(w.journals) && FixClaim(w, v, t, j, p)
    requires Marked(w.journals, w.actor, w.connected, w.keycloak)
    ensures Evidence(v) && OnePairOneStory(v.journals)
  {
    FixClaimIsPaired(w, v, t, j, p);
    forall b ensures ReopenedPair(v.journals, b) <==> ReopenedPair(w.journals, b) {
      if ReopenedPair(w.journals, b) {
        var s :| s in w.journals && w.journals[s].backup == b && w.journals[s].reopened;
        assert s != t && s in v.journals && v.journals[s] == w.journals[s];
      }
      if ReopenedPair(v.journals, b) {
        var s :| s in v.journals && v.journals[s].backup == b && v.journals[s].reopened;
        var s' := if s == t then p else s;
        assert s' in w.journals && w.journals[s'].backup == b && w.journals[s'].reopened;
      }
    }
    forall b ensures Relied(v.journals, b) ==> Relied(w.journals, b) {
      if Relied(v.journals, b) {
        var s :| Open(v.journals, s) && !v.journals[s].reopened && v.journals[s].backup == b;
        assert Open(w.journals, p) && !w.journals[p].reopened && w.journals[p].backup == b;
      }
    }
  }

  lemma FixClaimKeepsLineage(w: World, v: World, t: Target, j: Journal, p: Target)
    requires Inv(w) && FixClaim(w, v, t, j, p)
    ensures Lineage(v.journals, v.pairs, v.written, v.next)
  {
    hide Held, Evidence, OneAtATime, OnePairOneStory, HistoryGrows;
    assert w.journals[p].run < w.next && w.journals[p].backup in w.pairs;
    ClaimKeepsLineage(w, t, j);
  }

  lemma FixClaimKeepsPhases(w: World, v: World, t: Target, j: Journal, p: Target)
    requires Untouched(w.journals, w.written, w.digests) && Conserved(w)
    requires FixClaim(w, v, t, j, p)
    ensures Untouched(v.journals, v.written, v.digests) && Conserved(v)
  {
    OpenAfter(w.journals, v.journals, t);
  }

  lemma FixClaimKeepsMarked(w: World, v: World, t: Target, j: Journal, p: Target)
    requires Marked(w.journals, w.actor, w.connected, w.keycloak) && FixClaim(w, v, t, j, p)
    ensures Marked(v.journals, v.actor, v.connected, v.keycloak)
    ensures JournalsAdvance(w, v.journals) && ClaimsInherit(w, v.journals) && MarksUnderFence(w, v)
  {
  }

  lemma ClaimForwardFix(w: World, v: World, t: Target, j: Journal, p: Target)
    requires Inv(w) && FixClaim(w, v, t, j, p)
    ensures Lawfully(w, v)
  {
    hide Held, Evidence, Lineage, OneAtATime, OnePairOneStory, HistoryGrows, Untouched, Marked, Conserved;
    hide JournalsAdvance, ClaimsInherit, MarksUnderFence;
    FixClaimKeepsHeld(w, v, t, j, p);
    FixClaimKeepsEvidence(w, v, t, j, p);
    FixClaimKeepsOrder(w, v, t, j, p);
    FixClaimKeepsLineage(w, v, t, j, p);
    FixClaimKeepsPhases(w, v, t, j, p);
    FixClaimKeepsMarked(w, v, t, j, p);
  }
}
