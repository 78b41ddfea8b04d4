/** What every lawful run promises: consequences of the invariant and the rules for whole runs. */
module UpgradeTheorems {
  import opened Common
  import opened Flyway
  import opened UpgradeState
  import opened UpgradeEffects
  import opened UpgradeRules

  // ---------- runs ----------

  lemma {:induction false} LawfulPrefix(past: seq<World>, n: nat)
    requires Lawful(past) && n <= |past|
    ensures Lawful(past[..n])
  {
    hide Inv, Step;
    if n < |past| {
      LawfulPrefix(past[..|past|-1], n);
      assert past[..|past|-1][..n] == past[..n];
    } else {
      assert past[..n] == past;
    }
  }

  /** Every state of a run keeps the invariant, and every two neighbours obey the rules. */
  lemma {:induction false} RunIsLawful(past: seq<World>, i: nat)
    requires Lawful(past) && i < |past|
    ensures Inv(past[i]) && (i + 1 < |past| ==> Step(past[i], past[i+1]))
  {
    hide Inv, Step;
    LawfulPrefix(past, i + 1);
    assert past[..i+1][i] == past[i];
    if i + 1 < |past| {
      LawfulPrefix(past, i + 2);
      assert past[..i+2][i] == past[i] && past[..i+2][i+1] == past[i+1];
    }
  }

  // ---------- the fence ----------

  /**
   * While an upgrade holds the identity fence and was never reopened, the gate is closed and the
   * application is down. The migrator can log in only between its durable mark and the end of the
   * migration phase, Keycloak only from the identity phase to the reopening; a fix that has just
   * claimed stands in its predecessor's phase.
   */
  lemma {:induction false} FenceIsSafe(past: seq<World>, i: nat, t: Target)
    requires Lawful(past) && i < |past| && Open(past[i].journals, t) && Sealed(past[i], past[i].journals[t])
    ensures Closed(past[i]) && Application !in past[i].running
    ensures past[i].logins <= {MigratorRole, KeycloakRole}
    ensures MigratorRole in past[i].logins ==> Standing(past[i].journals, t).phase == Migrating
    ensures MigratorRole in past[i].logins ==> Standing(past[i].journals, t).migrationStarted
    ensures KeycloakRole in past[i].logins ==> Standing(past[i].journals, t).phase in {Identifying, Replacing, Reopening}
    ensures past[i].journals[t].backup !in past[i].written
  {
    RunIsLawful(past, i);
    HolderIsHeld(past[i], t);
    hide Inv, Lawful, Step, FenceContinuous;
  }

  lemma HolderIsHeld(w: World, t: Target)
    requires Inv(w) && Open(w.journals, t) && Sealed(w, w.journals[t])
    ensures HeldBy(w, w.journals[t])
  {
  }

  /** The journal whose phase the roles of t follow. */
  function Standing(js: Journals, t: Target): Journal
    requires t in js
  {
    if js[t].phase == Claimed && js[t].predecessor.Some? && js[t].predecessor.value in js
    then js[js[t].predecessor.value] else js[t]
  }

  /** Whoever has touched identity and was not reopened owns the identity fence. */
  ghost predicate Loose(w: World) {
    forall t :: Half(w.journals, t) ==> w.maintenance == Some(w.journals[t].run)
  }

  lemma {:induction false} LooseStays(a: World, b: World)
    requires Loose(a) && Step(a, b) && !Frees(a, b)
    ensures Loose(b)
  {
    hide JournalsAdvance, ClaimsInherit, SnapshotsKept, MayOpen, GateOpen;
    if b.journals == a.journals {
      forall t | Half(b.journals, t) ensures b.maintenance == Some(b.journals[t].run) {
        assert Half(a.journals, t);
      }
    }
  }

  /**
   * In a run in which nobody takes the identity fence from an upgrade that has touched identity, such
   * an upgrade owns it at every moment until it is reopened.
   */
  lemma {:induction false} FenceIsOwned(past: seq<World>, i: nat)
    requires Lawful(past) && Strict(past) && i < |past| && Loose(past[0])
    ensures Loose(past[i])
  {
    if i > 0 {
      FenceIsOwned(past, i - 1);
      RunIsLawful(past, i - 1);
      assert !Frees(past[i-1], past[i-1+1]);
      hide Inv, Step, Lawful, Strict;
      LooseStays(past[i-1], past[i]);
    }
  }

  /**
   * So outside the identity fence, as between a claim and maintenance-enter, an upgrade that was
   * never reopened has not touched identity, and no Keycloak of its target was started.
   */
  lemma {:induction false} UnsealedIsUntouched(past: seq<World>, i: nat, t: Target)
    requires Lawful(past) && Strict(past) && i < |past| && Loose(past[0]) && Open(past[i].journals, t)
    requires !past[i].journals[t].reopened && !Sealed(past[i], past[i].journals[t])
    ensures !past[i].journals[t].identityStarted && past[i].keycloak != Some(t)
  {
    FenceIsOwned(past, i);
    RunIsLawful(past, i);
    assert !Half(past[i].journals, t);
  }

  /** Whether or not the fence is owned: until identity starts or a product write, it is what the first claim's pair captured. */
  lemma {:induction false} IdentityIsThePairs(past: seq<World>, i: nat, t: Target)
    requires Lawful(past) && i < |past| && Open(past[i].journals, t) && Pristine(past[i].journals[t])
    requires past[i].journals[t].backup !in past[i].written
    ensures past[i].journals[t].backup in past[i].pairs
    ensures past[i].digests == past[i].pairs[past[i].journals[t].backup].digests
  {
    RunIsLawful(past, i);
  }

  /** Every opening of the gate is a thaw of a backup's own fence, or the reopening of a switched target. */
  lemma {:induction false} OpeningIsSwitched(past: seq<World>, i: nat)
    requires Lawful(past) && i + 1 < |past| && !GateOpen(past[i]) && GateOpen(past[i+1])
    ensures Thawing(past[i]) || exists t :: Switching(past[i], t)
  {
    hide Inv;
    RunIsLawful(past, i);
    if !Thawing(past[i]) {
      var w := past[i];
      var t :| Open(w.journals, t) && w.journals[t].reopened && w.journals[t].phase == Reopening
        && w.active == Some(t) && Replaced(w.created, t, w.journals[t].plan);
      assert Switching(w, t);
    }
  }

  /** A backup's own fence, with no upgrade holding the identity fence. */
  predicate Thawing(w: World) {
    w.maintenance.None? && w.local.Some? && w.local.value.cause == BackupFence
  }

  /** A reopening that is durable, of a target that ACTIVE names and whose superseded containers are gone. */
  predicate Switching(w: World, t: Target) {
    Open(w.journals, t) && w.journals[t].reopened && w.active == Some(t) && Replaced(w.created, t, w.journals[t].plan)
  }

  /** fence_continuous never answers yes over a product write, in any state of any run. */
  lemma {:induction false} ContinuousFenceIsSound(past: seq<World>, i: nat, t: Target)
    requires Lawful(past) && i < |past| && Open(past[i].journals, t) && !past[i].journals[t].reopened
    requires FenceContinuous(past[i], past[i].journals[t])
    ensures past[i].journals[t].backup !in past[i].written && !Exposed(past[i])
  {
    hide Inv, Step;
    RunIsLawful(past, i);
    ContinuousIsQuiet(past[i], t);
  }

  /** Nor does it strand an upgrade that holds its own identity fence: there it always answers yes. */
  lemma {:induction false} SealedFenceIsContinuous(past: seq<World>, i: nat, t: Target)
    requires Lawful(past) && i < |past| && Open(past[i].journals, t) && Sealed(past[i], past[i].journals[t])
    ensures FenceContinuous(past[i], past[i].journals[t])
  {
    RunIsLawful(past, i);
    assert HeldBy(past[i], past[i].journals[t]);
  }

  // ---------- one upgrade at a time ----------

  /** At most one unfinished journal is not named by another unfinished one as its predecessor. */
  lemma {:induction false} OneUnfinishedLeads(past: seq<World>, i: nat, s: Target, t: Target)
    requires Lawful(past) && i < |past| && Open(past[i].journals, s) && Open(past[i].journals, t)
    requires Unfixed(past[i].journals, s) && Unfixed(past[i].journals, t)
    ensures s == t
  {
    hide Lineage, Held, Evidence;
    RunIsLawful(past, i);
  }

  // ---------- irreversibility ----------

  lemma {:induction false} HistoryOnlyGrows(past: seq<World>, i: nat, j: nat)
    requires Lawful(past) && i <= j < |past|
    ensures past[i].history <= past[j].history && past[i].written <= past[j].written
    decreases j - i
  {
    hide Inv;
    if i < j {
      RunIsLawful(past, i);
      HistoryOnlyGrows(past, i + 1, j);
    }
  }

  lemma {:induction false} MarkStays(a: World, b: World, t: Target)
    requires Inv(a) && Step(a, b) && t in a.journals && a.journals[t].identityStarted
    ensures t in b.journals && b.journals[t].identityStarted
  {
    hide Lineage, OneAtATime, OnePairOneStory, Held, Evidence, HistoryGrows, Conserved, Untouched, Conserves;
  }

  lemma {:induction false} MarksStay(past: seq<World>, i: nat, j: nat, t: Target)
    requires Lawful(past) && i <= j < |past| && t in past[i].journals && past[i].journals[t].identityStarted
    ensures t in past[j].journals && past[j].journals[t].identityStarted
    decreases j - i
  {
    hide Inv, Step;
    if i < j {
      RunIsLawful(past, i);
      MarkStays(past[i], past[i+1], t);
      MarksStay(past, i + 1, j, t);
    }
  }

  lemma {:induction false} PairsStay(past: seq<World>, i: nat, j: nat, b: BackupId)
    requires Lawful(past) && i <= j < |past| && b in past[i].pairs
    ensures b in past[j].pairs && past[j].pairs[b] == past[i].pairs[b]
    decreases j - i
  {
    hide Inv;
    if i < j {
      RunIsLawful(past, i);
      PairsStay(past, i + 1, j, b);
    }
  }

  lemma {:induction false} SameSchemasMeansUncommitted(past: seq<World>, i: nat, j: nat, b: BackupId)
    requires Lawful(past) && i <= j < |past| && b in past[i].pairs && SameSchemas(past[j], b)
    ensures past[i].history == past[i].pairs[b].history
  {
    RunIsLawful(past, i);
    RunIsLawful(past, j);
    hide Inv, Step, Lawful;
    HistoryOnlyGrows(past, i, j);
    PairsStay(past, i, j, b);
    PairIsBeneath(past[i], b);
    PairIsBeneath(past[j], b);
    SameLastVersion(past[j].pairs[b].history, past[j].history);
  }

  lemma {:induction false} PairIsBeneath(w: World, b: BackupId)
    requires Inv(w) && b in w.pairs
    ensures w.pairs[b].history != [] && w.pairs[b].history <= w.history && Increasing(RowVersions(w.history))
  {
  }

  /** Once one migration is committed past a pair, no upgrade on that pair can ever be abandoned. */
  lemma {:induction false} CommitIsForever(past: seq<World>, i: nat, j: nat, t: Target)
    requires Lawful(past) && i <= j < |past| && t in past[j].journals && past[j].journals[t].backup in past[i].pairs
    requires past[i].history != past[i].pairs[past[j].journals[t].backup].history
    ensures !Abandonable(past[j], t)
  {
    hide Lawful;
    if SameSchemas(past[j], past[j].journals[t].backup) {
      SameSchemasMeansUncommitted(past, i, j, past[j].journals[t].backup);
    }
  }

  /** Once a target's Keycloak has been started, its upgrade can never be abandoned; its mark was durable first. */
  lemma {:induction false} KeycloakIsForever(past: seq<World>, i: nat, j: nat, t: Target)
    requires Lawful(past) && i <= j < |past| && past[i].keycloak == Some(t)
    ensures t in past[i].journals && past[i].journals[t].identityStarted && !Abandonable(past[j], t)
  {
    RunIsLawful(past, i);
    MarksStay(past, i, j, t);
  }

  /** A migration actor never exists without its durable mark. */
  lemma {:induction false} ActorIsMarked(past: seq<World>, i: nat, t: Target)
    requires Lawful(past) && i < |past| && past[i].actor == Some(t)
    ensures t in past[i].journals && past[i].journals[t].migrationStarted
  {
    RunIsLawful(past, i);
  }

  // ---------- conservation ----------

  /** The claim of t is not given up between i and j. */
  ghost predicate Stands(past: seq<World>, i: nat, j: nat, t: Target)
    requires i <= j < |past|
  {
    forall k :: i <= k <= j ==> Marks(past[k].journals, t)
  }

  /** Identity at some moment between i and j was the claim's baseline, up to the one approved notice. */
  ghost predicate ConservedBetween(past: seq<World>, i: nat, j: nat, t: Target, claim: Journal)
    requires i <= j < |past|
  {
    exists k :: i <= k < j && Conserves(past[k], t, claim)
  }

  /** No upgrade is reopened, at any point of any run, but over the identity its claim recorded. */
  lemma {:induction false} ReopeningConservesIdentity(past: seq<World>, i: nat, j: nat, t: Target)
    requires Lawful(past) && i <= j < |past| && Stands(past, i, j, t)
    requires !past[i].journals[t].reopened && past[j].journals[t].reopened
    ensures ConservedBetween(past, i, j, t, past[i].journals[t])
    ensures SameClaim(past[i].journals[t], past[j].journals[t])
    decreases j - i
  {
    hide Inv, Conserves;
    RunIsLawful(past, i);
    assert i < j && Marks(past[i].journals, t) && Marks(past[i+1].journals, t);
    var a, b := past[i].journals[t], past[i+1].journals[t];
    assert Advances(past[i], t, a, b);
    assert Stands(past, i + 1, j, t);
    if b.reopened {
      assert Conserves(past[i], t, a);
      ClaimStays(past, i + 1, j, t);
    } else {
      ReopeningConservesIdentity(past, i + 1, j, t);
      var k :| i + 1 <= k < j && Conserves(past[k], t, b);
      SameBaseline(past[k], t, a, b);
      assert i <= k < j && Conserves(past[k], t, a);
    }
  }

  lemma SameBaseline(w: World, t: Target, a: Journal, b: Journal)
    requires SameClaim(a, b)
    ensures Conserves(w, t, a) <==> Conserves(w, t, b)
  {
  }

  lemma {:induction false} ClaimStays(past: seq<World>, i: nat, j: nat, t: Target)
    requires Lawful(past) && i <= j < |past| && Stands(past, i, j, t)
    ensures SameClaim(past[i].journals[t], past[j].journals[t])
    decreases j - i
  {
    hide Inv, Conserves;
    if i < j {
      RunIsLawful(past, i);
      assert Marks(past[i].journals, t) && Marks(past[i+1].journals, t);
      assert Advances(past[i], t, past[i].journals[t], past[i+1].journals[t]);
      ClaimStays(past, i + 1, j, t);
    }
  }

  // ---------- kept texts ----------

  /** The first texts that were kept for a target are never replaced. */
  lemma {:induction false} SnapshotStays(past: seq<World>, i: nat, j: nat, t: Target)
    requires Lawful(past) && i <= j < |past| && t in past[i].snapshots
    ensures t in past[j].snapshots && past[j].snapshots[t] == past[i].snapshots[t]
    decreases j - i
  {
    hide Inv;
    if i < j {
      RunIsLawful(past, i);
      SnapshotStays(past, i + 1, j, t);
    }
  }

  /** Kept texts, if any, are the ones that the claim recorded before anything was written. */
  predicate Baselined(w: World, t: Target) {
    t in w.journals && (t in w.snapshots ==> w.snapshots[t] == w.journals[t].before.texts)
  }

  lemma {:induction false} BaselineStays(past: seq<World>, i: nat, j: nat, t: Target)
    requires Lawful(past) && i <= j < |past| && Stands(past, i, j, t) && Baselined(past[i], t)
    ensures Baselined(past[j], t)
    decreases j - i
  {
    hide Inv, Conserves;
    if i < j {
      RunIsLawful(past, i);
      assert Marks(past[i].journals, t) && Marks(past[i+1].journals, t);
      assert Advances(past[i], t, past[i].journals[t], past[i+1].journals[t]);
      BaselineStays(past, i + 1, j, t);
    }
  }

  /** What identity must be when a claim is reopened: the baseline, with the one notice where it migrates. */
  function ExpectedIdentity(j: Journal): Digests {
    if j.plan.notice then j.before.(texts := Aligned(j.before.texts)) else j.before
  }

  /**
   * Whatever was kept, resumed or carried in between: when a claim is reopened, identity is exactly
   * the pair's own, and of the localization texts exactly the one notice differs, if it migrates.
   */
  lemma {:induction false} ReopeningIsExact(past: seq<World>, i: nat, j: nat, t: Target)
    requires Lawful(past) && i <= j < |past| && Stands(past, i, j, t) && Baselined(past[i], t)
    requires !past[i].journals[t].reopened && past[j].journals[t].reopened
    ensures past[i].journals[t].backup in past[i].pairs
    ensures past[i].journals[t].before == past[i].pairs[past[i].journals[t].backup].digests
    ensures exists k :: i <= k < j && past[k].digests == ExpectedIdentity(past[i].journals[t])
  {
    BaselineIsPaired(past, i, t);
    ReopeningConservesIdentity(past, i, j, t);
    var k :| i <= k < j && Conserves(past[k], t, past[i].journals[t]);
    StandsUntil(past, i, k, j, t);
    BaselineStays(past, i, k, t);
    ClaimStays(past, i, k, t);
    assert past[k].digests == ExpectedIdentity(past[i].journals[t]);
  }

  lemma StandsUntil(past: seq<World>, i: nat, k: nat, j: nat, t: Target)
    requires i <= k <= j < |past| && Stands(past, i, j, t)
    ensures Stands(past, i, k, t)
  {
  }

  lemma {:induction false} BaselineIsPaired(past: seq<World>, i: nat, t: Target)
    requires Lawful(past) && i < |past| && t in past[i].journals
    ensures past[i].journals[t].backup in past[i].pairs
    ensures past[i].journals[t].before == past[i].pairs[past[i].journals[t].backup].digests
  {
    RunIsLawful(past, i);
  }

  /** And an upgrade that migrates the notice completes over the claim's own texts with that notice alone approved. */
  lemma {:induction false} CompletionAlignsOneNotice(past: seq<World>, i: nat, j: nat, t: Target)
    requires Lawful(past) && i <= j < |past| && Stands(past, i, j, t) && Baselined(past[i], t)
    requires Completed(past[j], t, past[j].journals[t]) && past[i].journals[t].plan.notice
    ensures past[j].digests.texts == Texts(APPROVED, past[i].journals[t].before.texts.others)
  {
    BaselineStays(past, i, j, t);
    ClaimStays(past, i, j, t);
  }

  // ---------- chains of forward fixes ----------

  /** One claim of a chain: the step that made it, and its target. */
  datatype Link = Link(at: nat, target: Target)

  /** Forward fixes of forward fixes: each is claimed, at the step before its moment, while the one before it still stands. */
  ghost predicate Chain(past: seq<World>, chain: seq<Link>) {
    && chain != [] && chain[0].at < |past|
    && forall n: nat :: n + 1 < |chain| ==> Follows(past, chain[n], chain[n+1])
  }

  /** t was claimed at its step as the forward fix of p, which stood from its own claim until then. */
  ghost predicate Follows(past: seq<World>, p: Link, t: Link) {
    && p.at < t.at < |past|
    && NewlyClaimed(past[t.at-1].journals, past[t.at].journals, t.target)
    && past[t.at].journals[t.target].predecessor == Some(p.target)
    && Stands(past, p.at, t.at - 1, p.target)
  }

  /** b holds the recovery point that a held, and the first texts kept for it. */
  predicate SamePoint(v: World, p: Target, w: World, t: Target) {
    && p in v.journals && t in w.journals
    && w.journals[t].run == v.journals[p].run
    && w.journals[t].backup == v.journals[p].backup
    && w.journals[t].before == v.journals[p].before
    && (p in v.snapshots ==> t in w.snapshots && w.snapshots[t] == v.snapshots[p])
    && (Baselined(v, p) ==> Baselined(w, t))
  }

  lemma {:induction false} PointStays(past: seq<World>, i: nat, j: nat, t: Target)
    requires Lawful(past) && i <= j < |past| && Stands(past, i, j, t)
    ensures SamePoint(past[i], t, past[j], t)
  {
    ClaimStays(past, i, j, t);
    if t in past[i].snapshots { SnapshotStays(past, i, j, t); }
    if Baselined(past[i], t) { BaselineStays(past, i, j, t); }
  }

  lemma {:induction false} FixInherits(past: seq<World>, p: Link, t: Link)
    requires Lawful(past) && Follows(past, p, t)
    ensures SamePoint(past[p.at], p.target, past[t.at], t.target)
  {
    hide Inv;
    PointStays(past, p.at, t.at - 1, p.target);
    RunIsLawful(past, t.at - 1);
    var a, b := past[t.at-1], past[t.at];
    ClaimInherits(a, b, p.target, t.target);
    hide Step, Lawful, Stands;
    assert SamePoint(past[p.at], p.target, a, p.target);
  }

  /** The step that claims a fix hands it the point of its predecessor, and moves no kept text. */
  lemma ClaimInherits(a: World, b: World, p: Target, t: Target)
    requires Step(a, b) && NewlyClaimed(a.journals, b.journals, t) && b.journals[t].predecessor == Some(p)
    ensures SamePoint(a, p, b, t)
  {
    assert b.journals != a.journals;
    assert Inherits(a, t, b.journals[t], p);
    hide JournalsAdvance, ClaimsInherit, SnapshotsKept, MayOpen;
  }

  lemma {:induction false} ChainFront(past: seq<World>, chain: seq<Link>)
    requires Chain(past, chain) && |chain| > 1
    ensures Chain(past, chain[..|chain|-1]) && Follows(past, chain[|chain|-2], chain[|chain|-1])
  {
    hide Follows;
    var n := |chain| - 2;
    assert Follows(past, chain[n], chain[n+1]);
  }

  /** Every fix of a chain carries the first claim's run, pair, identity baseline and kept texts. */
  lemma {:induction false} ChainKeepsBaseline(past: seq<World>, chain: seq<Link>)
    requires Lawful(past) && Chain(past, chain) && chain[0].target in past[chain[0].at].journals
    ensures chain[|chain|-1].at < |past|
    ensures SamePoint(past[chain[0].at], chain[0].target, past[chain[|chain|-1].at], chain[|chain|-1].target)
    decreases |chain|
  {
    var n := |chain| - 1;
    if n > 0 {
      ChainFront(past, chain);
      ChainKeepsBaseline(past, chain[..n]);
      FixInherits(past, chain[n-1], chain[n]);
      hide Lawful, Chain, Follows;
    }
  }

  // ---------- convergence ----------

  /** The row was written by applying this very file. */
  predicate IsOf(row: Row, m: Migration) {
    row.success && row.version == m.version && row.script == m.script && row.checksum == m.checksum
  }

  /**
   * However an upgrade got there, resumed or not, its completion holds exactly the inventory's
   * migrations; and where the notice migrates, the claim's own texts with that notice approved.
   */
  lemma {:induction false} CompletionIsDetermined(w: World, t: Target, j: Journal)
    requires Inv(w) && Completed(w, t, j) && Increasing(FileVersions(j.plan.inventory))
    ensures |w.history| == |j.plan.inventory|
    ensures forall i :: 0 <= i < |w.history| ==> IsOf(w.history[i], j.plan.inventory[i])
    ensures j.plan.notice && Baselined(w, t) ==> w.digests.texts == Texts(APPROVED, j.before.texts.others)
  {
    var files := j.plan.inventory;
    assert Increasing(RowVersions(w.history));
    hide Inv, FlywayDelta, Increasing;
    AcceptedIsPrefix(w.history, files);
  }

  /** Two completions of one plan agree row for row, in session policy, and from equal baselines in every text. */
  lemma {:induction false} CompletionsAgree(v: World, w: World, s: Target, t: Target, a: Journal, b: Journal)
    requires Inv(v) && Completed(v, s, a) && Inv(w) && Completed(w, t, b)
    requires a.plan == b.plan && Increasing(FileVersions(a.plan.inventory))
    ensures |v.history| == |w.history|
    ensures forall i :: 0 <= i < |v.history| ==> v.history[i].(rank := 0) == w.history[i].(rank := 0)
    ensures v.session == w.session && v.logins == w.logins && GateOpen(v) == GateOpen(w)
    ensures a.plan.notice && Baselined(v, s) && Baselined(w, t) && a.before.texts == b.before.texts ==>
      v.digests.texts == w.digests.texts
  {
    CompletionIsDetermined(v, s, a);
    CompletionIsDetermined(w, t, b);
    hide Inv, Migrated, Increasing, Replaced;
  }
}
