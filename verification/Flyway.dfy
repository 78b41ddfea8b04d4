/** The migration inventory of a target source, and the split of an applied history against it. */
module Flyway {
  import opened Common

  datatype Migration = Migration(version: string, script: string, checksum: int)
  datatype Row = Row(rank: nat, version: string, script: string, checksum: int, success: bool)
  datatype Delta = Delta(currentRank: nat, currentVersion: Option<string>,
                         targetVersion: string, pending: seq<string>)

  const BOUND := 2000

  // ---------- version keys ----------

  type Key = seq<nat>

  function Digit(c: char): nat {
    if '0' <= c <= '9' then c as nat - '0' as nat else 0
  }

  function Number(s: string): nat {
    if s == "" then 0 else 10 * Number(s[..|s|-1]) + Digit(s[|s|-1])
  }

  /** The parts between dots, as numbers. Only versions of inventory files are ever keyed. */
  function VersionKey(version: string): Key {
    KeyParts(version, "")
  }

  function KeyParts(rest: string, part: string): Key {
    if rest == "" then [Number(part)]
    else if rest[0] == '.' then [Number(part)] + KeyParts(rest[1..], "")
    else KeyParts(rest[1..], part + [rest[0]])
  }

  /** Lexicographic order of keys, a proper prefix being smaller. */
  predicate Less(a: Key, b: Key) {
    if b == [] then false
    else if a == [] then true
    else a[0] < b[0] || (a[0] == b[0] && Less(a[1..], b[1..]))
  }

  lemma {:induction false} LessIsTransitive(a: Key, b: Key, c: Key)
    requires Less(a, b) && Less(b, c)
    ensures Less(a, c)
  {
    if a != [] && a[0] == b[0] && b[0] == c[0] {
      LessIsTransitive(a[1..], b[1..], c[1..]);
    }
  }

  lemma {:induction false} LessIsIrreflexive(a: Key)
    ensures !Less(a, a)
  {
    if a != [] {
      LessIsIrreflexive(a[1..]);
    }
  }

  lemma {:induction false} LessIsTotal(a: Key, b: Key)
    ensures Less(a, b) || a == b || Less(b, a)
  {
    if a != [] && b != [] && a[0] == b[0] {
      LessIsTotal(a[1..], b[1..]);
      assert a == [a[0]] + a[1..] && b == [b[0]] + b[1..];
    }
  }

  predicate Increasing(versions: seq<string>) {
    forall i, j :: 0 <= i < j < |versions| ==> Less(VersionKey(versions[i]), VersionKey(versions[j]))
  }

  function FileVersions(files: seq<Migration>): (r: seq<string>)
    ensures |r| == |files| && forall i :: 0 <= i < |r| ==> r[i] == files[i].version
  {
    seq(|files|, i requires 0 <= i < |files| => files[i].version)
  }

  function RowVersions(rows: seq<Row>): (r: seq<string>)
    ensures |r| == |rows| && forall i :: 0 <= i < |r| ==> r[i] == rows[i].version
  {
    seq(|rows|, i requires 0 <= i < |rows| => rows[i].version)
  }

  lemma IncreasingVersionsDiffer(versions: seq<string>, i: nat, j: nat)
    requires Increasing(versions) && i < |versions| && j < |versions|
    ensures versions[i] == versions[j] <==> i == j
  {
    if i != j {
      LessIsIrreflexive(VersionKey(versions[i]));
    }
  }

  // ---------- the inventory of a source tree ----------

  /** A sorted copy, later entries after earlier ones of the same key. */
  function Sorted(files: seq<Migration>): (r: seq<Migration>)
    ensures multiset(r) == multiset(files)
  {
    if files == [] then []
    else
      assert files == files[..|files|-1] + [files[|files|-1]];
      Insert(files[|files|-1], Sorted(files[..|files|-1]))
  }

  function Insert(m: Migration, files: seq<Migration>): (r: seq<Migration>)
    ensures multiset(r) == multiset(files) + multiset{m}
  {
    if files == [] then [m]
    else if Less(VersionKey(m.version), VersionKey(files[|files|-1].version)) then
      assert files == files[..|files|-1] + [files[|files|-1]];
      Insert(m, files[..|files|-1]) + [files[|files|-1]]
    else files + [m]
  }

  predicate DistinctKeys(files: seq<Migration>) {
    forall i, j :: 0 <= i < j < |files| ==> VersionKey(files[i].version) != VersionKey(files[j].version)
  }

  predicate StrictlyOrdered(files: seq<Migration>) {
    Increasing(FileVersions(files))
  }

  lemma {:induction false} InsertKeepsOrder(m: Migration, files: seq<Migration>)
    requires StrictlyOrdered(files)
    requires forall f :: f in files ==> VersionKey(f.version) != VersionKey(m.version)
    ensures StrictlyOrdered(Insert(m, files))
  {
    hide VersionKey, Less;
    if files != [] {
      var init, last := files[..|files|-1], files[|files|-1];
      assert last in files;
      LessIsTotal(VersionKey(m.version), VersionKey(last.version));
      if Less(VersionKey(m.version), VersionKey(last.version)) {
        PrefixIsOrdered(files, |init|);
        InsertKeepsOrder(m, init);
        InsertedIsBelow(m, files, Insert(m, init));
        AppendKeepsOrder(Insert(m, init), last);
      } else {
        forall i | 0 <= i < |init| ensures Less(VersionKey(files[i].version), VersionKey(m.version)) {
          assert Less(VersionKey(FileVersions(files)[i]), VersionKey(FileVersions(files)[|init|]));
          LessIsTransitive(VersionKey(files[i].version), VersionKey(last.version), VersionKey(m.version));
        }
        AppendKeepsOrder(files, m);
      }
    }
  }

  lemma PrefixIsOrdered(files: seq<Migration>, n: nat)
    requires StrictlyOrdered(files) && n <= |files|
    ensures StrictlyOrdered(files[..n])
  {
    assert FileVersions(files[..n]) == FileVersions(files)[..n];
  }

  lemma AppendKeepsOrder(files: seq<Migration>, m: Migration)
    requires StrictlyOrdered(files)
    requires forall i :: 0 <= i < |files| ==> Less(VersionKey(files[i].version), VersionKey(m.version))
    ensures StrictlyOrdered(files + [m])
  {
    hide VersionKey, Less;
    assert FileVersions(files + [m]) == FileVersions(files) + [m.version];
  }

  lemma InsertedIsBelow(m: Migration, files: seq<Migration>, r: seq<Migration>)
    requires files != [] && StrictlyOrdered(files) && r == Insert(m, files[..|files|-1])
    requires Less(VersionKey(m.version), VersionKey(files[|files|-1].version))
    ensures forall i :: 0 <= i < |r| ==> Less(VersionKey(r[i].version), VersionKey(files[|files|-1].version))
  {
    hide VersionKey, Less;
    var init, last := files[..|files|-1], files[|files|-1];
    forall i | 0 <= i < |r| ensures Less(VersionKey(r[i].version), VersionKey(last.version)) {
      InsertedFrom(m, init, i);
      hide Insert;
      if r[i] != m {
        var j :| 0 <= j < |init| && init[j] == r[i];
        assert Less(VersionKey(FileVersions(files)[j]), VersionKey(FileVersions(files)[|init|]));
      }
    }
  }

  lemma InsertedFrom(m: Migration, files: seq<Migration>, i: nat)
    requires i < |Insert(m, files)|
    ensures Insert(m, files)[i] == m || Insert(m, files)[i] in files
  {
    assert Insert(m, files)[i] in multiset(Insert(m, files));
  }

  /** Sorting an inventory with pairwise distinct keys orders its versions strictly. */
  lemma {:induction false} SortedIncreases(files: seq<Migration>)
    requires DistinctKeys(files)
    ensures StrictlyOrdered(Sorted(files))
  {
    if files != [] {
      var init, m := files[..|files|-1], files[|files|-1];
      SortedIncreases(init);
      forall f | f in Sorted(init) ensures VersionKey(f.version) != VersionKey(m.version) {
        assert f in multiset(Sorted(init));
        var j :| 0 <= j < |init| && init[j] == f;
        assert files[j] == f;
      }
      InsertKeepsOrder(m, Sorted(init));
    }
  }

  // ---------- the split ----------

  /** known[version], where a later file of the same version replaces an earlier one. */
  function Known(files: seq<Migration>, version: string): Option<Migration> {
    if files == [] then None
    else if files[|files|-1].version == version then Some(files[|files|-1])
    else Known(files[..|files|-1], version)
  }

  predicate Applied(history: seq<Row>, version: string) {
    exists i :: 0 <= i < |history| && history[i].version == version
  }

  function Pending(files: seq<Migration>, history: seq<Row>): seq<Migration> {
    if files == [] then []
    else
      var rest := Pending(files[..|files|-1], history);
      if Applied(history, files[|files|-1].version) then rest else rest + [files[|files|-1]]
  }

  function MaxKey(history: seq<Row>): Key
    requires history != []
  {
    var last := VersionKey(history[|history|-1].version);
    if |history| == 1 then last
    else
      var before := MaxKey(history[..|history|-1]);
      if Less(before, last) then last else before
  }

  predicate Matches(row: Row, m: Migration) {
    row.version == m.version && row.script == m.script && row.checksum == m.checksum
  }

  function Scripts(files: seq<Migration>): seq<string> {
    seq(|files|, i requires 0 <= i < |files| => files[i].script)
  }

  predicate InOrder(history: seq<Row>, pending: seq<Migration>) {
    history != [] ==> forall i :: 0 <= i < |pending| ==> Less(MaxKey(history), VersionKey(pending[i].version))
  }

  /** The first refusal wins, row by row, as the loop over the history raises it. */
  function CheckRows(history: seq<Row>, files: seq<Migration>): Result<()> {
    if history == [] then Ok(())
    else
      var _ :- CheckRows(history[..|history|-1], files);
      var row := history[|history|-1];
      var known := Known(files, row.version);
      if known.None? then Refused("The database is ahead of the target source; refused.")
      else if !Matches(row, known.value) then Refused("An applied migration differs from the target source; refused.")
      else Ok(())
  }

  /** The answer to an accepted history: where it stands, where the files end, and what is left. */
  function Endpoint(history: seq<Row>, files: seq<Migration>): Delta
    requires files != []
  {
    Delta(if history == [] then 0 else history[|history|-1].rank,
          if history == [] then None else Some(history[|history|-1].version),
          files[|files|-1].version, Scripts(Pending(files, history)))
  }

  function FlywayDelta(history: seq<Row>, files: seq<Migration>): Result<Delta>
    requires files != []
  {
    if |history| > BOUND || |files| > BOUND then Refused("Migration inventory exceeds its bound.")
    else if exists i :: 0 <= i < |history| && !history[i].success then
      Refused("A failed Flyway row exists: forward recovery required, no repair.")
    else if CheckRows(history, files).Refused? then Refused(CheckRows(history, files).reason)
    else if !InOrder(history, Pending(files, history)) then Refused("Out-of-order pending migration refused.")
    else Ok(Endpoint(history, files))
  }

  lemma AcceptanceIs(history: seq<Row>, files: seq<Migration>)
    requires files != []
    ensures FlywayDelta(history, files).Ok? <==>
      (|history| <= BOUND && |files| <= BOUND && (forall i :: 0 <= i < |history| ==> history[i].success)
       && CheckRows(history, files).Ok? && InOrder(history, Pending(files, history)))
    ensures FlywayDelta(history, files).Ok? ==> FlywayDelta(history, files).value == Endpoint(history, files)
  {
    hide CheckRows, InOrder, Pending;
  }

  // ---------- what an acceptance means ----------

  /** The row is one of the first k files. */
  ghost predicate AmongFirst(row: Row, files: seq<Migration>, k: nat)
    requires k <= |files|
  {
    exists j :: 0 <= j < k && Matches(row, files[j])
  }

  ghost predicate IsFile(row: Row, files: seq<Migration>) {
    AmongFirst(row, files, |files|)
  }

  /** Exactly the versions of the first k files are applied, each with the file's own bytes. */
  ghost predicate SplitAt(history: seq<Row>, files: seq<Migration>, k: nat) {
    && k <= |files|
    && (forall i :: 0 <= i < |history| ==> history[i].success && AmongFirst(history[i], files, k))
    && (forall j :: 0 <= j < k ==> Applied(history, files[j].version))
  }

  lemma {:induction false} KnownIsTheFile(files: seq<Migration>, j: nat)
    requires Increasing(FileVersions(files)) && j < |files|
    ensures Known(files, files[j].version) == Some(files[j])
  {
    var last := |files| - 1;
    IncreasingVersionsDiffer(FileVersions(files), j, last);
    if j < last {
      var init := files[..last];
      assert FileVersions(init) == FileVersions(files)[..last];
      assert init[j] == files[j];
      KnownIsTheFile(init, j);
    }
  }

  lemma {:induction false} KnownIsAFile(files: seq<Migration>, version: string)
    ensures Known(files, version).Some? ==> exists j :: 0 <= j < |files| && files[j] == Known(files, version).value && files[j].version == version
  {
    if files != [] && files[|files|-1].version != version {
      KnownIsAFile(files[..|files|-1], version);
    }
  }

  lemma {:induction false} CheckedRowsAreFiles(history: seq<Row>, files: seq<Migration>)
    requires Increasing(FileVersions(files))
    ensures CheckRows(history, files).Ok? <==>
      forall i :: 0 <= i < |history| ==> IsFile(history[i], files)
  {
    if history != [] {
      var init, row := history[..|history|-1], history[|history|-1];
      CheckedRowsAreFiles(init, files);
      KnownIsAFile(files, row.version);
      if IsFile(row, files) {
        var j :| 0 <= j < |files| && Matches(row, files[j]);
        KnownIsTheFile(files, j);
      }
      assert forall i :: 0 <= i < |init| ==> init[i] == history[i];
      assert CheckRows(history, files).Ok? <==>
        CheckRows(init, files).Ok? && IsFile(row, files);
    }
  }

  lemma {:induction false} PendingAreTheRest(files: seq<Migration>, history: seq<Row>)
    ensures forall m :: m in Pending(files, history) <==> m in files && !Applied(history, m.version)
  {
    if files != [] {
      PendingAreTheRest(files[..|files|-1], history);
      assert files == files[..|files|-1] + [files[|files|-1]];
    }
  }

  lemma PendingTakes(history: seq<Row>, files: seq<Migration>, n: nat)
    requires 0 < n <= |files|
    ensures Pending(files[..n], history) ==
      if Applied(history, files[n-1].version) then Pending(files[..n-1], history)
      else Pending(files[..n-1], history) + [files[n-1]]
  {
    hide Applied;
    assert files[..n][..n-1] == files[..n-1];
  }

  lemma {:induction false} PendingBelowSplit(history: seq<Row>, files: seq<Migration>, k: nat, n: nat)
    requires SplitAt(history, files, k) && n <= k <= |files|
    ensures Pending(files[..n], history) == []
  {
    hide SplitAt, Applied;
    if n > 0 {
      PendingBelowSplit(history, files, k, n - 1);
      PendingTakes(history, files, n);
      BelowSplitIsApplied(history, files, k, n - 1);
      hide Pending;
    }
  }

  lemma {:induction false} PendingOfSplit(history: seq<Row>, files: seq<Migration>, k: nat, n: nat)
    requires Increasing(FileVersions(files)) && SplitAt(history, files, k) && k <= n <= |files|
    ensures Pending(files[..n], history) == files[k..n]
  {
    hide SplitAt, Applied, Increasing, FileVersions;
    if n == k {
      PendingBelowSplit(history, files, k, n);
    } else {
      PendingOfSplit(history, files, k, n - 1);
      PendingTakes(history, files, n);
      PastSplitIsPending(history, files, k, n - 1);
      assert files[k..n] == files[k..n-1] + [files[n-1]];
      hide Pending;
    }
  }

  lemma BelowSplitIsApplied(history: seq<Row>, files: seq<Migration>, k: nat, n: nat)
    requires SplitAt(history, files, k) && n < k
    ensures Applied(history, files[n].version)
  {
  }

  lemma PastSplitIsPending(history: seq<Row>, files: seq<Migration>, k: nat, n: nat)
    requires Increasing(FileVersions(files)) && SplitAt(history, files, k) && k <= n < |files|
    ensures !Applied(history, files[n].version)
  {
    hide VersionKey, Less;
    forall i | 0 <= i < |history| ensures history[i].version != files[n].version {
      var j :| 0 <= j < k && Matches(history[i], files[j]);
      IncreasingVersionsDiffer(FileVersions(files), j, n);
    }
  }

  lemma {:induction false} MaxKeyBounds(history: seq<Row>)
    requires history != []
    ensures forall i :: 0 <= i < |history| ==>
      VersionKey(history[i].version) == MaxKey(history) || Less(VersionKey(history[i].version), MaxKey(history))
    ensures exists i :: 0 <= i < |history| && VersionKey(history[i].version) == MaxKey(history)
  {
    var n := |history| - 1;
    if n > 0 {
      var init := history[..n];
      MaxKeyBounds(init);
      var last := VersionKey(history[n].version);
      LessIsTotal(MaxKey(init), last);
      forall i | 0 <= i < |history|
        ensures VersionKey(history[i].version) == MaxKey(history) || Less(VersionKey(history[i].version), MaxKey(history))
      {
        if i < n {
          assert init[i] == history[i];
          if Less(MaxKey(init), last) && VersionKey(init[i].version) != MaxKey(init) {
            LessIsTransitive(VersionKey(init[i].version), MaxKey(init), last);
          }
        }
      }
      var w :| 0 <= w < n && VersionKey(init[w].version) == MaxKey(init);
      assert history[w] == init[w];
      assert VersionKey(history[if Less(MaxKey(init), last) then n else w].version) == MaxKey(history);
    } else {
      assert VersionKey(history[0].version) == MaxKey(history);
    }
  }

  /** The number of files up to the last applied one. */
  function SplitPoint(history: seq<Row>, files: seq<Migration>): (k: nat)
    ensures k <= |files|
    ensures forall j :: k <= j < |files| ==> !Applied(history, files[j].version)
    ensures k > 0 ==> Applied(history, files[k-1].version)
  {
    if files == [] then 0
    else if Applied(history, files[|files|-1].version) then |files|
    else SplitPoint(history, files[..|files|-1])
  }

  /** Out-of-order checking is exactly what makes the applied files a prefix. */
  lemma OrderMakesAPrefix(history: seq<Row>, files: seq<Migration>)
    requires Increasing(FileVersions(files)) && history != []
    requires forall i :: 0 <= i < |history| ==> IsFile(history[i], files)
    requires forall m :: m in files && !Applied(history, m.version) ==> Less(MaxKey(history), VersionKey(m.version))
    ensures forall j :: 0 <= j < SplitPoint(history, files) ==> Applied(history, files[j].version)
    ensures forall i :: 0 <= i < |history| ==> AmongFirst(history[i], files, SplitPoint(history, files))
  {
    var k := SplitPoint(history, files);
    MaxKeyBounds(history);
    forall j | 0 <= j < k ensures Applied(history, files[j].version) {
      if !Applied(history, files[j].version) {
        assert files[j] in files;
        var top, key := VersionKey(files[k-1].version), VersionKey(files[j].version);
        var i :| 0 <= i < |history| && history[i].version == files[k-1].version;
        assert Less(key, top);
        if top != MaxKey(history) {
          LessIsTransitive(top, MaxKey(history), key);
        }
        LessIsTransitive(top, key, top);
        LessIsIrreflexive(top);
      }
    }
    forall i | 0 <= i < |history| ensures AmongFirst(history[i], files, k) {
      var j :| 0 <= j < |files| && Matches(history[i], files[j]);
      assert Applied(history, files[j].version);
    }
  }

  /** A split leaves nothing out of order: every file past it is above everything applied. */
  lemma PrefixKeepsOrder(history: seq<Row>, files: seq<Migration>, k: nat)
    requires Increasing(FileVersions(files)) && history != [] && SplitAt(history, files, k)
    ensures forall j :: k <= j < |files| ==> Less(MaxKey(history), VersionKey(files[j].version))
  {
    MaxKeyBounds(history);
    var w :| 0 <= w < |history| && VersionKey(history[w].version) == MaxKey(history);
    var f :| 0 <= f < k && Matches(history[w], files[f]);
  }

  lemma AcceptedHasSplit(history: seq<Row>, files: seq<Migration>) returns (k: nat)
    requires files != [] && Increasing(FileVersions(files)) && FlywayDelta(history, files).Ok?
    ensures SplitAt(history, files, k)
  {
    hide FlywayDelta, VersionKey, Less, Pending, InOrder, MaxKey, CheckRows, Matches, Increasing, AmongFirst;
    AcceptanceIs(history, files);
    CheckedRowsAreFiles(history, files);
    k := 0;
    if history != [] {
      PendingAreAbove(history, files);
      OrderMakesAPrefix(history, files);
      k := SplitPoint(history, files);
    }
  }

  lemma PendingAreAbove(history: seq<Row>, files: seq<Migration>)
    requires history != [] && InOrder(history, Pending(files, history))
    ensures forall m :: m in files && !Applied(history, m.version) ==> Less(MaxKey(history), VersionKey(m.version))
  {
    PendingAreTheRest(files, history);
    var pending := Pending(files, history);
    forall m | m in files && !Applied(history, m.version) ensures Less(MaxKey(history), VersionKey(m.version)) {
      assert m in pending;
      var i :| 0 <= i < |pending| && pending[i] == m;
    }
  }

  lemma SplitRowsAreFiles(history: seq<Row>, files: seq<Migration>, k: nat)
    requires SplitAt(history, files, k)
    ensures forall i :: 0 <= i < |history| ==> history[i].success && IsFile(history[i], files)
  {
    forall i | 0 <= i < |history| ensures history[i].success && IsFile(history[i], files) {
      assert AmongFirst(history[i], files, k);
      var j :| 0 <= j < k && Matches(history[i], files[j]);
    }
  }

  lemma SplitIsOrdered(history: seq<Row>, files: seq<Migration>, k: nat)
    requires Increasing(FileVersions(files)) && SplitAt(history, files, k) && k <= |files|
    ensures InOrder(history, files[k..])
  {
    hide VersionKey, Less, MaxKey, SplitAt, Increasing;
    if history != [] {
      PrefixKeepsOrder(history, files, k);
      forall i | 0 <= i < |files[k..]| ensures Less(MaxKey(history), VersionKey(files[k..][i].version)) {
        assert files[k..][i] == files[k + i];
      }
    }
  }

  lemma SplitIsAccepted(history: seq<Row>, files: seq<Migration>, k: nat)
    requires files != [] && Increasing(FileVersions(files)) && SplitAt(history, files, k)
    requires |history| <= BOUND && |files| <= BOUND
    ensures k <= |files| && FlywayDelta(history, files).Ok?
    ensures FlywayDelta(history, files).value.pending == Scripts(files[k..])
  {
    SplitIsWithin(history, files, k);
    hide FlywayDelta, VersionKey, Less, Pending, MaxKey, CheckRows, Matches, Increasing, SplitAt, InOrder, AmongFirst;
    PendingOfSplit(history, files, k, |files|);
    assert files[..|files|] == files;
    assert Pending(files, history) == files[k..];
    SplitRowsAreFiles(history, files, k);
    CheckedRowsAreFiles(history, files);
    SplitIsOrdered(history, files, k);
    AcceptanceIs(history, files);
  }

  /**
   * For an inventory in strict version order, the split is accepted if and only if neither list is
   * longer than 2000 and the applied versions are exactly a prefix of it; what is pending is then
   * the complementary suffix, in order, between the history's last row and the inventory's last file.
   */
  lemma FlywaySplit(history: seq<Row>, files: seq<Migration>)
    requires files != [] && Increasing(FileVersions(files))
    ensures FlywayDelta(history, files).Ok? <==>
      |history| <= 2000 && |files| <= 2000 && exists k: nat :: SplitAt(history, files, k)
    ensures forall k: nat :: FlywayDelta(history, files).Ok? && SplitAt(history, files, k) ==>
      FlywayDelta(history, files).value.pending == Scripts(files[k..])
    ensures FlywayDelta(history, files).Ok? ==>
      var delta := FlywayDelta(history, files).value;
      && delta.targetVersion == files[|files|-1].version
      && (history == [] ==> delta.currentRank == 0 && delta.currentVersion == None)
      && (history != [] ==> delta.currentRank == history[|history|-1].rank && delta.currentVersion == Some(history[|history|-1].version))
  {
    AcceptanceIs(history, files);
    hide FlywayDelta, SplitAt, CheckRows, InOrder, Pending, Increasing;
    if FlywayDelta(history, files).Ok? {
      var k := AcceptedHasSplit(history, files);
    }
    forall k: nat | SplitAt(history, files, k) && |history| <= 2000 && |files| <= 2000
      ensures k <= |files| && FlywayDelta(history, files).Ok? && FlywayDelta(history, files).value.pending == Scripts(files[k..])
    {
      SplitIsAccepted(history, files, k);
    }
    forall k: nat | SplitAt(history, files, k) ensures k <= |files| {
      SplitIsWithin(history, files, k);
    }
  }

  ghost predicate IsSomeFile(row: Row, files: seq<Migration>) {
    exists m :: m in files && row.version == m.version && row.script == m.script && row.checksum == m.checksum
  }

  /** Every accepted row succeeded and is some file's own version, script and checksum; the rest is pending. */
  lemma AcceptedRowsAreFiles(history: seq<Row>, files: seq<Migration>)
    requires files != [] && Increasing(FileVersions(files)) && FlywayDelta(history, files).Ok?
    ensures forall i :: 0 <= i < |history| ==> history[i].success && IsSomeFile(history[i], files)
    ensures forall s :: s in FlywayDelta(history, files).value.pending <==>
      exists j :: 0 <= j < |files| && files[j].script == s && forall i :: 0 <= i < |history| ==> history[i].version != files[j].version
  {
    AcceptanceIs(history, files);
    hide FlywayDelta, CheckRows, InOrder, Pending, Increasing;
    CheckedRowsAreFiles(history, files);
    PendingAreTheRest(files, history);
    forall i | 0 <= i < |history|
      ensures IsSomeFile(history[i], files)
    {
      assert IsFile(history[i], files);
      var j :| 0 <= j < |files| && Matches(history[i], files[j]);
    }
    PendingScripts(history, files);
  }

  lemma PendingScripts(history: seq<Row>, files: seq<Migration>)
    ensures forall s :: s in Scripts(Pending(files, history)) <==>
      exists j :: 0 <= j < |files| && files[j].script == s && forall i :: 0 <= i < |history| ==> history[i].version != files[j].version
  {
    PendingAreTheRest(files, history);
    var pending := Pending(files, history);
    hide Pending;
    forall s | s in Scripts(pending)
      ensures exists j :: 0 <= j < |files| && files[j].script == s && forall i :: 0 <= i < |history| ==> history[i].version != files[j].version
    {
      var p :| 0 <= p < |pending| && pending[p].script == s;
      assert pending[p] in pending;
      var j :| 0 <= j < |files| && files[j] == pending[p];
      assert !Applied(history, files[j].version);
    }
    forall j | 0 <= j < |files| && (forall i :: 0 <= i < |history| ==> history[i].version != files[j].version)
      ensures files[j].script in Scripts(pending)
    {
      assert files[j] in pending;
      var p :| 0 <= p < |pending| && pending[p] == files[j];
      assert Scripts(pending)[p] == files[j].script;
    }
  }

  lemma SplitIsWithin(history: seq<Row>, files: seq<Migration>, k: nat)
    requires SplitAt(history, files, k)
    ensures k <= |files|
  {
  }

  // ---------- histories in installation order ----------

  /** The history is row for row the beginning of the inventory. */
  predicate Prefix(history: seq<Row>, files: seq<Migration>) {
    && |history| <= |files|
    && forall i :: 0 <= i < |history| ==> history[i].success && Matches(history[i], files[i])
  }

  /** The row Flyway writes when it applies the next file. */
  function NextRow(history: seq<Row>, files: seq<Migration>): Row
    requires |history| < |files|
  {
    var m := files[|history|];
    Row(if history == [] then 1 else history[|history|-1].rank + 1, m.version, m.script, m.checksum, true)
  }

  lemma LastIsGreatest(a: seq<string>, v: string)
    requires Increasing(a) && v in a
    ensures v == a[|a|-1] || Less(VersionKey(v), VersionKey(a[|a|-1]))
  {
    hide VersionKey, Less;
    var i :| 0 <= i < |a| && a[i] == v;
  }

  lemma SameLast(a: seq<string>, b: seq<string>)
    requires Increasing(a) && Increasing(b) && a != [] && b != []
    requires a[|a|-1] in b && b[|b|-1] in a
    ensures a[|a|-1] == b[|b|-1]
  {
    hide VersionKey, Less, Increasing;
    var x, y := a[|a|-1], b[|b|-1];
    LastIsGreatest(b, x);
    LastIsGreatest(a, y);
    if x != y {
      LessIsTransitive(VersionKey(x), VersionKey(y), VersionKey(x));
      LessIsIrreflexive(VersionKey(x));
    }
  }

  lemma InitMembers(a: seq<string>, v: string)
    requires Increasing(a) && a != []
    ensures v in a[..|a|-1] <==> v in a && v != a[|a|-1]
  {
    hide VersionKey, Less;
    if v in a[..|a|-1] {
      var p :| 0 <= p < |a| - 1 && a[p] == v;
      IncreasingVersionsDiffer(a, p, |a| - 1);
    }
  }

  lemma InitIncreases(a: seq<string>)
    requires Increasing(a) && a != []
    ensures Increasing(a[..|a|-1])
  {
    hide VersionKey, Less;
  }

  /** Two strictly ordered lists with the same members are the same list. */
  lemma {:induction false} SameMembersSameOrder(a: seq<string>, b: seq<string>)
    requires Increasing(a) && Increasing(b)
    requires forall v :: v in a <==> v in b
    ensures a == b
  {
    hide VersionKey, Less, Increasing;
    assert a != [] ==> a[0] in a && a[|a|-1] in a;
    assert b != [] ==> b[0] in b && b[|b|-1] in b;
    if a != [] && b != [] {
      SameLast(a, b);
      InitIncreases(a);
      InitIncreases(b);
      var a', b' := a[..|a|-1], b[..|b|-1];
      forall v ensures v in a' <==> v in b' {
        InitMembers(a, v);
        InitMembers(b, v);
      }
      SameMembersSameOrder(a', b');
    }
  }

  lemma AcceptedIsBounded(history: seq<Row>, files: seq<Migration>)
    requires files != [] && FlywayDelta(history, files).Ok?
    ensures |history| <= BOUND && |files| <= BOUND
  {
  }

  lemma SplitMembers(history: seq<Row>, files: seq<Migration>, k: nat)
    requires SplitAt(history, files, k)
    ensures forall v :: v in RowVersions(history) <==> v in FileVersions(files)[..k]
  {
    hide VersionKey, Less;
    var a, b := RowVersions(history), FileVersions(files)[..k];
    forall v | v in a ensures v in b {
      var i :| 0 <= i < |a| && a[i] == v;
      var j :| 0 <= j < k && Matches(history[i], files[j]);
      assert b[j] == v;
    }
    forall v | v in b ensures v in a {
      var j :| 0 <= j < k && b[j] == v;
      assert Applied(history, files[j].version);
      var i :| 0 <= i < |history| && history[i].version == v;
      assert a[i] == v;
    }
  }

  lemma OrderedSplitIsPrefix(history: seq<Row>, files: seq<Migration>, k: nat)
    requires Increasing(FileVersions(files)) && Increasing(RowVersions(history)) && SplitAt(history, files, k)
    ensures Prefix(history, files) && |history| == k
  {
    hide VersionKey, Less;
    var a, b := RowVersions(history), FileVersions(files)[..k];
    SplitMembers(history, files, k);
    SameMembersSameOrder(a, b);
    forall i | 0 <= i < |history| ensures history[i].success && Matches(history[i], files[i]) {
      var j :| 0 <= j < k && Matches(history[i], files[j]);
      assert a[i] == b[i];
      IncreasingVersionsDiffer(FileVersions(files), i, j);
    }
  }

  /** Where rows were installed in version order, an accepted history is the beginning of the inventory. */
  lemma AcceptedIsPrefix(history: seq<Row>, files: seq<Migration>)
    requires files != [] && Increasing(FileVersions(files)) && Increasing(RowVersions(history))
    requires FlywayDelta(history, files).Ok?
    ensures Prefix(history, files)
    ensures FlywayDelta(history, files).value.pending == [] <==> |history| == |files|
  {
    AcceptedIsBounded(history, files);
    hide FlywayDelta, VersionKey, Less, SplitAt, Increasing, Prefix;
    var k := AcceptedHasSplit(history, files);
    SplitIsAccepted(history, files, k);
    OrderedSplitIsPrefix(history, files, k);
    SplitIsWithin(history, files, k);
    assert |files[k..]| == |Scripts(files[k..])|;
  }

  /** Committing the next file keeps the installation order and the agreement with the inventory. */
  lemma NextRowKeepsOrder(history: seq<Row>, files: seq<Migration>)
    requires Increasing(FileVersions(files)) && Prefix(history, files) && |history| < |files|
    ensures Prefix(history + [NextRow(history, files)], files)
    ensures Increasing(RowVersions(history + [NextRow(history, files)]))
    ensures (forall i :: 0 <= i < |history| ==> history[i].rank == i + 1) ==> NextRow(history, files).rank == |history| + 1
  {
    var next := history + [NextRow(history, files)];
    var v, f := RowVersions(next), FileVersions(files);
    forall i | 0 <= i < |next| ensures v[i] == f[i] {
    }
  }

  /** In installation order, equal last versions under extension mean that nothing was added. */
  lemma SameLastVersion(earlier: seq<Row>, later: seq<Row>)
    requires earlier <= later && Increasing(RowVersions(later))
    requires earlier != [] && later[|later|-1].version == earlier[|earlier|-1].version
    ensures earlier == later
  {
    IncreasingVersionsDiffer(RowVersions(later), |earlier| - 1, |later| - 1);
  }

  lemma PrefixIsSplit(history: seq<Row>, files: seq<Migration>)
    requires Prefix(history, files)
    ensures SplitAt(history, files, |history|)
  {
    hide VersionKey, Less;
    forall j | 0 <= j < |history|
      ensures Applied(history, files[j].version) && history[j].success && exists i :: 0 <= i < |history| && Matches(history[j], files[i])
    {
      assert Matches(history[j], files[j]);
      assert history[j].version == files[j].version;
    }
  }
}
