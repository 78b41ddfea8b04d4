/**
 * The numbers behind the versions: printed in decimal, padded with any number of zeros, two numbers and a
 * dot between them are ordered as the pair of numbers is, and a sorted inventory ends in its greatest pair.
 */
module FlywayVersions {
  import opened Common
  import opened Flyway

  // ---------- printing ----------

  function Decimal(n: nat): string {
    if n < 10 then ["0123456789"[n]] else Decimal(n / 10) + ["0123456789"[n % 10]]
  }

  function Zeros(n: nat): string {
    seq(n, _ => '0')
  }

  function Padded(zeros: nat, n: nat): string {
    Zeros(zeros) + Decimal(n)
  }

  predicate Digits(s: string) {
    s != "" && forall i :: 0 <= i < |s| ==> s[i] in "0123456789"
  }

  /** Major and minor, each with its leading zeros, and a dot between them. */
  ghost predicate ReadsAs(version: string, major: nat, minor: nat) {
    exists y: nat, z: nat :: version == Padded(y, major) + "." + Padded(z, minor)
  }

  // ---------- reading ----------

  lemma DigitReads(n: nat)
    requires n < 10
    ensures Digit("0123456789"[n]) == n && "0123456789"[n] != '.'
  {
  }

  lemma {:induction false} NumberReadsDecimal(n: nat)
    ensures Number(Decimal(n)) == n && '.' !in Decimal(n)
  {
    if n < 10 {
      DigitReads(n);
      assert Decimal(n)[..0] == "";
    } else {
      NumberReadsDecimal(n / 10);
      DigitReads(n % 10);
      assert Decimal(n)[..|Decimal(n)|-1] == Decimal(n / 10);
    }
  }

  lemma {:induction false} NumberSkipsZeros(zeros: nat, s: string)
    ensures Number(Zeros(zeros) + s) == Number(s)
  {
    if s != "" {
      NumberSkipsZeros(zeros, s[..|s|-1]);
      assert (Zeros(zeros) + s)[..|Zeros(zeros) + s|-1] == Zeros(zeros) + s[..|s|-1];
    } else if zeros > 0 {
      NumberSkipsZeros(zeros - 1, "");
      assert (Zeros(zeros) + "")[..zeros-1] == Zeros(zeros - 1) + "";
      assert Number("") == 0;
    }
  }

  lemma NumberReadsPadded(zeros: nat, n: nat)
    ensures Number(Padded(zeros, n)) == n && '.' !in Padded(zeros, n)
  {
    NumberSkipsZeros(zeros, Decimal(n));
    NumberReadsDecimal(n);
  }

  /** A part without a dot is read whole, up to the first dot or the end. */
  lemma {:induction false} KeyOfPart(part: string, x: string, rest: string)
    requires '.' !in x
    ensures KeyParts(x, part) == [Number(part + x)]
    ensures KeyParts(x + "." + rest, part) == [Number(part + x)] + KeyParts(rest, "")
    decreases |x|
  {
    if x == "" {
      assert part + x == part;
      assert x + "." + rest == "." + rest && ("." + rest)[1..] == rest;
    } else {
      KeyOfPart(part + [x[0]], x[1..], rest);
      assert part + [x[0]] + x[1..] == part + x;
      assert (x + "." + rest)[1..] == x[1..] + "." + rest;
    }
  }

  lemma KeyIsThePair(version: string, major: nat, minor: nat)
    requires ReadsAs(version, major, minor)
    ensures VersionKey(version) == [major, minor]
  {
    var y: nat, z: nat :| version == Padded(y, major) + "." + Padded(z, minor);
    NumberReadsPadded(y, major);
    NumberReadsPadded(z, minor);
    KeyOfPart("", Padded(y, major), Padded(z, minor));
    KeyOfPart("", Padded(z, minor), "");
    assert "" + Padded(y, major) == Padded(y, major) && "" + Padded(z, minor) == Padded(z, minor);
    hide Padded, KeyParts, Number;
  }

  /** Every pair of digit strings reads as one pair of numbers, so nothing is left unordered. */
  lemma {:induction false} DigitsArePadded(s: string)
    requires Digits(s)
    ensures exists z: nat, n: nat :: s == Padded(z, n)
  {
    var t, c := s[..|s|-1], s[|s|-1];
    assert s == t + [c];
    var d: nat :| d < 10 && "0123456789"[d] == c;
    if t == "" {
      assert s == Padded(0, d);
    } else {
      DigitsArePadded(t);
      var z: nat, m: nat :| t == Padded(z, m);
      if m == 0 {
        assert s == Zeros(z + 1) + Decimal(d) == Padded(z + 1, d);
      } else {
        var n := 10 * m + d;
        assert n / 10 == m && n % 10 == d;
        assert Decimal(n) == Decimal(m) + [c];
        assert s == Padded(z, n);
      }
    }
  }

  lemma DigitPairsRead(x: string, y: string)
    requires Digits(x) && Digits(y)
    ensures exists major, minor :: ReadsAs(x + "." + y, major, minor)
  {
    DigitsArePadded(x);
    DigitsArePadded(y);
    var w: nat, major: nat :| x == Padded(w, major);
    var z: nat, minor: nat :| y == Padded(z, minor);
    assert ReadsAs(x + "." + y, major, minor);
  }

  // ---------- the order of versions ----------

  predicate Before(a: nat, b: nat, c: nat, d: nat) {
    a < c || (a == c && b < d)
  }

  /** Versions are ordered as their pairs of numbers are, whatever zeros they are padded with. */
  lemma VersionsCompareAsNumbers(v: string, a: nat, b: nat, w: string, c: nat, d: nat)
    requires ReadsAs(v, a, b) && ReadsAs(w, c, d)
    ensures Less(VersionKey(v), VersionKey(w)) <==> a < c || (a == c && b < d)
    ensures VersionKey(v) == VersionKey(w) <==> a == c && b == d
  {
    KeyIsThePair(v, a, b);
    KeyIsThePair(w, c, d);
    hide VersionKey, ReadsAs, Less;
    PairsCompare(a, b, c, d);
    assert [a, b] == [c, d] ==> [a, b][0] == [c, d][0] && [a, b][1] == [c, d][1];
  }

  lemma PairsCompare(a: nat, b: nat, c: nat, d: nat)
    ensures Less([a, b], [c, d]) <==> a < c || (a == c && b < d)
  {
    assert [a, b][1..] == [b] && [c, d][1..] == [d];
    assert Less([b], [d]) <==> b < d;
  }

  // ---------- the sorted inventory ----------

  /** Every file is numbered, and no two files carry the same numbers. */
  ghost predicate Numbered(files: seq<Migration>) {
    && (forall i :: 0 <= i < |files| ==> exists a, b :: ReadsAs(files[i].version, a, b))
    && (forall i, j, a, b :: 0 <= i < j < |files| ==> !(ReadsAs(files[i].version, a, b) && ReadsAs(files[j].version, a, b)))
  }

  lemma NumberedKeysDiffer(files: seq<Migration>)
    requires Numbered(files)
    ensures DistinctKeys(files)
  {
    hide VersionKey, ReadsAs;
    forall i, j | 0 <= i < j < |files| ensures VersionKey(files[i].version) != VersionKey(files[j].version) {
      var a, b :| ReadsAs(files[i].version, a, b);
      var c, d :| ReadsAs(files[j].version, c, d);
      VersionsCompareAsNumbers(files[i].version, a, b, files[j].version, c, d);
    }
  }

  /** A sorted inventory ascends in numbers, and no file has greater numbers than its last one. */
  lemma {:induction false} SortedAscends(files: seq<Migration>)
    requires Numbered(files)
    ensures var r := Sorted(files);
      && multiset(r) == multiset(files)
      && (forall i, j, a, b, c, d :: 0 <= i < j < |r| && ReadsAs(r[i].version, a, b) && ReadsAs(r[j].version, c, d) ==> Before(a, b, c, d))
      && (forall f, a, b, c, d :: f in files && ReadsAs(f.version, a, b) && ReadsAs(r[|r|-1].version, c, d) ==>
            f == r[|r|-1] || Before(a, b, c, d))
  {
    NumberedKeysDiffer(files);
    SortedIncreases(files);
    hide VersionKey, Less, ReadsAs, Sorted, Numbered;
    var r := Sorted(files);
    var versions := FileVersions(r);
    forall i, j, a, b, c, d | 0 <= i < j < |r| && ReadsAs(r[i].version, a, b) && ReadsAs(r[j].version, c, d)
      ensures Before(a, b, c, d)
    {
      assert Less(VersionKey(versions[i]), VersionKey(versions[j]));
      VersionsCompareAsNumbers(r[i].version, a, b, r[j].version, c, d);
    }
    forall f, a, b, c, d | f in files && ReadsAs(f.version, a, b) && ReadsAs(r[|r|-1].version, c, d)
      ensures f == r[|r|-1] || Before(a, b, c, d)
    {
      assert f in multiset(r);
      var i :| 0 <= i < |r| && r[i] == f;
    }
  }
}
