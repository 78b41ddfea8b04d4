/**
 * Flyway's checksum of a SQL resource: the CRC-32 of section 8 of RFC 1952, folded line by line
 * over the UTF-8 of section 3 of RFC 3629.
 */
module FlywayChecksum {
  import opened Common

  type Bytes = seq<bv8>
  type Text = seq<bv32>   // code points

  // ---------- CRC-32 ----------

  const POLYNOMIAL: bv32 := 0xEDB88320
  const ONES: bv32 := 0xFFFFFFFF

  function Bit(c: bv32): bv32 {
    if c & 1 == 1 then POLYNOMIAL ^ (c >> 1) else c >> 1
  }

  function Byte(c: bv32, b: bv8): bv32 {
    Bit(Bit(Bit(Bit(Bit(Bit(Bit(Bit(c ^ (b as bv32)))))))))
  }

  /** The register after the bytes. */
  function Register(data: Bytes, c: bv32): bv32 {
    if data == [] then c else Byte(Register(data[..|data|-1], c), data[|data|-1])
  }

  function Flip(c: bv32): bv32 {
    c ^ ONES
  }

  /** zlib.crc32(data, crc): a running checksum, complemented on the way in and out. */
  function Crc32(data: Bytes, crc: bv32): bv32 {
    Flip(Register(data, Flip(crc)))
  }

  lemma {:induction false} RegisterComposes(a: Bytes, b: Bytes, c: bv32)
    ensures Register(a + b, c) == Register(b, Register(a, c))
  {
    hide Byte;
    if b == [] {
      assert a + b == a;
    } else {
      assert (a + b)[..|a + b|-1] == a + b[..|b|-1];
      RegisterComposes(a, b[..|b|-1], c);
    }
  }

  /** Checksums of pieces, each continued from the one before, make the checksum of the whole. */
  lemma {:induction false} Crc32Composes(a: Bytes, b: Bytes, crc: bv32)
    ensures Crc32(a + b, crc) == Crc32(b, Crc32(a, crc))
  {
    hide Register, Flip;
    RegisterComposes(a, b, Flip(crc));
    FlipsUndo(Register(a, Flip(crc)));
  }

  lemma FlipsUndo(c: bv32)
    ensures Flip(Flip(c)) == c
  {
  }

  lemma BitIsInjective(c: bv32, d: bv32)
    requires Bit(c) == Bit(d)
    ensures c == d
  {
  }

  lemma ByteIsInjective(c: bv32, d: bv32, b: bv8)
    requires Byte(c, b) == Byte(d, b)
    ensures c == d
  {
    Bits8IsInjective(c ^ (b as bv32), d ^ (b as bv32));
    assert c == (c ^ (b as bv32)) ^ (b as bv32);
  }

  lemma Bits8IsInjective(x: bv32, y: bv32)
    requires Bit(Bit(Bit(Bit(Bit(Bit(Bit(Bit(x)))))))) == Bit(Bit(Bit(Bit(Bit(Bit(Bit(Bit(y))))))))
    ensures x == y
  {
    hide Bit;
    BitIsInjective(Bit(Bit(Bit(Bit(Bit(Bit(Bit(x))))))), Bit(Bit(Bit(Bit(Bit(Bit(Bit(y))))))));
    BitIsInjective(Bit(Bit(Bit(Bit(Bit(Bit(x)))))), Bit(Bit(Bit(Bit(Bit(Bit(y)))))));
    BitIsInjective(Bit(Bit(Bit(Bit(Bit(x))))), Bit(Bit(Bit(Bit(Bit(y))))));
    BitIsInjective(Bit(Bit(Bit(Bit(x)))), Bit(Bit(Bit(Bit(y)))));
    BitIsInjective(Bit(Bit(Bit(x))), Bit(Bit(Bit(y))));
    BitIsInjective(Bit(Bit(x)), Bit(Bit(y)));
    BitIsInjective(Bit(x), Bit(y));
    BitIsInjective(x, y);
  }

  lemma DifferentBytesDiffer(c: bv32, a: bv8, b: bv8)
    requires Byte(c, a) == Byte(c, b)
    ensures a == b
  {
    Bits8IsInjective(c ^ (a as bv32), c ^ (b as bv32));
  }

  lemma {:induction false} RegisterIsInjective(data: Bytes, c: bv32, d: bv32)
    requires Register(data, c) == Register(data, d)
    ensures c == d
  {
    hide Byte;
    if data != [] {
      var init := data[..|data|-1];
      ByteIsInjective(Register(init, c), Register(init, d), data[|data|-1]);
      RegisterIsInjective(init, c, d);
    }
  }

  /** No substitution of a single byte goes unnoticed. */
  lemma {:induction false} SubstitutionIsNoticed(before: Bytes, a: bv8, b: bv8, after: Bytes)
    requires Crc32(before + [a] + after, 0) == Crc32(before + [b] + after, 0)
    ensures a == b
  {
    hide Byte, Flip, Register;
    var start := Flip(0);
    var c := Register(before, start);
    RegisterComposes(before + [a], after, start);
    RegisterComposes(before + [b], after, start);
    Appended(before, a, start);
    Appended(before, b, start);
    FlipsUndo(Register(before + [a] + after, start));
    FlipsUndo(Register(before + [b] + after, start));
    RegisterIsInjective(after, Byte(c, a), Byte(c, b));
    DifferentBytesDiffer(c, a, b);
  }

  lemma Appended(before: Bytes, b: bv8, c: bv32)
    ensures Register(before + [b], c) == Byte(Register(before, c), b)
  {
    hide Byte;
    assert (before + [b])[..|before|] == before;
  }

  // ---------- UTF-8 ----------

  predicate Scalar(c: bv32) {
    c < 0xD800 || (0xE000 <= c && c < 0x110000)
  }

  function Tail(c: bv32): bv8 {
    (0x80 | (c & 0x3F)) as bv8
  }

  function Lead(c: bv32): bv8
    requires c < 0x110000
  {
    (0xF0 | (c >> 18)) as bv8
  }

  function EncodeOne(c: bv32): Bytes
    requires Scalar(c)
  {
    if c < 0x80 then [c as bv8]
    else if c < 0x800 then [(0xC0 | (c >> 6)) as bv8, Tail(c)]
    else if c < 0x10000 then [(0xE0 | (c >> 12)) as bv8, Tail(c >> 6), Tail(c)]
    else [Lead(c), Tail(c >> 12), Tail(c >> 6), Tail(c)]
  }

  predicate Scalars(text: Text) {
    forall i :: 0 <= i < |text| ==> Scalar(text[i])
  }

  function Encode(text: Text): Bytes
    requires Scalars(text)
  {
    if text == [] then [] else EncodeOne(text[0]) + Encode(text[1..])
  }

  predicate IsTail(b: bv8) {
    0x80 <= b && b <= 0xBF
  }

  function Low(b: bv8): bv32 {
    (b & 0x3F) as bv32
  }

  /** The first code point and its length, or nothing where the bytes are ill formed. */
  function DecodeOne(data: Bytes): Option<(bv32, nat)>
    requires data != []
  {
    var b := data[0];
    if b < 0x80 then Some((b as bv32, 1))
    else if 0xC2 <= b && b <= 0xDF then
      if |data| >= 2 && IsTail(data[1]) then Some((Two(b, data[1]), 2)) else None
    else if 0xE0 <= b && b <= 0xEF then
      if |data| >= 3 && IsTail(data[1]) && IsTail(data[2]) then
        var c := Three(b, data[1], data[2]);
        if c >= 0x800 && Scalar(c) then Some((c, 3)) else None
      else None
    else if 0xF0 <= b && b <= 0xF4 then
      if |data| >= 4 && IsTail(data[1]) && IsTail(data[2]) && IsTail(data[3]) then
        var c := Four(b, data[1], data[2], data[3]);
        if c >= 0x10000 && Scalar(c) then Some((c, 4)) else None
      else None
    else None
  }

  function Two(a: bv8, b: bv8): bv32 {
    (((a & 0x1F) as bv32) << 6) | Low(b)
  }

  function Three(a: bv8, b: bv8, d: bv8): bv32 {
    (((a & 0x0F) as bv32) << 12) | (Low(b) << 6) | Low(d)
  }

  function Four(a: bv8, b: bv8, d: bv8, e: bv8): bv32 {
    (((a & 0x07) as bv32) << 18) | (Low(b) << 12) | (Low(d) << 6) | Low(e)
  }

  lemma TwoEncodes(a: bv8, b: bv8)
    requires 0xC2 <= a && a <= 0xDF && IsTail(b)
    ensures 0x80 <= Two(a, b) && Two(a, b) < 0x800
    ensures (0xC0 | (Two(a, b) >> 6)) as bv8 == a && Tail(Two(a, b)) == b
  {
  }

  lemma ThreeEncodes(a: bv8, b: bv8, d: bv8)
    requires 0xE0 <= a && a <= 0xEF && IsTail(b) && IsTail(d)
    ensures Three(a, b, d) < 0x10000 && (0xE0 | (Three(a, b, d) >> 12)) as bv8 == a
    ensures Tail(Three(a, b, d) >> 6) == b && Tail(Three(a, b, d)) == d
  {
  }

  lemma FourEncodes(a: bv8, b: bv8, d: bv8, e: bv8)
    requires 0xF0 <= a && a <= 0xF4 && IsTail(b) && IsTail(d) && IsTail(e)
    ensures Four(a, b, d, e) < 0x110000 ==> Lead(Four(a, b, d, e)) == a
    ensures Tail(Four(a, b, d, e) >> 12) == b && Tail(Four(a, b, d, e) >> 6) == d && Tail(Four(a, b, d, e)) == e
  {
  }

  lemma DecodedTwo(data: Bytes)
    requires |data| >= 2 && 0xC2 <= data[0] && data[0] <= 0xDF && IsTail(data[1])
    ensures Scalar(Two(data[0], data[1])) && EncodeOne(Two(data[0], data[1])) == data[..2]
  {
    TwoEncodes(data[0], data[1]);
    hide Two, Low, Tail, IsTail;
    assert data[..2] == [data[0], data[1]];
  }

  lemma DecodedThree(data: Bytes)
    requires |data| >= 3 && 0xE0 <= data[0] && data[0] <= 0xEF && IsTail(data[1]) && IsTail(data[2])
    requires Three(data[0], data[1], data[2]) >= 0x800 && Scalar(Three(data[0], data[1], data[2]))
    ensures Scalar(Three(data[0], data[1], data[2])) && EncodeOne(Three(data[0], data[1], data[2])) == data[..3]
  {
    ThreeEncodes(data[0], data[1], data[2]);
    hide Three, Low, Tail, IsTail;
    assert data[..3] == [data[0], data[1], data[2]];
  }

  lemma EncodesFour(c: bv32)
    requires 0x10000 <= c && c < 0x110000
    ensures Scalar(c) && EncodeOne(c) == [Lead(c), Tail(c >> 12), Tail(c >> 6), Tail(c)]
  {
    hide Lead, Tail;
  }

  lemma FourIsEncoded(a: bv8, b: bv8, d: bv8, e: bv8, c: bv32)
    requires 0xF0 <= a && a <= 0xF4 && IsTail(b) && IsTail(d) && IsTail(e)
    requires c == Four(a, b, d, e) && 0x10000 <= c && c < 0x110000
    ensures EncodeOne(c) == [a, b, d, e]
  {
    FourEncodes(a, b, d, e);
    hide Four;
    EncodesFour(c);
    hide EncodeOne, Lead, Tail, Scalar;
  }

  lemma DecodedFour(data: Bytes)
    requires |data| >= 4 && 0xF0 <= data[0] && data[0] <= 0xF4 && IsTail(data[1]) && IsTail(data[2]) && IsTail(data[3])
    requires Four(data[0], data[1], data[2], data[3]) >= 0x10000 && Scalar(Four(data[0], data[1], data[2], data[3]))
    ensures EncodeOne(Four(data[0], data[1], data[2], data[3])) == data[..4]
  {
    hide Four, EncodeOne, IsTail;
    var c := Four(data[0], data[1], data[2], data[3]);
    BelowLimit(c);
    hide Scalar;
    FourIsEncoded(data[0], data[1], data[2], data[3], c);
    assert data[..4] == [data[0], data[1], data[2], data[3]];
  }

  lemma BelowLimit(c: bv32)
    requires Scalar(c)
    ensures c < 0x110000
  {
  }

  lemma DecodedOneEncodes(data: Bytes)
    requires data != [] && DecodeOne(data).Some?
    ensures var (c, n) := DecodeOne(data).value;
      Scalar(c) && 0 < n <= |data| && EncodeOne(c) == data[..n]
  {
    hide EncodeOne, Two, Three, Four, IsTail;
    if data[0] < 0x80 {
      DecodedByte(data);
    } else if data[0] <= 0xDF {
      DecodedTwo(data);
    } else if data[0] <= 0xEF {
      DecodedThree(data);
    } else {
      DecodedFour(data);
    }
  }

  lemma DecodedByte(data: Bytes)
    requires data != [] && data[0] < 0x80
    ensures Scalar(data[0] as bv32) && EncodeOne(data[0] as bv32) == data[..1]
  {
    assert (data[0] as bv32) as bv8 == data[0];
    assert data[..1] == [data[0]];
  }

  lemma TwoDecodes(c: bv32)
    requires 0x80 <= c && c < 0x800
    ensures var a, b := (0xC0 | (c >> 6)) as bv8, Tail(c);
      0xC2 <= a && a <= 0xDF && IsTail(b) && Two(a, b) == c
  {
  }

  lemma ThreeDecodes(c: bv32)
    requires 0x800 <= c && c < 0x10000
    ensures var a, b, d := (0xE0 | (c >> 12)) as bv8, Tail(c >> 6), Tail(c);
      0xE0 <= a && a <= 0xEF && IsTail(b) && IsTail(d) && Three(a, b, d) == c
  {
  }

  lemma LeadIsBounded(c: bv32)
    requires 0x10000 <= c && c < 0x110000
    ensures 0xF0 <= Lead(c) && Lead(c) <= 0xF4 && ((Lead(c) & 0x07) as bv32) == c >> 18
  {
  }

  lemma TailIsTail(c: bv32)
    ensures IsTail(Tail(c)) && Low(Tail(c)) == c & 0x3F
  {
  }

  lemma FourDecodes(c: bv32)
    requires 0x10000 <= c && c < 0x110000
    ensures var a, b, d, e := Lead(c), Tail(c >> 12), Tail(c >> 6), Tail(c);
      0xF0 <= a && a <= 0xF4 && IsTail(b) && IsTail(d) && IsTail(e) && Four(a, b, d, e) == c
  {
    LeadIsBounded(c);
    TailIsTail(c >> 12);
    TailIsTail(c >> 6);
    TailIsTail(c);
    hide Lead, Tail, Low, IsTail;
  }

  lemma EncodedOneDecodes(c: bv32, rest: Bytes)
    requires Scalar(c)
    ensures EncodeOne(c) != [] && DecodeOne(EncodeOne(c) + rest) == Some((c, |EncodeOne(c)|))
  {
    var data := EncodeOne(c) + rest;
    if c < 0x80 {
      assert (c as bv8) < 0x80 && (c as bv8) as bv32 == c;
      assert data[0] == c as bv8;
    } else if c < 0x800 {
      TwoDecodes(c);
      hide Two, Low, Tail, IsTail;
      assert data[0] == (0xC0 | (c >> 6)) as bv8 && data[1] == Tail(c);
    } else if c < 0x10000 {
      ThreeDecodes(c);
      hide Three, Low, Tail, IsTail;
      assert data[0] == (0xE0 | (c >> 12)) as bv8 && data[1] == Tail(c >> 6) && data[2] == Tail(c);
    } else {
      FourDecodes(c);
      hide Four, Low, Tail, IsTail;
      assert data[0] == Lead(c) && data[1] == Tail(c >> 12) && data[2] == Tail(c >> 6) && data[3] == Tail(c);
    }
  }

  /** bytes.decode('utf-8'), strictly. */
  function Decode(data: Bytes): Option<Text>
    decreases |data|
  {
    if data == [] then Some([])
    else match DecodeOne(data) {
      case None => None
      case Some((c, n)) =>
        DecodedOneEncodes(data);
        match Decode(data[n..]) {
          case None => None
          case Some(rest) => Some([c] + rest)
        }
    }
  }

  /** Decoding loses nothing: what decodes is exactly the encoding of what it decodes to. */
  lemma {:induction false} DecodedEncodes(data: Bytes)
    requires Decode(data).Some?
    ensures Scalars(Decode(data).value) && Encode(Decode(data).value) == data
    decreases |data|
  {
    hide DecodeOne, EncodeOne, Scalar;
    if data != [] {
      DecodedOneEncodes(data);
      var (c, n) := DecodeOne(data).value;
      DecodedEncodes(data[n..]);
      EncodeCons(c, Decode(data[n..]).value);
      assert data == data[..n] + data[n..];
    }
  }

  lemma EncodeCons(c: bv32, rest: Text)
    requires Scalar(c) && Scalars(rest)
    ensures Scalars([c] + rest) && Encode([c] + rest) == EncodeOne(c) + Encode(rest)
  {
    hide EncodeOne, Scalar;
    assert ([c] + rest)[1..] == rest;
  }

  lemma {:induction false} EncodedDecodes(text: Text)
    requires Scalars(text)
    ensures Decode(Encode(text)) == Some(text)
  {
    hide DecodeOne, EncodeOne, Scalar;
    if text != [] {
      var rest := Encode(text[1..]);
      EncodedDecodes(text[1..]);
      EncodedOneDecodes(text[0], rest);
      DecodedOneEncodes(EncodeOne(text[0]) + rest);
      assert (EncodeOne(text[0]) + rest)[|EncodeOne(text[0])|..] == rest;
      assert text == [text[0]] + text[1..];
    }
  }

  lemma {:induction false} EncodeDistributes(a: Text, b: Text)
    requires Scalars(a) && Scalars(b)
    ensures Scalars(a + b) && Encode(a + b) == Encode(a) + Encode(b)
  {
    hide EncodeOne, Scalar;
    if a == [] {
      assert a + b == b;
    } else {
      assert (a + b)[1..] == a[1..] + b;
      EncodeDistributes(a[1..], b);
    }
  }

  // ---------- lines ----------

  const CR: bv32 := 0x0D
  const LF: bv32 := 0x0A
  const MARK: bv32 := 0xFEFF

  /** re.split(r'\r\n|\r|\n', line + rest) where line holds no break. */
  function Lines(rest: Text, line: Text): seq<Text> {
    if rest == [] then [line]
    else if rest[0] == CR && |rest| > 1 && rest[1] == LF then [line] + Lines(rest[2..], [])
    else if rest[0] == CR || rest[0] == LF then [line] + Lines(rest[1..], [])
    else Lines(rest[1..], line + [rest[0]])
  }

  function Joined(lines: seq<Text>): Text {
    if lines == [] then [] else lines[0] + Joined(lines[1..])
  }

  function Unbroken(text: Text): Text {
    if text == [] then []
    else (if text[0] == CR || text[0] == LF then [] else [text[0]]) + Unbroken(text[1..])
  }

  /** Whatever the line endings, the lines join to the text without them. */
  lemma JoinedCons(line: Text, lines: seq<Text>)
    ensures Joined([line] + lines) == line + Joined(lines)
  {
    assert ([line] + lines)[1..] == lines;
  }

  lemma UnbrokenCons(c: bv32, rest: Text)
    ensures Unbroken([c] + rest) == (if c == CR || c == LF then [] else [c]) + Unbroken(rest)
  {
    assert ([c] + rest)[1..] == rest;
  }

  /** Whatever the line endings, the lines join to the text without them. */
  lemma {:induction false} LinesJoin(rest: Text, line: Text)
    ensures Lines(rest, line) != [] && Joined(Lines(rest, line)) == line + Unbroken(rest)
    decreases |rest|
  {
    hide Joined, Unbroken;
    if rest == [] {
      JoinedCons(line, []);
      NothingJoins();
      assert [line] + [] == [line];
    } else {
      UnbrokenCons(rest[0], rest[1..]);
      assert [rest[0]] + rest[1..] == rest;
      if rest[0] == CR && |rest| > 1 && rest[1] == LF {
        UnbrokenCons(rest[1], rest[2..]);
        assert [rest[1]] + rest[2..] == rest[1..];
        LinesJoin(rest[2..], []);
        JoinedCons(line, Lines(rest[2..], []));
      } else if rest[0] == CR || rest[0] == LF {
        LinesJoin(rest[1..], []);
        JoinedCons(line, Lines(rest[1..], []));
      } else {
        LinesJoin(rest[1..], line + [rest[0]]);
      }
    }
  }

  lemma NothingJoins()
    ensures Joined([]) == [] && Unbroken([]) == []
  {
  }

  function WithoutLastEmpty(lines: seq<Text>): seq<Text> {
    if lines != [] && lines[|lines|-1] == [] then lines[..|lines|-1] else lines
  }

  lemma {:induction false} LastEmptyIsIrrelevant(lines: seq<Text>)
    ensures Joined(WithoutLastEmpty(lines)) == Joined(lines)
  {
    if |lines| > 1 {
      LastEmptyIsIrrelevant(lines[1..]);
      assert WithoutLastEmpty(lines)[0] == lines[0] && WithoutLastEmpty(lines)[1..] == WithoutLastEmpty(lines[1..]);
    }
  }

  // ---------- the checksum ----------

  /** The bytes without carriage returns and line feeds. */
  function Unbreaking(data: Bytes): Bytes {
    if data == [] then []
    else (if data[0] == 0x0D || data[0] == 0x0A then [] else [data[0]]) + Unbreaking(data[1..])
  }

  /** One leading byte order mark, and every carriage return and line feed, removed. */
  function Stripped(data: Bytes): Bytes {
    Unbreaking(if |data| >= 3 && data[..3] == [0xEF, 0xBB, 0xBF] then data[3..] else data)
  }

  function Signed(crc: bv32): int {
    if crc >= 0x80000000 then crc as int - 0x1_0000_0000 else crc as int
  }

  lemma {:induction false} UnbreakingDistributes(a: Bytes, b: Bytes)
    ensures Unbreaking(a + b) == Unbreaking(a) + Unbreaking(b)
  {
    if a == [] {
      assert a + b == b;
    } else {
      assert (a + b)[1..] == a[1..] + b;
      UnbreakingDistributes(a[1..], b);
    }
  }

  /** A multi-byte encoding never contains a line break byte. */
  lemma OneUnbreaks(c: bv32)
    requires Scalar(c)
    ensures Unbreaking(EncodeOne(c)) == if c == CR || c == LF then [] else EncodeOne(c)
  {
    var e := EncodeOne(c);
    assert forall i :: 0 <= i < |e| && c != CR && c != LF ==> e[i] != 0x0D && e[i] != 0x0A;
    hide EncodeOne, Scalar;
    if c == CR || c == LF {
      assert e == [c as bv8] && e[1..] == [];
    } else {
      NothingToUnbreak(e);
    }
  }

  lemma {:induction false} NothingToUnbreak(data: Bytes)
    requires forall i :: 0 <= i < |data| ==> data[i] != 0x0D && data[i] != 0x0A
    ensures Unbreaking(data) == data
  {
    if data != [] {
      NothingToUnbreak(data[1..]);
    }
  }

  lemma {:induction false} UnbrokenEncodes(text: Text)
    requires Scalars(text)
    ensures Scalars(Unbroken(text)) && Encode(Unbroken(text)) == Unbreaking(Encode(text))
  {
    hide EncodeOne, Scalar;
    if text != [] {
      UnbrokenEncodes(text[1..]);
      OneUnbreaks(text[0]);
      UnbreakingDistributes(EncodeOne(text[0]), Encode(text[1..]));
      var kept := if text[0] == CR || text[0] == LF then [] else [text[0]];
      EncodeDistributes(kept, Unbroken(text[1..]));
    }
  }

  lemma EncodedMark()
    ensures EncodeOne(MARK) == [0xEF, 0xBB, 0xBF]
  {
    assert (0xE0 | (MARK >> 12)) as bv8 == 0xEF;
    assert Tail(MARK >> 6) == 0xBB && Tail(MARK) == 0xBF;
  }

  /** str.removeprefix of one byte order mark. */
  function WithoutMark(text: Text): Text {
    if text != [] && text[0] == MARK then text[1..] else text
  }

  /** The text begins with the mark exactly where the bytes begin with its encoding. */
  lemma MarkIsThreeBytes(text: Text, data: Bytes)
    requires Scalars(text) && data == Encode(text)
    ensures text != [] && text[0] == MARK <==> |data| >= 3 && data[..3] == [0xEF, 0xBB, 0xBF]
    ensures text != [] && text[0] == MARK ==> data[3..] == Encode(text[1..])
  {
    EncodedMark();
    if text != [] {
      var head, rest := EncodeOne(text[0]), Encode(text[1..]);
      EncodedOneDecodes(text[0], rest);
      assert data == head + rest;
      if |data| >= 3 && data[..3] == [0xEF, 0xBB, 0xBF] {
        assert EncodeOne(MARK) + data[3..] == data;
        EncodedOneDecodes(MARK, data[3..]);
      }
      if text[0] == MARK {
        assert data[..3] == head && data[3..] == rest;
      }
    }
  }

  /** The bytes of the text that is summed are the bytes of the file, stripped. */
  lemma StrippedEncodes(data: Bytes)
    requires Decode(data).Some?
    ensures var text := Unbroken(WithoutMark(Decode(data).value));
      Scalars(text) && Encode(text) == Stripped(data)
  {
    DecodedEncodes(data);
    var text := Decode(data).value;
    MarkIsThreeBytes(text, data);
    UnbrokenEncodes(WithoutMark(text));
  }

  lemma ScalarsSplit(a: Text, b: Text)
    requires Scalars(a + b)
    ensures Scalars(a) && Scalars(b)
  {
    hide Scalar;
    assert forall i :: 0 <= i < |a| ==> a[i] == (a + b)[i];
    assert forall i :: 0 <= i < |b| ==> b[i] == (a + b)[|a| + i];
  }

  /**
   * The signed CRC-32 of the file's bytes without one leading byte order mark, carriage returns and
   * line feeds; ill-formed UTF-8 is an error.
   */
  method Checksum(data: Bytes) returns (r: Option<int>)
    ensures r.Some? <==> Decode(data).Some?
    ensures r.Some? ==> r.value == Signed(Crc32(Stripped(data), 0))
  {
    var decoded := Decode(data);
    if decoded.None? { return None; }
    var lines := WithoutLastEmpty(Lines(WithoutMark(decoded.value), []));
    LinesJoin(WithoutMark(decoded.value), []);
    LastEmptyIsIrrelevant(Lines(WithoutMark(decoded.value), []));
    StrippedEncodes(data);
    assert Joined(lines) == Unbroken(WithoutMark(decoded.value));
    hide Lines, Decode, Crc32, Unbroken, WithoutLastEmpty, Stripped, WithoutMark, Encode;
    var crc: bv32 := 0;
    assert lines[0..] == lines;
    for i := 0 to |lines|
      invariant Scalars(Joined(lines[i..]))
      invariant Crc32(Encode(Joined(lines[i..])), crc) == Crc32(Stripped(data), 0)
    {
      assert lines[i..][1..] == lines[i+1..];
      ScalarsSplit(lines[i], Joined(lines[i+1..]));
      EncodeDistributes(lines[i], Joined(lines[i+1..]));
      Crc32Composes(Encode(lines[i]), Encode(Joined(lines[i+1..])), crc);
      crc := Crc32(Encode(lines[i]), crc);
    }
    NothingIsLeft(crc);
    r := Some(Signed(crc));
  }

  lemma NothingIsLeft(crc: bv32)
    ensures Joined([]) == [] && Encode([]) == [] && Crc32([], crc) == crc
  {
    FlipsUndo(crc);
  }

  /** The result is the signed 32-bit number of the same bits. */
  lemma SignedIsBounded(crc: bv32)
    ensures -0x8000_0000 <= Signed(crc) < 0x8000_0000
    ensures Signed(crc) == crc as int || Signed(crc) + 0x1_0000_0000 == crc as int
  {
  }

  lemma CastBack(crc: bv32)
    ensures (crc as int) as bv32 == crc
  {
  }

  lemma SignedIsFaithful(a: bv32, b: bv32)
    requires Signed(a) == Signed(b)
    ensures a == b
  {
    CastBack(a);
    CastBack(b);
  }

  // ---------- what the checksum notices ----------

  /** The file begins with a byte order mark. */
  predicate Marked(data: Bytes) {
    |data| >= 3 && data[..3] == [0xEF, 0xBB, 0xBF]
  }

  function Body(data: Bytes): Bytes {
    if Marked(data) then data[3..] else data
  }

  lemma {:induction false} StrippedSplits(before: Bytes, middle: Bytes, after: Bytes)
    requires |before| >= 3 || !Marked(before + middle + after)
    ensures Stripped(before + middle + after) == Unbreaking(Body(before)) + Unbreaking(middle) + Unbreaking(after)
  {
    var data := before + middle + after;
    if |before| >= 3 { assert data[..3] == before[..3]; }
    assert Body(data) == Body(before) + middle + after;
    UnbreakingDistributes(Body(before) + middle, after);
    UnbreakingDistributes(Body(before), middle);
  }

  /** A line break among the first three bytes leaves no mark. */
  lemma BreakIsNoMark(before: Bytes, middle: Bytes, after: Bytes)
    requires |before| < 3 && middle != [] && (middle[0] == 0x0D || middle[0] == 0x0A)
    ensures !Marked(before + middle + after)
  {
    var data := before + middle + after;
    assert data[|before|] == middle[0];
    if |data| >= 3 {
      assert data[..3][|before|] == middle[0];
      assert [0xEF as bv8, 0xBB, 0xBF][|before|] != middle[0];
    }
  }

  lemma BreakSplits(before: Bytes, middle: Bytes, after: Bytes)
    requires middle != [] && (middle[0] == 0x0D || middle[0] == 0x0A)
    ensures Stripped(before + middle + after) == Unbreaking(Body(before)) + Unbreaking(middle) + Unbreaking(after)
  {
    hide Stripped, Body, Unbreaking, Marked;
    if |before| < 3 { BreakIsNoMark(before, middle, after); }
    StrippedSplits(before, middle, after);
  }

  /** Line endings never matter, wherever they stand. */
  lemma {:induction false} LineEndingsAreIrrelevant(before: Bytes, after: Bytes)
    ensures Stripped(before + [0x0D, 0x0A] + after) == Stripped(before + [0x0A] + after)
    ensures Stripped(before + [0x0D] + after) == Stripped(before + [0x0A] + after)
  {
    BreakSplits(before, [0x0D, 0x0A], after);
    BreakSplits(before, [0x0D], after);
    BreakSplits(before, [0x0A], after);
    assert [0x0D, 0x0A][1..] == [0x0A as bv8] && [0x0A as bv8][1..] == [] && [0x0D as bv8][1..] == [];
    hide Stripped;
  }

  /**
   * Any other edit of one byte does matter: an applied file with one changed byte never keeps its
   * checksum, unless the edit makes or unmakes a byte order mark.
   */
  lemma {:induction false} EditIsNoticed(before: Bytes, a: bv8, b: bv8, after: Bytes)
    requires a != 0x0D && a != 0x0A && b != 0x0D && b != 0x0A
    requires |before| >= 3 || (!Marked(before + [a] + after) && !Marked(before + [b] + after))
    requires Signed(Crc32(Stripped(before + [a] + after), 0)) == Signed(Crc32(Stripped(before + [b] + after), 0))
    ensures a == b
  {
    hide Signed, Crc32, Stripped, Body, Unbreaking, Marked;
    SignedIsFaithful(Crc32(Stripped(before + [a] + after), 0), Crc32(Stripped(before + [b] + after), 0));
    StrippedSplits(before, [a], after);
    StrippedSplits(before, [b], after);
    NothingToUnbreak([a]);
    NothingToUnbreak([b]);
    SubstitutionIsNoticed(Unbreaking(Body(before)), a, b, Unbreaking(after));
  }

  // ---------- known values ----------

  lemma FirstRegisters()
    ensures Byte(0xFFFFFFFF, 0x31) == 0x7C231048
    ensures Byte(0x7C231048, 0x32) == 0xB0ACBB32
    ensures Byte(0xB0ACBB32, 0x33) == 0x77B79C2D
  {
  }

  lemma MiddleRegisters()
    ensures Byte(0x77B79C2D, 0x34) == 0x641C1F5C
    ensures Byte(0x641C1F5C, 0x35) == 0x340AC5E3
    ensures Byte(0x340AC5E3, 0x36) == 0xF68D2C9E
  {
  }

  lemma LastRegisters()
    ensures Byte(0xF68D2C9E, 0x37) == 0xAFFC9660
    ensures Byte(0xAFFC9660, 0x38) == 0x651F2550
    ensures Byte(0x651F2550, 0x39) == 0x340BC6D9
  {
  }

  lemma RegisterOfThree(a: bv8, b: bv8, d: bv8, c: bv32)
    ensures Register([a, b, d], c) == Byte(Byte(Byte(c, a), b), d)
  {
    hide Byte;
    Appended([], a, c);
    Appended([a], b, c);
    Appended([a, b], d, c);
    assert [] + [a] == [a] && [a] + [b] == [a, b] && [a, b] + [d] == [a, b, d];
  }

  const NINE_DIGITS: Bytes := [0x31, 0x32, 0x33] + [0x34, 0x35, 0x36] + [0x37, 0x38, 0x39]

  /** The customary check value: the CRC-32 of the nine digits from 1 to 9. */
  lemma CheckValue()
    ensures Crc32(NINE_DIGITS, 0) == 0xCBF43926
  {
    FirstRegisters();
    MiddleRegisters();
    LastRegisters();
    RegisterOfThree(0x31, 0x32, 0x33, 0xFFFFFFFF);
    RegisterOfThree(0x34, 0x35, 0x36, 0x77B79C2D);
    RegisterOfThree(0x37, 0x38, 0x39, 0xF68D2C9E);
    hide Byte, Register;
    RegisterComposes([0x31, 0x32, 0x33] + [0x34, 0x35, 0x36], [0x37, 0x38, 0x39], 0xFFFFFFFF);
    RegisterComposes([0x31, 0x32, 0x33], [0x34, 0x35, 0x36], 0xFFFFFFFF);
  }

  /** Those digits on two lines, after a byte order mark. */
  const NINE_IN_A_FILE: Bytes := [0xEF, 0xBB, 0xBF] + [0x31, 0x32, 0x33] + [0x34, 0x35, 0x36] + [0x0D, 0x0A] + [0x37, 0x38, 0x39] + [0x0A]

  lemma FileIsStripped()
    ensures Stripped(NINE_IN_A_FILE) == NINE_DIGITS
  {
    var front, back: Bytes := [0x31, 0x32, 0x33] + [0x34, 0x35, 0x36], [0x37, 0x38, 0x39];
    assert NINE_IN_A_FILE[..3] == [0xEF, 0xBB, 0xBF] && NINE_IN_A_FILE[3..] == front + [0x0D, 0x0A] + back + [0x0A];
    UnbreakingDistributes(front + [0x0D, 0x0A] + back, [0x0A]);
    UnbreakingDistributes(front + [0x0D, 0x0A], back);
    UnbreakingDistributes(front, [0x0D, 0x0A]);
    NothingToUnbreak(front);
    NothingToUnbreak(back);
    assert [0x0D, 0x0A][1..] == [0x0A as bv8] && [0x0A as bv8][1..] == [];
  }

  /** A file of those digits sums to the signed check value. */
  lemma FileCheckValue()
    ensures Signed(Crc32(Stripped(NINE_IN_A_FILE), 0)) == -873187034
  {
    CheckValue();
    FileIsStripped();
    assert Signed(0xCBF43926) == -873187034;
    hide Crc32, Stripped;
  }

  /** Surrogates, numbers beyond the last code point, and longer forms than needed are ill formed: section 3 of RFC 3629. */
  lemma IllFormedIsRefused()
    ensures Decode([0xED, 0xA0, 0x80]).None? && Decode([0xED, 0xBF, 0xBF]).None? && Decode([0xF4, 0x90, 0x80, 0x80]).None?
    ensures Decode([0xC0, 0x80]).None? && Decode([0xE0, 0x80, 0x80]).None? && Decode([0xF0, 0x80, 0x80, 0x80]).None?
    ensures Decode([0x80]).None? && Decode([0xE2, 0x89]).None? && Decode([0xFF]).None?
  {
    assert Three(0xED, 0xA0, 0x80) == 0xD800 && Three(0xED, 0xBF, 0xBF) == 0xDFFF && Four(0xF4, 0x90, 0x80, 0x80) == 0x110000;
    assert Three(0xE0, 0x80, 0x80) == 0 && Four(0xF0, 0x80, 0x80, 0x80) == 0;
    hide Three, Four, EncodeOne, Two;
  }

  /** One example of each length, from section 7 of RFC 3629. */
  lemma EncodedExamples()
    ensures EncodeOne(0x41) == [0x41] && EncodeOne(0x391) == [0xCE, 0x91]
    ensures EncodeOne(0x2262) == [0xE2, 0x89, 0xA2] && EncodeOne(0x233B4) == [0xF0, 0xA3, 0x8E, 0xB4]
  {
    assert (0xC0 | (0x391 as bv32 >> 6)) as bv8 == 0xCE && Tail(0x391) == 0x91;
    assert (0xE0 | (0x2262 as bv32 >> 12)) as bv8 == 0xE2 && Tail(0x2262 >> 6) == 0x89 && Tail(0x2262) == 0xA2;
    assert Lead(0x233B4) == 0xF0 && Tail(0x233B4 >> 12) == 0xA3 && Tail(0x233B4 >> 6) == 0x8E && Tail(0x233B4) == 0xB4;
  }
}
