/** The hash-chained audit log: the canonical encoding of a row, the verifier's walk, and what a head hash pins. */
module Audit {
  import opened Base
  import opened Bytes

  /** A Go string or slice: its length is an int64. */
  type Text = s: Bytes | |s| < TWO_63
  /** What SHA-256 returns. Nothing else is known about it: the hash is a parameter `h` throughout. */
  type Digest = s: Bytes | |s| == 32 witness ZEROS
  /** 32 zero bytes. */
  const ZEROS: Bytes := BigEndian(32, 0)
  type HashFunction = Bytes -> Digest

  const GENESIS: Digest := ZEROS

  // ---------------------------------------------------------------- the canonical encoding

  datatype Fields = Fields(seqNo: int64, micros: int64, actor: Text, action: Text, aggType: Text, aggId: Text,
                           payload: Text)

  /** uint64(x) of an int64: two's complement. */
  function Unsigned(x: int64): uint64 { if x < 0 then x + TWO_64 else x }

  function SignedOf(u: uint64): int64 { if u < TWO_63 then u else u - TWO_64 }

  function Word(v: nat): Bytes { BigEndian(8, v) }

  function Framed(b: Bytes): Bytes { Word(|b|) + b }

  function Frames(fields: seq<Text>): Bytes {
    if fields == [] then [] else Framed(fields[0]) + Frames(fields[1..])
  }

  function Parts(f: Fields): seq<Text> { [f.actor, f.action, f.aggType, f.aggId, f.payload] }

  function Encoded(f: Fields): Bytes { Word(Unsigned(f.seqNo)) + (Word(Unsigned(f.micros)) + Frames(Parts(f))) }

  lemma FiveFrames(a: Text, b: Text, c: Text, d: Text, e: Text)
    ensures Frames([a, b, c, d, e]) == Framed(a) + Framed(b) + Framed(c) + Framed(d) + Framed(e)
  {
    assert [a, b, c, d, e][1..] == [b, c, d, e] && [b, c, d, e][1..] == [c, d, e] && [c, d, e][1..] == [d, e]
        && [d, e][1..] == [e];
    assert Frames([e]) == Framed(e);
    assert Frames([d, e]) == Framed(d) + Framed(e);
    assert Frames([c, d, e]) == Framed(c) + Framed(d) + Framed(e);
    assert Frames([b, c, d, e]) == Framed(b) + Framed(c) + Framed(d) + Framed(e);
  }

  /** writeField: the length first, then the bytes. */
  method WriteField(buf: Bytes, b: Text) returns (now: Bytes)
    ensures now == buf + Framed(b)
  {
    now := buf + Word(|b|);
    now := now + b;
  }

  /** The layout written out: two numbers in two's complement, then five fields, each behind its length. */
  lemma EncodedExactly(f: Fields)
    ensures Encoded(f) ==
      BigEndian(8, if f.seqNo < 0 then f.seqNo + TWO_64 else f.seqNo) +
      (BigEndian(8, if f.micros < 0 then f.micros + TWO_64 else f.micros) +
      ((BigEndian(8, |f.actor|) + f.actor) + (BigEndian(8, |f.action|) + f.action) +
      (BigEndian(8, |f.aggType|) + f.aggType) + (BigEndian(8, |f.aggId|) + f.aggId) +
      (BigEndian(8, |f.payload|) + f.payload)))
  {
    FiveFrames(f.actor, f.action, f.aggType, f.aggId, f.payload);
  }

  /** canonical: the buffer grows one write at a time. */
  method Canonical(f: Fields) returns (buf: Bytes)
    ensures buf == Encoded(f)
  {
    buf := Word(Unsigned(f.seqNo));
    buf := buf + Word(Unsigned(f.micros));
    buf := WriteField(buf, f.actor);
    buf := WriteField(buf, f.action);
    buf := WriteField(buf, f.aggType);
    buf := WriteField(buf, f.aggId);
    buf := WriteField(buf, f.payload);
    FiveFrames(f.actor, f.action, f.aggType, f.aggId, f.payload);
  }

  // The decoder: what is read off the front, and what is left.

  datatype Cut<+T> = Cut(part: T, rest: Bytes)

  function TakeWord(s: Bytes): Option<Cut<uint64>> {
    if |s| < 8 then None else EightBytes(); Some(Cut(Number(s[..8]), s[8..]))
  }

  function TakeField(s: Bytes): Option<Cut<Text>> {
    match TakeWord(s)
    case None => None
    case Some(w) =>
        if w.part >= TWO_63 || |w.rest| < w.part then None else Some(Cut(w.rest[..w.part], w.rest[w.part..]))
  }

  function TakeFields(n: nat, s: Bytes): Option<Cut<seq<Text>>> {
    if n == 0 then Some(Cut([], s)) else
    match TakeField(s)
    case None => None
    case Some(c) =>
      match TakeFields(n - 1, c.rest)
      case None => None
      case Some(d) => Some(Cut([c.part] + d.part, d.rest))
  }

  function Decode(s: Bytes): Option<Fields> {
    match TakeWord(s)
    case None => None
    case Some(a) =>
      match TakeWord(a.rest)
      case None => None
      case Some(b) =>
        match TakeFields(5, b.rest)
        case None => None
        case Some(c) =>
          if |c.part| == 5 && c.rest == []
          then Some(Fields(SignedOf(a.part), SignedOf(b.part), c.part[0], c.part[1], c.part[2], c.part[3], c.part[4]))
          else None
  }

  lemma WordRoundTrip(v: uint64, rest: Bytes)
    ensures TakeWord(Word(v) + rest) == Some(Cut(v, rest))
  {
    EightBytes();
    NumberOfBigEndian(8, v);
    assert (Word(v) + rest)[..8] == Word(v) && (Word(v) + rest)[8..] == rest;
  }

  lemma FieldRoundTrip(b: Text, rest: Bytes)
    ensures TakeField(Framed(b) + rest) == Some(Cut(b, rest))
  {
    assert Framed(b) + rest == Word(|b|) + (b + rest);
    WordRoundTrip(|b|, b + rest);
    assert (b + rest)[..|b|] == b && (b + rest)[|b|..] == rest;
  }

  lemma {:induction false} FieldsRoundTrip(p: seq<Text>)
    ensures TakeFields(|p|, Frames(p)) == Some(Cut(p, []))
  {
    if p != [] {
      FieldRoundTrip(p[0], Frames(p[1..]));
      FieldsRoundTrip(p[1..]);
      assert p == [p[0]] + p[1..];
    }
  }

  lemma DecodeReads(s: Bytes, f: Fields, a: Bytes, b: Bytes)
    requires TakeWord(s) == Some(Cut(Unsigned(f.seqNo), a)) && TakeWord(a) == Some(Cut(Unsigned(f.micros), b))
    requires TakeFields(5, b) == Some(Cut(Parts(f), []))
    ensures Decode(s) == Some(f)
  {
    var p := TakeFields(5, b).value.part;
    assert p[0] == f.actor && p[1] == f.action && p[2] == f.aggType && p[3] == f.aggId && p[4] == f.payload;
  }

  /** Decoding inverts the encoding. */
  lemma DecodeEncoded(f: Fields)
    ensures Decode(Encoded(f)) == Some(f)
  {
    var b := Frames(Parts(f));
    var a := Word(Unsigned(f.micros)) + b;
    WordRoundTrip(Unsigned(f.seqNo), a);
    WordRoundTrip(Unsigned(f.micros), b);
    FieldsRoundTrip(Parts(f));
    DecodeReads(Encoded(f), f, a, b);
  }

  lemma TakenWord(s: Bytes)
    requires TakeWord(s).Some?
    ensures s == Word(TakeWord(s).value.part) + TakeWord(s).value.rest
  {
    BigEndianOfNumber(s[..8]);
  }

  lemma TakenField(s: Bytes)
    requires TakeField(s).Some?
    ensures s == Framed(TakeField(s).value.part) + TakeField(s).value.rest
  {
    TakenWord(s);
  }

  /** A list of fields read to the end of the input is what was written there. */
  lemma {:induction false} TakenFields(n: nat, s: Bytes)
    requires TakeFields(n, s).Some? && TakeFields(n, s).value.rest == []
    ensures |TakeFields(n, s).value.part| == n
    ensures s == Frames(TakeFields(n, s).value.part)
  {
    if n > 0 {
      TakenField(s);
      TakenFields(n - 1, TakeField(s).value.rest);
      assert TakeFields(n, s).value.part[1..] == TakeFields(n - 1, TakeField(s).value.rest).value.part;
    }
  }

  /** The decoder accepts exactly the encodings, and gives back what was encoded. */
  lemma DecodeIff(s: Bytes, f: Fields)
    ensures Decode(s) == Some(f) <==> s == Encoded(f)
  {
    DecodeEncoded(f);
    if Decode(s) == Some(f) {
      TakenWord(s);
      var a := TakeWord(s).value;
      TakenWord(a.rest);
      var b := TakeWord(a.rest).value;
      TakenFields(5, b.rest);
      assert Unsigned(f.seqNo) == a.part && Unsigned(f.micros) == b.part;
      assert Parts(f) == TakeFields(5, b.rest).value.part;
    }
  }

  lemma EncodedInjective(f: Fields, g: Fields)
    ensures Encoded(f) == Encoded(g) <==> f == g
  {
    DecodeEncoded(f);
    DecodeEncoded(g);
  }

  // ---------------------------------------------------------------- rows and chains

  /** A stored row. `nanos` is the instant in nanoseconds since the Unix epoch. */
  datatype Row = Row(seqNo: int64, prev: Bytes, hash: Bytes, actor: Text, action: Text, aggType: Text, aggId: Text,
                     nanos: int, payload: Text)

  /** time.Time.UnixMicro: rounds towards the past, and is an int64. */
  function Micros(nanos: int): int64 { Wrap64(nanos / 1000) }

  function FieldsOf(r: Row): Fields {
    Fields(r.seqNo, Micros(r.nanos), r.actor, r.action, r.aggType, r.aggId, r.payload)
  }

  function Preimage(r: Row): Bytes { r.prev + Encoded(FieldsOf(r)) }

  function PrevOf(rows: seq<Row>): Bytes { if rows == [] then GENESIS else rows[|rows| - 1].hash }

  ghost predicate LinkOk(h: HashFunction, rows: seq<Row>, i: nat)
    requires i < |rows|
  {
    && rows[i].seqNo == i + 1
    && rows[i].prev == PrevOf(rows[..i])
    && rows[i].hash == h(Preimage(rows[i]))
  }

  /** Numbered 1, 2, 3, ...; each row names its predecessor's hash; each hash is recomputable. */
  ghost predicate Chain(h: HashFunction, rows: seq<Row>) {
    forall i :: 0 <= i < |rows| ==> LinkOk(h, rows, i)
  }

  ghost predicate AnchorOk(rows: seq<Row>, anchor: Option<Bytes>) {
    anchor.Some? ==> if rows == [] then anchor.value == [] else anchor.value == rows[|rows| - 1].hash
  }

  datatype Kind = Gap | BrokenLink | HashMismatch | HeadMismatch
  datatype Tamper = Tamper(seqNo: int64, kind: Kind)
  datatype Result = Result(count: int64, headSeq: int64, headHash: Bytes, ok: bool)

  /** What is wrong with row i, in the order the walk looks. */
  function Fault(h: HashFunction, rows: seq<Row>, i: nat): Option<Kind>
    requires i < |rows|
  {
    if i == 0 && (rows[0].seqNo != 1 || rows[0].prev != GENESIS) then Some(BrokenLink)
    else if i > 0 && rows[i].seqNo != Wrap64(rows[i - 1].seqNo + 1) then Some(Gap)
    else if i > 0 && rows[i].prev != rows[i - 1].hash then Some(BrokenLink)
    else if rows[i].hash != h(Preimage(rows[i])) then Some(HashMismatch)
    else None
  }

  /** The tampering a walk must report: the first faulty row, and only then the head. */
  ghost predicate Reports(h: HashFunction, rows: seq<Row>, anchor: Option<Bytes>, t: Tamper) {
    || (exists i | 0 <= i < |rows| ::
          Chain(h, rows[..i]) && Fault(h, rows, i) == Some(t.kind) && t.seqNo == rows[i].seqNo)
    || (t.kind == HeadMismatch && Chain(h, rows) && !AnchorOk(rows, anchor) && t.seqNo == |rows|)
  }

  lemma GenesisIsZero(i: nat)
    requires i < 32
    ensures |GENESIS| == 32 && GENESIS[i] == 0
  {
    ZeroBytes(32, i);
  }

  /** What the walk compares a row's hash with: the digest of the hash before it and of all that the row says. */
  function Digested(h: HashFunction, r: Row): Digest {
    h(r.prev + Encoded(Fields(r.seqNo, Wrap64(r.nanos / 1000), r.actor, r.action, r.aggType, r.aggId, r.payload)))
  }

  /** Each fault in terms of the row, the one before it and the digest; the first that applies is the one reported. */
  lemma FaultExactly(h: HashFunction, rows: seq<Row>, i: nat)
    requires i < |rows|
    ensures var r := rows[i];
      var gap := i > 0 && r.seqNo != Wrap64(rows[i - 1].seqNo + 1);
      var broken := if i == 0 then r.seqNo != 1 || r.prev != GENESIS else r.prev != rows[i - 1].hash;
      && (Fault(h, rows, i) == Some(Gap) <==> gap)
      && (Fault(h, rows, i) == Some(BrokenLink) <==> !gap && broken)
      && (Fault(h, rows, i) == Some(HashMismatch) <==> !gap && !broken && r.hash != Digested(h, r))
      && (Fault(h, rows, i) == None <==> !gap && !broken && r.hash == Digested(h, r))
  {}

  /** A row extends a chain exactly when it shows no fault. */
  lemma ChainGrows(h: HashFunction, rows: seq<Row>, i: nat)
    requires i < |rows| < TWO_63 && Chain(h, rows[..i])
    ensures Chain(h, rows[..i + 1]) <==> Fault(h, rows, i).None?
  {
    var now := rows[..i + 1];
    assert now[..i] == rows[..i];
    if i > 0 { assert LinkOk(h, rows[..i], i - 1); assert PrevOf(now[..i]) == rows[i - 1].hash; }
    assert LinkOk(h, now, i) <==> Fault(h, rows, i).None?;
    forall k | 0 <= k < i ensures LinkOk(h, now, k) {
      assert LinkOk(h, rows[..i], k);
      assert rows[..i][..k] == now[..k];
    }
  }

  lemma ChainPrefix(h: HashFunction, rows: seq<Row>, i: nat)
    requires Chain(h, rows) && i <= |rows|
    ensures Chain(h, rows[..i])
  {
    forall k | 0 <= k < i ensures LinkOk(h, rows[..i], k) {
      assert LinkOk(h, rows, k);
      assert rows[..i][..k] == rows[..k];
    }
  }

  /** Verify: accepts exactly the chains whose head meets the anchor, and otherwise names the first violation. */
  method Verify(h: HashFunction, rows: seq<Row>, anchor: Option<Bytes>) returns (res: Result, err: Option<Tamper>)
    requires |rows| < TWO_63
    ensures res.ok <==> err.None?
    ensures err.None? <==> Chain(h, rows) && AnchorOk(rows, anchor)
    ensures err.None? ==>
        res.count == |rows| && res.headSeq == |rows| && (rows != [] ==> res.headHash == rows[|rows| - 1].hash)
    ensures err.Some? ==> Reports(h, rows, anchor, err.value)
  {
    if |rows| == 0 {
      if anchor.Some? && |anchor.value| > 0 {
        return Result(0, 0, [], false), Some(Tamper(0, HeadMismatch));
      }
      return Result(0, 0, [], true), None;
    }
    assert rows[..0] == [];
    var first := rows[0];
    if first.seqNo != 1 || first.prev != GENESIS {
      assert Fault(h, rows, 0) == Some(BrokenLink);
      Rejected(h, rows, 0);
      return Result(0, 0, [], false), Some(Tamper(first.seqNo, BrokenLink));
    }
    var prevSeq: int64, prevHash: Bytes := 0, [];
    for i := 0 to |rows|
      invariant Chain(h, rows[..i])
      invariant i > 0 ==> prevSeq == rows[i - 1].seqNo && prevHash == rows[i - 1].hash
    {
      var row := rows[i];
      ChainGrows(h, rows, i);
      if i > 0 {
        if row.seqNo != Wrap64(prevSeq + 1) {
          assert Fault(h, rows, i) == Some(Gap);
          Rejected(h, rows, i);
          return Result(0, 0, [], false), Some(Tamper(row.seqNo, Gap));
        }
        if row.prev != prevHash {
          assert Fault(h, rows, i) == Some(BrokenLink);
          Rejected(h, rows, i);
          return Result(0, 0, [], false), Some(Tamper(row.seqNo, BrokenLink));
        }
      }
      var pre := Canonical(FieldsOf(row));
      if row.hash != h(row.prev + pre) {
        assert Fault(h, rows, i) == Some(HashMismatch);
        Rejected(h, rows, i);
        return Result(0, 0, [], false), Some(Tamper(row.seqNo, HashMismatch));
      }
      prevSeq, prevHash := row.seqNo, row.hash;
    }
    assert rows[..|rows|] == rows;
    var last := rows[|rows| - 1];
    assert LinkOk(h, rows, |rows| - 1);
    res := Result(|rows|, last.seqNo, last.hash, true);
    if anchor.Some? && anchor.value != res.headHash {
      return res.(ok := false), Some(Tamper(res.headSeq, HeadMismatch));
    }
    return res, None;
  }

  lemma Rejected(h: HashFunction, rows: seq<Row>, i: nat)
    requires i < |rows| < TWO_63 && Chain(h, rows[..i]) && Fault(h, rows, i).Some?
    ensures !Chain(h, rows)
  {
    ChainGrows(h, rows, i);
    if Chain(h, rows) { ChainPrefix(h, rows, i + 1); }
  }

  // ---------------------------------------------------------------- what the head pins

  /** An instant whose microseconds fit an int64, as every instant the database can hold does. */
  predicate Datable(nanos: int) { -TWO_63 <= nanos / 1000 < TWO_63 }

  /** The same row, up to the digits of its timestamp below the microsecond. */
  ghost predicate Same(r: Row, s: Row) {
    && r.seqNo == s.seqNo && r.prev == s.prev && r.hash == s.hash
    && r.actor == s.actor && r.action == s.action && r.aggType == s.aggType && r.aggId == s.aggId
    && r.payload == s.payload
    && (Datable(r.nanos) && Datable(s.nanos) ==> r.nanos / 1000 == s.nanos / 1000)
  }

  ghost predicate SameRows(a: seq<Row>, b: seq<Row>) {
    |a| == |b| && forall i :: 0 <= i < |a| ==> Same(a[i], b[i])
  }

  /**
   * Two chains with the same head hash are the same history, row by row, or the hash has collided:
   * the lemma then returns two different preimages with one digest.
   */
  lemma {:induction false} HeadPinsHistory(h: HashFunction, a: seq<Row>, b: seq<Row>) returns (x: Bytes, y: Bytes)
    requires Chain(h, a) && Chain(h, b)
    requires a != [] && b != [] && a[|a| - 1].hash == b[|b| - 1].hash
    ensures SameRows(a, b) || (x != y && h(x) == h(y))
    decreases |a|
  {
    var n, m := |a| - 1, |b| - 1;
    assert LinkOk(h, a, n) && LinkOk(h, b, m);
    x, y := Preimage(a[n]), Preimage(b[m]);
    if x == y {
      PrevIsDigest(h, a, n);
      PrevIsDigest(h, b, m);
      SamePreimage(a[n], b[m]);
      assert n == m;
      if n > 0 {
        ChainPrefix(h, a, n);
        ChainPrefix(h, b, m);
        x, y := HeadPinsHistory(h, a[..n], b[..m]);
        if SameRows(a[..n], b[..m]) {
          forall i | 0 <= i < |a| ensures Same(a[i], b[i]) {
            if i < n { assert Same(a[..n][i], b[..m][i]); }
          }
        }
      }
    }
  }

  lemma SamePreimage(r: Row, s: Row)
    requires |r.prev| == |s.prev| && Preimage(r) == Preimage(s)
    ensures r.prev == s.prev && FieldsOf(r) == FieldsOf(s)
  {
    assert r.prev == Preimage(r)[..|r.prev|] == s.prev;
    assert Encoded(FieldsOf(r)) == Preimage(r)[|r.prev|..] == Encoded(FieldsOf(s));
    EncodedInjective(FieldsOf(r), FieldsOf(s));
  }

  lemma PrevIsDigest(h: HashFunction, rows: seq<Row>, i: nat)
    requires Chain(h, rows) && i < |rows|
    ensures |rows[i].prev| == 32
  {
    assert LinkOk(h, rows, i);
    if i > 0 { assert LinkOk(h, rows, i - 1); assert PrevOf(rows[..i]) == rows[i - 1].hash; }
  }

  /** A list accepted against the head of a known chain is that chain: nothing was cut, replaced or restarted. */
  lemma AnchorPinsHistory(h: HashFunction, known: seq<Row>, rows: seq<Row>) returns (x: Bytes, y: Bytes)
    requires Chain(h, known) && known != []
    requires Chain(h, rows) && AnchorOk(rows, Some(PrevOf(known)))
    ensures SameRows(known, rows) || (x != y && h(x) == h(y))
  {
    assert LinkOk(h, known, |known| - 1);
    x, y := HeadPinsHistory(h, known, rows);
  }

  /**
   * Whatever is changed in one row of a chain, in any field and down to the microsecond, the changed list is no chain,
   * or the hash has collided, or the changed row is the last one and was given another hash.
   */
  lemma ChangeIsCaught(h: HashFunction, rows: seq<Row>, i: nat, r: Row) returns (x: Bytes, y: Bytes)
    requires Chain(h, rows) && i < |rows| && !Same(rows[i], r)
    ensures !Chain(h, rows[i := r]) || (x != y && h(x) == h(y)) || (i == |rows| - 1 && r.hash != rows[i].hash)
  {
    var forged := rows[i := r];
    x, y := [], [];
    if Chain(h, forged) {
      assert rows[..i + 1][i] == rows[i] && forged[..i + 1][i] == r;
      if i < |rows| - 1 {
        assert LinkOk(h, rows, i + 1) && LinkOk(h, forged, i + 1);
      }
      if r.hash == rows[i].hash {
        ChainPrefix(h, rows, i + 1);
        ChainPrefix(h, forged, i + 1);
        x, y := HeadPinsHistory(h, rows[..i + 1], forged[..i + 1]);
      }
    }
  }

  /** Against the head as it was, even that is caught: Verify refuses the list, or the hash has collided. */
  lemma ChangeIsCaughtByAnchor(h: HashFunction, rows: seq<Row>, i: nat, r: Row) returns (x: Bytes, y: Bytes)
    requires Chain(h, rows) && i < |rows| && !Same(rows[i], r)
    ensures !(Chain(h, rows[i := r]) && AnchorOk(rows[i := r], Some(rows[|rows| - 1].hash))) || (x != y && h(x) == h(y))
  {
    x, y := ChangeIsCaught(h, rows, i, r);
  }
}
