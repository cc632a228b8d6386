/** The transfer calldata the adapter packs and the isolated signer's reading of it. */
module Signer {
  import opened Base
  import opened Bytes

  type Address = s: Bytes | |s| == 20 witness BigEndian(20, 0)

  /** The first four bytes of the Keccak-256 hash of "transfer(address,uint256)". */
  const SELECTOR: Bytes := [0xa9, 0x05, 0x9c, 0xbb]
  const NOWHERE: Address := BigEndian(20, 0)

  // ---------------------------------------------------------------- packing

  /** transfer(address,uint256): selector, the address right-aligned in its word, the amount. */
  function Packed(to: Address, amount: nat): Bytes {
    SELECTOR + (BigEndian(12, 0) + (to + BigEndian(32, amount)))
  }

  /** What the token contract reads: the function, twelve zero bytes and the recipient, and the amount. */
  predicate CallsTransfer(d: Bytes, to: Address, amount: nat) {
    && |d| == 68 && d[..4] == [0xa9, 0x05, 0x9c, 0xbb] && d[16..36] == to && Number(d[36..68]) == amount
    && forall i :: 4 <= i < 16 ==> d[i] == 0
  }

  /** FillBytes: big-endian into data[from..from + n], least significant byte last. */
  method FillBytes(data: array<byte>, from: nat, n: nat, v: nat)
    requires from + n <= data.Length && v < Pow256(n)
    modifies data
    ensures data[..] == old(data[..from]) + BigEndian(n, v) + old(data[from + n..])
  {
    var i, rest := n, v;
    while i > 0
      invariant 0 <= i <= n
      invariant data[..from + i] == old(data[..from + i]) && data[from + n..] == old(data[from + n..])
      invariant BigEndian(i, rest) + data[from + i..from + n] == BigEndian(n, v)
    {
      i := i - 1;
      data[from + i] := rest % 256;
      assert data[from + i..from + n] == [rest % 256] + data[from + i + 1..from + n];
      rest := rest / 256;
    }
    assert data[..] == data[..from] + data[from..from + n] + data[from + n..];
  }

  method Copy(data: array<byte>, from: nat, bytes: Bytes)
    requires from + |bytes| <= data.Length
    modifies data
    ensures data[..] == old(data[..from]) + bytes + old(data[from + |bytes|..])
  {
    for i := 0 to |bytes|
      invariant data[..from + i] == old(data[..from]) + bytes[..i]
      invariant data[from + i..] == old(data[from + i..])
    {
      data[from + i] := bytes[i];
      assert data[..from + i + 1] == data[..from + i] + [bytes[i]];
      assert data[from + i + 1..] == old(data[from + i..])[1..];
    }
    assert data[..] == data[..from + |bytes|] + data[from + |bytes|..];
  }

  /** packERC20Transfer: the buffer is filled in place; every amount of a uint256 but zero is packed. */
  method PackTransfer(to: Address, amount: Option<int>) returns (r: Option<Bytes>)
    ensures r.Some? <==> amount.Some? && 0 < amount.value < Pow256(32)
    ensures r.Some? ==> r.value == Packed(to, amount.value)
    ensures r.Some? ==> CallsTransfer(r.value, to, amount.value)
  {
    if amount.None? || amount.value <= 0 || amount.value >= Pow256(32) { return None; }
    var data := new byte[68](_ => 0);
    ghost var d0 := data[..];
    Copy(data, 0, SELECTOR);
    ghost var d1 := data[..];
    Copy(data, 16, to);
    ghost var d2 := data[..];
    FillBytes(data, 36, 32, amount.value);
    Layout(d0, d1, d2, data[..], SELECTOR, to, BigEndian(32, amount.value));
    ZeroPad(d0[4..16]);
    PackedReads(to, amount.value);
    return Some(data[..]);
  }

  /** Three writes into a buffer, read off from left to right. */
  lemma Layout(d0: Bytes, d1: Bytes, d2: Bytes, d3: Bytes, selector: Bytes, to: Address, word: Bytes)
    requires |d0| == 68 && |selector| == 4 && |word| == 32
    requires d1 == d0[..0] + selector + d0[4..]
    requires d2 == d1[..16] + to + d1[36..]
    requires d3 == d2[..36] + word + d2[68..]
    ensures d3 == selector + (d0[4..16] + (to + word))
  {
    assert d1[..16] == selector + d0[4..16];
    assert d2[..36] == d1[..16] + to;
  }

  lemma ZeroPad(pad: Bytes)
    requires forall i :: 0 <= i < |pad| ==> pad[i] == 0
    ensures pad == BigEndian(|pad|, 0)
  {
    forall i | 0 <= i < |pad| ensures pad[i] == BigEndian(|pad|, 0)[i] { ZeroBytes(|pad|, i); }
  }

  // ---------------------------------------------------------------- the signer's policy

  datatype Request = Request(key: string, chain: uint64, to: Address, value: Option<int>, maxFee: Option<int>,
                             tip: Option<int>, gas: uint64, data: Bytes)
  datatype Verdict = Charge(amount: int) | UnknownKey | ChainMismatch | Malformed

  const MIN_GAS := 21_000
  const MAX_GAS := 30_000_000

  predicate Uint256(v: Option<int>) { v.Some? && 0 <= v.value < Pow256(32) }

  /**
   * chargedAmount: a native transfer is charged its value, a token transfer its token amount, nothing else is signed.
   */
  function ChargedAmount(r: Request): Option<int>
    requires r.value.Some?
  {
    if r.data == [] then r.value
    else if |r.data| != 68 || r.data[..4] != SELECTOR || r.value.value != 0 then None
    else Some(Number(r.data[36..68]))
  }

  /** validate: the checks in the source's order; `keys` gives the chain each key is bound to. */
  function Validate(keys: map<string, uint64>, r: Request): Verdict {
    if r.key !in keys then UnknownKey
    else if r.chain != keys[r.key] then ChainMismatch
    else if r.to == NOWHERE then Malformed
    else if !Uint256(r.value) || !Uint256(r.maxFee) || !Uint256(r.tip) then Malformed
    else if r.maxFee.value == 0 || r.maxFee.value < r.tip.value then Malformed
    else if r.gas < MIN_GAS || r.gas > MAX_GAS then Malformed
    else if ChargedAmount(r).None? then Malformed
    else Charge(ChargedAmount(r).value)
  }

  /**
   * A request that is sound apart from its calldata: a registered key on its own chain, a destination, a positive fee
   * cap no lower than the tip, and gas for a transfer but not for more than a block.
   */
  predicate Sound(keys: map<string, uint64>, r: Request) {
    && r.key in keys && keys[r.key] == r.chain
    && (exists i :: 0 <= i < 20 && r.to[i] != 0)
    && r.value.Some? && 0 <= r.value.value < Pow256(32)
    && r.maxFee.Some? && 0 < r.maxFee.value < Pow256(32)
    && r.tip.Some? && 0 <= r.tip.value <= r.maxFee.value
    && 21_000 <= r.gas <= 30_000_000
  }

  /** A transfer of the chain's own coin. */
  predicate PaysNative(r: Request, amount: int) { r.data == [] && r.value == Some(amount) }

  /** A call of a token's transfer, and no coin with it. */
  predicate PaysToken(r: Request, amount: int) {
    && |r.data| == 68 && r.data[..4] == [0xa9, 0x05, 0x9c, 0xbb] && r.value == Some(0)
    && 0 <= amount < Pow256(32) && r.data[36..] == BigEndian(32, amount)
  }

  lemma SomewhereIff(to: Address)
    ensures to != NOWHERE <==> exists i :: 0 <= i < 20 && to[i] != 0
  {
    forall i | 0 <= i < 20 ensures NOWHERE[i] == 0 { ZeroBytes(20, i); }
    if forall i :: 0 <= i < 20 ==> to[i] == 0 { assert to == NOWHERE; }
  }

  /** The signer charges an amount if and only if the request is sound and pays exactly that amount. */
  lemma ChargedIff(keys: map<string, uint64>, r: Request, amount: int)
    ensures Validate(keys, r) == Charge(amount) <==> Sound(keys, r) && (PaysNative(r, amount) || PaysToken(r, amount))
  {
    SomewhereIff(r.to);
    if |r.data| == 68 {
      assert r.data[36..68] == r.data[36..];
      BigEndianOfNumber(r.data[36..]);
      if PaysToken(r, amount) { NumberOfBigEndian(32, amount); }
    }
  }

  /** An unknown key is reported before anything else, then the wrong chain, then the rest as malformed. */
  lemma RefusedFor(keys: map<string, uint64>, r: Request)
    ensures Validate(keys, r) == UnknownKey <==> r.key !in keys
    ensures Validate(keys, r) == ChainMismatch <==> r.key in keys && keys[r.key] != r.chain
  {}

  lemma PackedParts(to: Address, amount: nat)
    ensures var d := Packed(to, amount);
      |d| == 68 && d[..4] == SELECTOR && d[16..36] == to && d[36..68] == BigEndian(32, amount)
  {
    var d, w := Packed(to, amount), BigEndian(32, amount);
    assert |d| == 4 + (12 + (20 + 32));
    assert forall i :: 0 <= i < 20 ==> d[16 + i] == to[i];
    assert forall i :: 0 <= i < 32 ==> d[36 + i] == w[i];
    assert d[16..36] == to;
    assert d[36..68] == w;
  }

  lemma PackedReads(to: Address, amount: nat)
    requires amount < Pow256(32)
    ensures CallsTransfer(Packed(to, amount), to, amount)
  {
    var d := Packed(to, amount);
    PackedParts(to, amount);
    NumberOfBigEndian(32, amount);
    forall i | 4 <= i < 16 ensures d[i] == 0 {
      assert d[i] == BigEndian(12, 0)[i - 4];
      ZeroBytes(12, i - 4);
    }
  }

  /** Whatever transfer the adapter packs, the signer charges exactly its amount. */
  lemma PackedIsChargedExactly(keys: map<string, uint64>, r: Request, to: Address, amount: int)
    requires Sound(keys, r) && r.value == Some(0) && 0 < amount < Pow256(32) && r.data == Packed(to, amount)
    ensures Validate(keys, r) == Charge(amount)
  {
    PackedParts(to, amount);
    ChargedIff(keys, r, amount);
  }

  /**
   * What the signer charges fixes the amount that moves: it is the value of a native transfer, or the amount word of
   * the call.
   */
  lemma ChargeFixesTheTransfer(keys: map<string, uint64>, r: Request)
    requires Validate(keys, r).Charge?
    ensures var amount := Validate(keys, r).amount;
      && 0 <= amount < Pow256(32)
      && if r.data == [] then r.value == Some(amount)
         else r.value == Some(0) && r.data == SELECTOR + r.data[4..36] + BigEndian(32, amount)
  {
    if r.data != [] {
      BigEndianOfNumber(r.data[36..68]);
      assert r.data == r.data[..4] + r.data[4..36] + r.data[36..68];
    }
  }

  /** Two packed calls are equal only if they pay the same recipient the same amount. */
  lemma PackedInjective(to: Address, amount: nat, to': Address, amount': nat)
    requires amount < Pow256(32) && amount' < Pow256(32)
    ensures Packed(to, amount) == Packed(to', amount') <==> to == to' && amount == amount'
  {
    PackedParts(to, amount);
    PackedParts(to', amount');
    NumberOfBigEndian(32, amount);
    NumberOfBigEndian(32, amount');
  }

  // ---------------------------------------------------------------- the spend limit

  class SpendBucket {
    const limit: int
    var spent: int

    constructor (limit: int)
      ensures this.limit == limit && spent == 0
    {
      this.limit, spent := limit, 0;
    }

    /**
     * charge: check, sign and commit under the key's lock. Returns whether the callback ran, and whether it was
     * charged.
     */
    method Charge(amount: int, signs: bool) returns (ran: bool, ok: bool)
      modifies this
      ensures ran <==> old(spent) + amount <= limit
      ensures ok <==> ran && signs
      ensures spent == if ok then old(spent) + amount else old(spent)
    {
      var next := spent + amount;
      if next > limit { return false, false; }
      if !signs { return true, false; }
      spent := next;
      return true, true;
    }
  }

  /** Sign on the bucket of the request's key: `ctxDone` is a caller that has already given up. */
  method Sign(keys: map<string, uint64>, bucket: SpendBucket, r: Request, ctxDone: bool, signs: bool) returns (ok: bool)
    modifies bucket
    ensures ok <==>
        !ctxDone && Validate(keys, r).Charge? && old(bucket.spent) + Validate(keys, r).amount <= bucket.limit && signs
    ensures bucket.spent == if ok then old(bucket.spent) + Validate(keys, r).amount else old(bucket.spent)
    ensures bucket.spent ==
        Signed(keys, r.key, bucket.limit, Ledger(old(bucket.spent), []), Attempt(r, signs && !ctxDone)).spent
  {
    if ctxDone { return false; }
    var v := Validate(keys, r);
    if !v.Charge? { return false; }
    var _, done := bucket.Charge(v.amount, signs);
    return done;
  }

  /** One call of Sign: what was asked, and whether the key's signing step succeeds. */
  datatype Attempt = Attempt(r: Request, signs: bool)

  datatype Ledger = Ledger(spent: int, signed: seq<Request>)

  /** Sign: validate, then charge the bucket of the request's key; `l` is the state of the bucket of `key`. */
  function Signed(keys: map<string, uint64>, key: string, limit: int, l: Ledger, a: Attempt): Ledger {
    var v := Validate(keys, a.r);
    if a.r.key == key && v.Charge? && l.spent + v.amount <= limit && a.signs
        then Ledger(l.spent + v.amount, l.signed + [a.r]) else l
  }

  function SignAll(keys: map<string, uint64>, key: string, limit: int, attempts: seq<Attempt>): Ledger {
    if attempts == [] then Ledger(0, [])
    else Signed(keys, key, limit, SignAll(keys, key, limit, attempts[..|attempts| - 1]), attempts[|attempts| - 1])
  }

  /** What the signed transactions move, read off the transactions themselves. */
  function Moved(r: Request): int {
    if r.data == [] then (if r.value.Some? then r.value.value else 0)
    else if |r.data| == 68 then Number(r.data[36..68]) else 0
  }

  function TotalMoved(signed: seq<Request>): int {
    if signed == [] then 0 else TotalMoved(signed[..|signed| - 1]) + Moved(signed[|signed| - 1])
  }

  /** After any sequence of signs, the next is signed exactly when what was moved and what it moves fit the limit. */
  lemma SignedIff(keys: map<string, uint64>, key: string, limit: int, attempts: seq<Attempt>, a: Attempt)
    requires limit >= 0
    ensures var before, after := SignAll(keys, key, limit, attempts).signed,
        SignAll(keys, key, limit, attempts + [a]).signed;
      after == if a.r.key == key && a.signs && Sound(keys, a.r) && Pays(a.r) && TotalMoved(before) + Moved(a.r) <= limit
               then before + [a.r] else before
  {
    SpentIsWhatMoved(keys, key, limit, attempts);
    assert (attempts + [a])[..|attempts|] == attempts;
    var v := Validate(keys, a.r);
    if v.Charge? { ChargedIff(keys, a.r, v.amount); }
    if Pays(a.r) { ChargedIff(keys, a.r, Moved(a.r)); }
    if |a.r.data| == 68 {
      assert a.r.data[36..] == a.r.data[36..68];
      BigEndianOfNumber(a.r.data[36..68]);
    }
  }

  /** A transfer of the coin, or a call of a token's transfer. */
  predicate Pays(r: Request) { PaysNative(r, Moved(r)) || PaysToken(r, Moved(r)) }

  /**
   * Over any sequence of signs on a key, `spent` is what the signed transactions move, and it never exceeds the limit.
   */
  lemma {:induction false} SpentIsWhatMoved(keys: map<string, uint64>, key: string, limit: int, attempts: seq<Attempt>)
    requires limit >= 0
    ensures var l := SignAll(keys, key, limit, attempts);
      && l.spent == TotalMoved(l.signed) && 0 <= l.spent <= limit
      && forall i :: 0 <= i < |l.signed| ==>
          l.signed[i].key == key && Validate(keys, l.signed[i]) == Charge(Moved(l.signed[i]))
  {
    if attempts != [] {
      var before, a := SignAll(keys, key, limit, attempts[..|attempts| - 1]), attempts[|attempts| - 1];
      SpentIsWhatMoved(keys, key, limit, attempts[..|attempts| - 1]);
      var l := Signed(keys, key, limit, before, a);
      if l != before {
        ChargeFixesTheTransfer(keys, a.r);
        assert l.signed[..|before.signed|] == before.signed;
      }
    }
  }
}
