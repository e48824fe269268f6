/** The length-delimited record scanner that guards an import: `validate_frames`.
    A file is framed when it is a concatenation of records, each a base-128 varint
    length followed by that many payload bytes. */
module Frames {
  import opened Bits
  import opened Prelude

  const MAX_HEADER: nat := 10

  // ---- the record grammar, stated without the scanner --------------------------

  /** The continuation bit is set. */
  predicate More(b: byte) {
    b >= 128
  }

  function Pow128(k: nat): (p: nat)
    ensures p > 0
  {
    if k == 0 then 1 else 128 * Pow128(k - 1)
  }

  /** Value of a header, least significant seven-bit group first. */
  function Base128(h: Bytes): nat {
    if h == [] then 0 else h[0] % 128 + 128 * Base128(h[1..])
  }

  predicate AllMore(h: Bytes) {
    forall i :: 0 <= i < |h| ==> More(h[i])
  }

  predicate IsHeader(h: Bytes) {
    && 1 <= |h| <= MAX_HEADER
    && (forall i :: 0 <= i < |h| - 1 ==> More(h[i]))
    && !More(h[|h| - 1])
    && Base128(h) < U64_LIMIT
  }

  datatype Record = Record(header: Bytes, payload: Bytes)

  predicate IsRecord(r: Record) {
    IsHeader(r.header) && |r.payload| == Base128(r.header)
  }

  predicate AllRecords(rs: seq<Record>) {
    forall i :: 0 <= i < |rs| ==> IsRecord(rs[i])
  }

  function Flatten(rs: seq<Record>): Bytes {
    if rs == [] then [] else rs[0].header + (rs[0].payload + Flatten(rs[1..]))
  }

  ghost predicate Framed(file: Bytes) {
    exists rs :: AllRecords(rs) && Flatten(rs) == file
  }

  // ---- the three ways a file can fail ------------------------------------------

  datatype Reason = TruncatedVarint | OverflowingVarint | PayloadTooLong
  datatype Verdict = Accepted | Rejected(reason: Reason)

  ghost predicate Overlong(rest: Bytes, k: nat) {
    k <= |rest| && IsHeader(rest[..k]) && Base128(rest[..k]) > |rest| - k
  }

  /** No record can be read from the nonempty `rest`, for exactly this reason. */
  ghost predicate Stuck(rest: Bytes, reason: Reason) {
    match reason
    case TruncatedVarint => 1 <= |rest| < MAX_HEADER && AllMore(rest)
    case OverflowingVarint => |rest| >= MAX_HEADER && AllMore(rest[..9]) && rest[9] > 1
    case PayloadTooLong => exists k :: Overlong(rest, k)
  }

  /** Whole records up to some point, then a tail on which the scan is stuck. */
  ghost predicate FailsAfter(file: Bytes, rs: seq<Record>, rest: Bytes, reason: Reason) {
    AllRecords(rs) && file == Flatten(rs) + rest && Stuck(rest, reason)
  }

  ghost predicate Warrants(file: Bytes, v: Verdict) {
    match v
    case Accepted => Framed(file)
    case Rejected(reason) => exists rs, rest :: FailsAfter(file, rs, rest, reason)
  }

  // ---- arithmetic of the accumulator -------------------------------------------

  lemma {:induction false} Pow128IsPow2(k: nat)
    ensures Pow128(k) == Pow2(7 * k)
  {
    if k > 0 {
      Pow128IsPow2(k - 1);
      var s := 7 * (k - 1);
      assert Pow2(s + 2) == 4 * Pow2(s);
      assert Pow2(s + 4) == 4 * Pow2(s + 2);
      assert Pow2(s + 6) == 4 * Pow2(s + 4);
    }
  }

  lemma NinthPower()
    ensures 2 * Pow128(9) == U64_LIMIT
  {
    assert Pow128(2) == 128 * Pow128(1);
    assert Pow128(4) == 128 * Pow128(3);
    assert Pow128(6) == 128 * Pow128(5);
    assert Pow128(8) == 128 * Pow128(7);
  }

  lemma {:induction false} Pow128Monotone(a: nat, b: nat)
    requires a <= b
    ensures Pow128(a) <= Pow128(b)
  {
    if a < b {
      Pow128Monotone(a, b - 1);
    }
  }

  /** The masks of the scanner pick the value bits and the continuation bit. */
  lemma Masks(b: byte)
    ensures And(b, 127) == b % 128
    ensures And(b, 128) == 0 <==> !More(b)
  {
    assert Pow2(3) == 8 && Pow2(5) == 4 * Pow2(3) && Pow2(7) == 4 * Pow2(5) && Pow2(8) == 2 * Pow2(7);
    AndLowMask(b, 7);
    AndTopBit(b, 7);
  }

  /** One step of the accumulator: the bits or-ed in at position 7k are exactly the base-128 digit
      of weight 128^k, and none of them is shifted out of the 64-bit word. */
  lemma AccumulateIsAddition(acc: nat, x: nat, k: nat)
    requires k <= 9 && x < 128 && (k == 9 ==> x <= 1) && acc < Pow128(k)
    ensures Or(acc, Shl64(x, 7 * k)) == acc + Pow128(k) * x < U64_LIMIT
    ensures k < 9 ==> acc + Pow128(k) * x < Pow128(k + 1)
  {
    hide Or, Pow2;
    Pow128IsPow2(k);
    DigitFits(k, x);
    calc {
      Shl64(x, 7 * k);
      x * Pow2(7 * k) % U64_LIMIT;
      Pow128(k) * x;
    }
    OrAboveIsAddition(acc, x, 7 * k);
    SumFits(acc, x, k);
  }

  lemma SumFits(acc: nat, x: nat, k: nat)
    requires k <= 9 && x < 128 && (k == 9 ==> x <= 1) && acc < Pow128(k)
    ensures acc + Pow128(k) * x < U64_LIMIT
    ensures k < 9 ==> acc + Pow128(k) * x < Pow128(k + 1)
  {
    var p := Pow128(k);
    MulMonotone(p, x + 1, if k < 9 then 128 else 2);
    assert p * (x + 1) == p * x + p;
    NinthPower();
    Pow128Monotone(if k < 9 then k + 1 else 9, 9);
  }

  lemma DigitFits(k: nat, x: nat)
    requires k <= 9 && x < 128 && (k == 9 ==> x <= 1)
    ensures Pow128(k) * x < U64_LIMIT
  {
    NinthPower();
    if k < 9 {
      MulMonotone(Pow128(k), x, 128);
      Pow128Monotone(k + 1, 9);
    }
  }

  /** A header's value grows by one digit when a byte is appended. */
  lemma {:induction false} Base128Append(h: Bytes, b: byte)
    ensures Base128(h + [b]) == Base128(h) + Pow128(|h|) * (b % 128)
  {
    if h == [] {
      assert h + [b] == [b];
      assert [b][1..] == [];
    } else {
      assert (h + [b])[1..] == h[1..] + [b];
      Base128Append(h[1..], b);
      var p, d := Pow128(|h| - 1), b % 128;
      assert 128 * (p * d) == (128 * p) * d;
    }
  }

  lemma {:induction false} Base128Bound(h: Bytes)
    ensures Base128(h) < Pow128(|h|)
  {
    if h != [] {
      Base128Bound(h[1..]);
    }
  }

  /** The scanner's test on the tenth byte is exactly the 64-bit bound. */
  lemma TenthByte(h: Bytes, b: byte)
    requires |h| == 9 && !More(b)
    ensures Base128(h + [b]) < U64_LIMIT <==> b <= 1
  {
    Base128Append(h, b);
    Base128Bound(h);
    NinthPower();
    assert b >= 2 ==> Pow128(9) * b >= Pow128(9) * 2;
  }

  // ---- unique readability -------------------------------------------------------

  /** The first byte without continuation bit ends a header, whatever follows. */
  lemma HeaderEndsAtFirst(g: Bytes, h: Bytes, x: Bytes, y: Bytes)
    requires IsHeader(g) && IsHeader(h) && g + x == h + y
    ensures |g| >= |h|
  {
    assert forall i :: 0 <= i < |g| ==> (g + x)[i] == g[i];
    assert forall i :: 0 <= i < |h| ==> (h + y)[i] == h[i];
  }

  lemma HeaderPrefixUnique(g: Bytes, h: Bytes, x: Bytes, y: Bytes)
    requires IsHeader(g) && IsHeader(h) && g + x == h + y
    ensures g == h && x == y
  {
    HeaderEndsAtFirst(g, h, x, y);
    HeaderEndsAtFirst(h, g, y, x);
    assert g == (g + x)[..|g|] && h == (h + y)[..|h|];
    assert x == (g + x)[|g|..] && y == (h + y)[|h|..];
  }

  lemma RecordPrefixUnique(r: Record, s: Record, x: Bytes, y: Bytes)
    requires IsRecord(r) && IsRecord(s)
    requires r.header + (r.payload + x) == s.header + (s.payload + y)
    ensures r == s && x == y
  {
    HeaderPrefixUnique(r.header, s.header, r.payload + x, s.payload + y);
    assert r.payload == (r.payload + x)[..|r.payload|];
    assert s.payload == (s.payload + y)[..|s.payload|];
    assert x == (r.payload + x)[|r.payload|..];
    assert y == (s.payload + y)[|s.payload|..];
  }

  /** A framed file splits into records in one way only. */
  lemma {:induction false} SplitUnique(rs: seq<Record>, ts: seq<Record>)
    requires AllRecords(rs) && AllRecords(ts) && Flatten(rs) == Flatten(ts)
    ensures rs == ts
  {
    if rs != [] && ts != [] {
      RecordPrefixUnique(rs[0], ts[0], Flatten(rs[1..]), Flatten(ts[1..]));
      SplitUnique(rs[1..], ts[1..]);
      assert rs == [rs[0]] + rs[1..] && ts == [ts[0]] + ts[1..];
    }
  }

  /** A tail that starts with a record is not stuck for any reason. */
  lemma RecordUnsticks(rest: Bytes, r: Record, x: Bytes)
    requires IsRecord(r) && rest == r.header + (r.payload + x)
    ensures forall reason :: !Stuck(rest, reason)
  {
    var h := r.header;
    assert forall i :: 0 <= i < |h| ==> rest[i] == h[i];
    assert !Stuck(rest, TruncatedVarint);
    if |h| == 10 {
      assert h == h[..9] + [h[9]];
      TenthByte(h[..9], h[9]);
    }
    assert |rest| >= 9 ==> forall i :: 0 <= i < 9 ==> rest[..9][i] == rest[i];
    assert !Stuck(rest, OverflowingVarint);
    forall k | 0 <= k <= |rest| && IsHeader(rest[..k])
      ensures Base128(rest[..k]) <= |rest| - k
    {
      assert rest == rest[..k] + rest[k..];
      HeaderPrefixUnique(rest[..k], h, rest[k..], r.payload + x);
    }
    assert !Stuck(rest, PayloadTooLong);
  }

  lemma FlattenFront(rs: seq<Record>, x: Bytes)
    requires rs != []
    ensures Flatten(rs) + x == rs[0].header + (rs[0].payload + (Flatten(rs[1..]) + x))
  {
  }

  /** Two readings of one file that can each go no further stop at the same place. */
  lemma {:induction false} StopsOnce(rs: seq<Record>, rest: Bytes, reason: Reason,
                                     ts: seq<Record>, tail: Bytes, other: Reason)
    requires AllRecords(rs) && AllRecords(ts) && Stuck(rest, reason)
    requires Flatten(rs) + rest == Flatten(ts) + tail
    requires tail == [] || Stuck(tail, other)
    ensures rs == ts && rest == tail
  {
    assert rs == [] ==> Flatten(rs) + rest == rest;
    assert ts == [] ==> Flatten(ts) + tail == tail;
    if rs == [] && ts != [] {
      FlattenFront(ts, tail);
      RecordUnsticks(rest, ts[0], Flatten(ts[1..]) + tail);
    } else if rs != [] && ts == [] {
      FlattenFront(rs, rest);
      RecordUnsticks(tail, rs[0], Flatten(rs[1..]) + rest);
    } else if rs != [] {
      FlattenFront(rs, rest);
      FlattenFront(ts, tail);
      RecordPrefixUnique(rs[0], ts[0], Flatten(rs[1..]) + rest, Flatten(ts[1..]) + tail);
      StopsOnce(rs[1..], rest, reason, ts[1..], tail, other);
      assert rs == [rs[0]] + rs[1..] && ts == [ts[0]] + ts[1..];
    }
  }

  lemma StuckOnce(rest: Bytes, a: Reason, b: Reason)
    requires Stuck(rest, a) && Stuck(rest, b)
    ensures a == b
  {
    if a == PayloadTooLong || b == PayloadTooLong {
      assert Stuck(rest, PayloadTooLong);
      var k: nat :| Overlong(rest, k);
      assert rest[..k][k - 1] == rest[k - 1];
      if k == 10 {
        assert rest[..k] == rest[..9] + [rest[9]];
        TenthByte(rest[..9], rest[9]);
      } else if |rest| >= 10 {
        assert rest[..9][k - 1] == rest[k - 1];
      }
    }
  }

  lemma RejectedIsNotFramed(file: Bytes, reason: Reason)
    requires Warrants(file, Rejected(reason))
    ensures !Framed(file)
  {
    var rs, rest :| FailsAfter(file, rs, rest, reason);
    forall ts | AllRecords(ts)
      ensures Flatten(ts) != file
    {
      if Flatten(ts) == file {
        assert Flatten(ts) + [] == Flatten(ts);
        StopsOnce(rs, rest, reason, ts, [], reason);
      }
    }
  }

  /** The verdict on a file is determined: no file is both framed and rejected, and a rejected
      file is rejected for one reason. */
  lemma VerdictUnique(file: Bytes, v: Verdict, w: Verdict)
    requires Warrants(file, v) && Warrants(file, w)
    ensures v == w
  {
    if v.Rejected? { RejectedIsNotFramed(file, v.reason); }
    if w.Rejected? { RejectedIsNotFramed(file, w.reason); }
    if v.Rejected? && w.Rejected? {
      var rs, rest :| FailsAfter(file, rs, rest, v.reason);
      var ts, tail :| FailsAfter(file, ts, tail, w.reason);
      StopsOnce(rs, rest, v.reason, ts, tail, w.reason);
      StuckOnce(rest, v.reason, w.reason);
    }
  }

  // ---- the scanner --------------------------------------------------------------

  lemma {:induction false} FlattenAppend(rs: seq<Record>, r: Record)
    ensures Flatten(rs + [r]) == Flatten(rs) + (r.header + r.payload)
  {
    if rs == [] {
      assert rs + [r] == [r];
      assert Flatten([r][1..]) == [];
    } else {
      assert (rs + [r])[1..] == rs[1..] + [r];
      FlattenAppend(rs[1..], r);
    }
  }

  /** The inner loop: reads one varint at `start`. */
  method ReadVarint(file: Bytes, start: nat) returns (failure: Option<Reason>, used: nat, len: u64)
    requires start < |file| < U64_LIMIT
    ensures start <= used <= |file|
    ensures failure == None ==>
      start < used && IsHeader(file[start..used]) && len == Base128(file[start..used])
    ensures failure.Some? ==>
      failure.value != PayloadTooLong && Stuck(file[start..], failure.value)
  {
    var n := |file|;
    var shift := 0;
    used, len := start, 0;
    NinthPower();
    while true
      invariant start <= used <= n
      invariant shift == 7 * (used - start) && used - start <= 9
      invariant AllMore(file[start..used])
      invariant len == Base128(file[start..used]) < Pow128(used - start)
      decreases n - used
    {
      ghost var h := file[start..used];
      ghost var k := |h|;
      if used >= n {
        assert file[start..] == h;
        return Some(TruncatedVarint), used, len;
      }
      var b := file[used];
      used := used + 1;
      assert file[start..used] == h + [b];
      if shift >= 64 || (shift == 63 && b > 1) {
        assert file[start..][..9] == h && file[start..][9] == b;
        return Some(OverflowingVarint), used, len;
      }
      Masks(b);
      AccumulateIsAddition(len, b % 128, k);
      Base128Append(h, b);
      len := Or(len, Shl64(And(b, 127), shift));
      if And(b, 128) == 0 {
        return None, used, len;
      }
      shift := shift + 7;
    }
  }

  /** `validate_frames` over the bytes of the staged file: accepts exactly the framed files. */
  method ValidateFrames(file: Bytes) returns (v: Verdict)
    requires |file| < U64_LIMIT
    ensures Warrants(file, v)
    ensures v == Accepted <==> Framed(file)
  {
    var n := |file|;
    var used := 0;
    ghost var rs: seq<Record> := [];
    while used < n
      invariant 0 <= used <= n
      invariant AllRecords(rs) && Flatten(rs) == file[..used]
    {
      ghost var start, rest := used, file[used..];
      assert file == file[..start] + rest;
      var failure, after, len := ReadVarint(file, used);
      used := after;
      if failure.Some? {
        v := Rejected(failure.value);
        assert FailsAfter(file, rs, rest, failure.value);
        RejectedIsNotFramed(file, failure.value);
        return;
      }
      ghost var header := file[start..used];
      if len > n - used {
        v := Rejected(PayloadTooLong);
        assert rest[..used - start] == header;
        assert Overlong(rest, used - start);
        assert FailsAfter(file, rs, rest, PayloadTooLong);
        RejectedIsNotFramed(file, PayloadTooLong);
        return;
      }
      ghost var r := Record(header, file[used..used + len]);
      FlattenAppend(rs, r);
      rs := rs + [r];
      used := used + len;
      assert file[..used] == file[..start] + (r.header + r.payload);
    }
    assert file[..used] == file;
    v := Accepted;
  }

  // ---- the reference encoder ----------------------------------------------------

  function EncodeVarint(n: nat): (e: Bytes)
    ensures |e| >= 1
  {
    if n < 128 then [n] else [n % 128 + 128] + EncodeVarint(n / 128)
  }

  function EncodeAll(payloads: seq<Bytes>): Bytes {
    if payloads == [] then [] else EncodeVarint(|payloads[0]|) + (payloads[0] + EncodeAll(payloads[1..]))
  }

  lemma {:induction false} VarintValue(n: nat)
    ensures Base128(EncodeVarint(n)) == n
  {
    var e := EncodeVarint(n);
    if n < 128 {
      assert Base128(e[1..]) == 0;
    } else {
      VarintValue(n / 128);
      assert e[1..] == EncodeVarint(n / 128);
      assert e[0] % 128 == n % 128;
    }
  }

  lemma {:induction false} VarintShape(n: nat)
    ensures var e := EncodeVarint(n); !More(e[|e| - 1]) && forall i :: 0 <= i < |e| - 1 ==> More(e[i])
  {
    if n >= 128 {
      VarintShape(n / 128);
      var e, t := EncodeVarint(n), EncodeVarint(n / 128);
      assert |e| == |t| + 1 && forall i :: 0 < i < |e| ==> e[i] == t[i - 1];
    }
  }

  lemma {:induction false} EncodingLength(n: nat, k: nat)
    requires k >= 1 && n < Pow128(k)
    ensures |EncodeVarint(n)| <= k
  {
    if n >= 128 {
      assert Pow128(k) == 128 * Pow128(k - 1) && Pow128(0) == 1;
      EncodingLength(n / 128, k - 1);
    }
  }

  lemma EncodedHeader(n: nat)
    requires n < U64_LIMIT
    ensures IsHeader(EncodeVarint(n)) && Base128(EncodeVarint(n)) == n
  {
    VarintValue(n);
    VarintShape(n);
    NinthPower();
    EncodingLength(n, 10);
  }

  /** The records of the reference encoding. */
  function EncodedRecords(payloads: seq<Bytes>): (rs: seq<Record>)
    ensures |rs| == |payloads|
    ensures forall i :: 0 <= i < |rs| ==> rs[i] == Record(EncodeVarint(|payloads[i]|), payloads[i])
  {
    seq(|payloads|, i requires 0 <= i < |payloads| => Record(EncodeVarint(|payloads[i]|), payloads[i]))
  }

  lemma {:induction false} EncodeAllIsFlatten(payloads: seq<Bytes>)
    ensures Flatten(EncodedRecords(payloads)) == EncodeAll(payloads)
  {
    if payloads != [] {
      EncodeAllIsFlatten(payloads[1..]);
      assert EncodedRecords(payloads)[1..] == EncodedRecords(payloads[1..]);
    }
  }

  /** Every list of payloads survives encoding: the encoded file is framed, and however it is split
      into records, the payloads read back are the ones written. */
  lemma EncodeRoundTrip(payloads: seq<Bytes>, ts: seq<Record>)
    requires forall i :: 0 <= i < |payloads| ==> |payloads[i]| < U64_LIMIT
    ensures Framed(EncodeAll(payloads))
    ensures AllRecords(ts) && Flatten(ts) == EncodeAll(payloads) ==> ts == EncodedRecords(payloads)
  {
    var rs := EncodedRecords(payloads);
    forall i | 0 <= i < |rs|
      ensures IsRecord(rs[i])
    {
      EncodedHeader(|payloads[i]|);
    }
    EncodeAllIsFlatten(payloads);
    if AllRecords(ts) && Flatten(ts) == EncodeAll(payloads) {
      SplitUnique(ts, rs);
    }
  }
}
