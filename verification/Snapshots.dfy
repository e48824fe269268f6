/** What an export or import promises, told of every outcome from the files and the driver calls alone; and
    what the text a schema is accepted as is. */
module Snapshots {
  import opened Bits
  import opened Prelude
  import opened FileSystem
  import opened Migration
  import Frames

  // ---- export ---------------------------------------------------------------------------------------

  /** A success leaves exactly the two destinations, with the bytes the driver staged, and its manifest counts
      and digests those bytes. A failure leaves no more than the schema destination, unless it is the failure
      to open the staged data, which also leaves an empty data destination. */
  lemma ExportTells<S>(ours: map<Path, FileBytes>, r: Result<Manifest, ExportError>, h: Hasher<S>, schema: Path,
                       data: Path, staged: DriverExport)
    requires ExportLeaves(ours, r, h, schema, data, staged)
    ensures r.Ok? ==>
      && staged.ok && staged.schema.Some? && staged.data.Some? && ours.Keys == {schema, data}
      && ours[schema] == staged.schema.value && ours[data] == staged.data.value
      && r.value.schemaSize == |ours[schema]| && r.value.dataSize == |ours[data]|
      && r.value.schemaDigest == h.finish(Update(h, h.init, ours[schema]))
      && r.value.dataDigest == h.finish(Update(h, h.init, ours[data]))
    ensures r.Err? && !r.error.FirstPublication? && !r.error.SecondPublication? ==> ours == map[]
    ensures r.Err? && r.error.FirstPublication? ==>
      ours == if r.error.cause.CannotOpenSource? then map[schema := []] else map[]
    ensures r.Err? && r.error.SecondPublication? ==>
      && schema in ours && ours.Keys <= {schema, data}
      && (data != schema ==> staged.schema.Some? && ours[schema] == staged.schema.value)
      && (data != schema && data in ours ==> r.error.cause.CannotOpenSource? && ours[data] == [])
  {
  }

  /** Publishing touches no file but the two it is about; the destination never gets other bytes than the
      beginning of the staged ones, and gets all of them before the staged file is given up. */
  lemma PublishTells(before: map<Path, FileBytes>, after: map<Path, FileBytes>, from: Path, to: Path,
                     r: Option<PublishError>)
    requires PublishLeaves(before, after, from, to, r) && from != to
    ensures forall p :: p != from && p != to ==> Lookup(after, p) == Lookup(before, p)
    ensures from in after <==> from in before && r.Some?
    ensures from in before && r.Some? ==> after[from] == before[from]
    ensures to in before ==> r.Some? && r.value.CannotCreate? && after == before
    ensures to in after && to !in before ==> after[to] == [] || (from in before && after[to] <= before[from])
    ensures r == None ==> to in after && after[to] == before[from]
  {
  }

  /** With nobody in the way an export is refused for the first reason that applies, and only for one. */
  lemma ExportDecides(theirs: map<Path, FileBytes>, schema: Path, data: Path, staged: DriverExport,
                      schemaPathOk: bool, dataPathOk: bool, schemaFree: Option<nat>, dataFree: Option<nat>,
                      minFree: nat)
    ensures var can := CanExport(theirs, schema, data, staged, schemaPathOk, dataPathOk, schemaFree, dataFree, minFree);
      var why := ExportRefusal(theirs, schema, data, staged, schemaPathOk, dataPathOk, schemaFree, dataFree, minFree);
      var pathsOk := schemaPathOk && dataPathOk && schema != data && {schema, data} !! theirs.Keys;
      var roomy := !(schemaFree.Some? && schemaFree.value < minFree) && !(dataFree.Some? && dataFree.value < minFree);
      && (can <==> pathsOk && roomy && staged.ok && staged.schema.Some? && staged.data.Some?)
      && (!can ==>
            && (why == BadDestination <==> !pathsOk)
            && (why == ExportHeadroom <==> pathsOk && !roomy)
            && (why == ExportBackend <==> pathsOk && roomy && !staged.ok)
            && (why == ExportHash <==> pathsOk && roomy && staged.ok && (staged.schema.None? || staged.data.None?)))
  {
  }

  // ---- import ---------------------------------------------------------------------------------------

  predicate Imports(call: BackendCall) {
    call.ImportCall?
  }

  /** The driver is asked to import at most once, straight after it has said that the database is not there,
      and gets a schema that is UTF-8 and within the cap and data framed to the end, both copied from the
      sources. The result is a success iff that call was made and answered so, and the manifest counts and
      digests the bytes the driver got. */
  lemma ImportTells<S>(calls: seq<BackendCall>, r: Result<Manifest, ImportError>, h: Hasher<S>, cap: nat,
                       database: string, disk: Disk, from: nat, to: nat, schema: Path, data: Path)
    requires ImportCalls(calls, r, h, cap, database, disk, from, to, schema, data)
    ensures forall i, j :: 0 <= i < |calls| && 0 <= j < |calls| && Imports(calls[i]) && Imports(calls[j]) ==> i == j
    ensures forall i :: 0 <= i < |calls| ==> calls[i].database == database
    ensures forall i :: 0 <= i < |calls| && Imports(calls[i]) ==>
      && i == 1 && calls[0] == ExistsCall(database, Some(false))
      && |calls[i].schema| <= cap && Utf8(calls[i].schema) && Frames.Framed(calls[i].data)
      && disk.Had(schema, from, to, calls[i].schema) && disk.Had(data, from, to, calls[i].data)
    ensures r.Ok? <==> |calls| == 2 && Imports(calls[1]) && calls[1].ok
    ensures r.Ok? ==>
      && r.value.schemaSize == |calls[1].schema| && r.value.dataSize == |calls[1].data|
      && r.value.schemaDigest == h.finish(Update(h, h.init, calls[1].schema))
      && r.value.dataDigest == h.finish(Update(h, h.init, calls[1].data))
    ensures r.Err? && r.error.ImportFailed? <==> |calls| == 3
  {
    hide Utf8, Frames.Framed, Disk.Had, Update;
  }

  // ---- text -------------------------------------------------------------------------------------------

  /** A Unicode scalar value: a code point that is no surrogate. */
  type Scalar = c: nat | c < 0x11_0000 && !(0xD800 <= c < 0xE000) witness 0

  /** Its UTF-8 form: six bits to a continuation byte, and in as few bytes as will do. */
  function EncodeScalar(c: Scalar): Bytes {
    if c < 0x80 then [c]
    else if c < 0x800 then [0xC0 + c / 64, Continued(c)]
    else if c < 0x1_0000 then [0xE0 + c / 64 / 64, Continued(c / 64), Continued(c)]
    else [0xF0 + c / 64 / 64 / 64, Continued(c / 64 / 64), Continued(c / 64), Continued(c)]
  }

  function Continued(n: nat): byte {
    0x80 + n % 64
  }

  /** `high` and then the six bits of a continuation byte. */
  function Append(high: int, b: byte): int {
    high * 64 + b as int - 0x80
  }

  lemma Appended(n: nat, high: nat, b: byte)
    ensures Append(n / 64, Continued(n)) == n
    ensures Continuation(b) ==>
      var m := Append(high, b);
      m >= 0 && m / 64 == high && Continued(m) == b
  {
  }

  function Encode(text: seq<Scalar>): Bytes {
    if text == [] then [] else EncodeScalar(text[0]) + Encode(text[1..])
  }

  /** The scalar value at the start of accepted bytes. */
  function DecodeScalar(b: Bytes): int
    requires ScalarLength(b) > 0
  {
    match ScalarLength(b)
    case 1 => b[0] as int
    case 2 => Append(b[0] as int - 0xC0, b[1])
    case 3 => Append(Append(b[0] as int - 0xE0, b[1]), b[2])
    case _ => Append(Append(Append(b[0] as int - 0xF0, b[1]), b[2]), b[3])
  }

  lemma ScalarReadBack(c: Scalar, rest: Bytes)
    ensures var b := EncodeScalar(c) + rest;
      ScalarLength(b) == |EncodeScalar(c)| && DecodeScalar(b) == c
  {
    var e, b := EncodeScalar(c), EncodeScalar(c) + rest;
    assert forall i :: 0 <= i < |e| ==> b[i] == e[i];
    Appended(c, 0, 0);
    Appended(c / 64, 0, 0);
    Appended(c / 64 / 64, 0, 0);
    hide Append;
  }

  lemma ScalarWrittenBack(b: Bytes)
    requires ScalarLength(b) > 0
    ensures var c := DecodeScalar(b);
      0 <= c < 0x11_0000 && !(0xD800 <= c < 0xE000) && EncodeScalar(c) == b[..ScalarLength(b)]
  {
    match ScalarLength(b) {
      case 1 =>
      case 2 => WrittenBack2(b);
      case 3 => WrittenBack3(b);
      case _ => WrittenBack4(b);
    }
  }

  lemma WrittenBack2(b: Bytes)
    requires ScalarLength(b) == 2
    ensures var c := DecodeScalar(b); 0x80 <= c < 0x800 && EncodeScalar(c) == b[..2]
  {
    Appended(0, b[0] as int - 0xC0, b[1]);
    assert 0x80 <= DecodeScalar(b) < 0x800;
    hide Append, Continued;
  }

  lemma WrittenBack3(b: Bytes)
    requires ScalarLength(b) == 3
    ensures var c := DecodeScalar(b); 0x800 <= c < 0x1_0000 && !(0xD800 <= c < 0xE000) && EncodeScalar(c) == b[..3]
  {
    var h := b[0] as int - 0xE0;
    Appended(0, h, b[1]);
    Appended(0, Append(h, b[1]), b[2]);
    assert 0x800 <= DecodeScalar(b) < 0x1_0000 && !(0xD800 <= DecodeScalar(b) < 0xE000);
    hide Append, Continued;
  }

  /** The first two of four bytes are those of a value above 0xFFFF and below 0x110000. */
  lemma FourBytes(b: Bytes)
    requires ScalarLength(b) == 4
    ensures |b| >= 4 && 0xF0 <= b[0] && Continuation(b[1]) && Continuation(b[2]) && Continuation(b[3])
    ensures 0x10 <= Append(b[0] as int - 0xF0, b[1]) < 0x110
  {
  }

  lemma AppendedBounds(high: int, b: byte, low: int, top: int)
    requires low <= high < top && Continuation(b)
    ensures low * 64 <= Append(high, b) < top * 64
  {
  }

  lemma FourBytesOf(c: Scalar, b: Bytes)
    requires c >= 0x1_0000 && |b| == 4 && b[0] as int == 0xF0 + c / 64 / 64 / 64
    requires b[1] == Continued(c / 64 / 64) && b[2] == Continued(c / 64) && b[3] == Continued(c)
    ensures EncodeScalar(c) == b
  {
    hide Continued;
  }

  lemma WrittenBack4(b: Bytes)
    requires ScalarLength(b) == 4
    ensures var c := DecodeScalar(b); 0x1_0000 <= c < 0x11_0000 && EncodeScalar(c) == b[..4]
  {
    FourBytes(b);
    var h := b[0] as int - 0xF0;
    var i := Append(h, b[1]);
    var j := Append(i, b[2]);
    var c := Append(j, b[3]);
    assert DecodeScalar(b) == c;
    AppendedBounds(i, b[2], 0x10, 0x110);
    AppendedBounds(j, b[3], 0x400, 0x4400);
    hide ScalarLength, DecodeScalar, Append, Continued, Continuation, EncodeScalar;
    Appended(0, h, b[1]);
    Appended(0, i, b[2]);
    Appended(0, j, b[3]);
    FourBytesOf(c, b[..4]);
  }

  /** The text whose UTF-8 form these bytes are. */
  function Decode(b: Bytes): seq<Scalar>
    requires Utf8(b)
    decreases |b|
  {
    if b == [] then []
    else
      ScalarWrittenBack(b);
      [DecodeScalar(b)] + Decode(b[ScalarLength(b)..])
  }

  /** A schema is accepted as text iff it is the UTF-8 form of some text, and only of that. */
  lemma {:induction false} AcceptedIsEncoded(b: Bytes)
    requires Utf8(b)
    ensures Encode(Decode(b)) == b
    decreases |b|
  {
    hide ScalarLength, EncodeScalar, DecodeScalar;
    if b != [] {
      var n := ScalarLength(b);
      ScalarWrittenBack(b);
      var rest := b[n..];
      assert Decode(b) == [DecodeScalar(b)] + Decode(rest);
      AcceptedIsEncoded(rest);
      hide Utf8, Decode;
      EncodeMore(DecodeScalar(b), Decode(rest));
      assert b == b[..n] + rest;
    }
  }

  lemma EncodeMore(c: Scalar, text: seq<Scalar>)
    ensures Encode([c] + text) == EncodeScalar(c) + Encode(text)
  {
    hide EncodeScalar;
    assert ([c] + text)[1..] == text;
  }

  lemma {:induction false} EncodedIsAccepted(text: seq<Scalar>)
    ensures Utf8(Encode(text)) && Decode(Encode(text)) == text
  {
    if text != [] {
      var b, n := Encode(text), |EncodeScalar(text[0])|;
      ScalarReadBack(text[0], Encode(text[1..]));
      EncodedIsAccepted(text[1..]);
      assert b[n..] == Encode(text[1..]);
      assert text == [text[0]] + text[1..];
    }
  }
}
