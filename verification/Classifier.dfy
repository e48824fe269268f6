/** Error classes, and the classifier that maps a driver error to one of them. The class of a
    query error decides whether the session keeps its transaction. */
module Classifier {
  import opened Stack

  datatype ErrorClass =
    | SessionUnknown | SessionExpired | SchemaNotRead | TxAlreadyOpen | ConfirmationRequired
    | NoTxOpen | TxIsRead | WrongTxType | ParseError | TypeError | QueryFailed | WriteFailed
    | CommitFailed | ResultLimitExceeded | Timeout | UnknownDatabase | IdleTimeout
    | TransientConflict | UpstreamUnavailable | Unclassified
  {
    /** Whether a transaction remains open after this error. */
    predicate RetriableInSameTx() {
      || WrongTxType? || ParseError? || TypeError? || ResultLimitExceeded? || TxIsRead? || TxAlreadyOpen?
    }
  }

  /** What the driver can answer with, as far as classification is concerned. */
  datatype DriverError =
    | TransactionClosed
    | ConnectionFault
    | ServerStack(topCode: string, message: string)
    | OtherDriverError

  predicate Has(message: string, code: string) {
    Contains(message, "[" + code + "]")
  }

  predicate HasFamily(message: string, family: string) {
    Contains(message, "[" + family)
  }

  predicate HasAny(message: string, codes: seq<string>) {
    exists c :: c in codes && Has(message, c)
  }

  const WRITE_PIPELINE: seq<string> := ["WEX1", "PEX6", "QEX14"]
  const COMMIT_STAGE: seq<string> := ["DCT3", "TSV5", "HSR18", "SRV19"]
  const TX_GONE: seq<string> := ["TSV12", "TSV13"]
  const SCHEMA_ABORT: seq<string> := ["TSV10", "QEX3", "REX24"]
  const REPRESENTATION: seq<string> := ["REP27", "REP44", "FER7", "REP23", "QEX7"]
  const RECOVERABLE_CODES: seq<string> := ["TSV9", "TSV8", "TSV2", "TSV7"]
  const RECOVERABLE_FAMILIES: seq<string> := ["TQL", "INF", "QUA"]

  /** The condition chain of the classifier. `has` is the test for a whole code, `family` the test
      for a code family: substring tests on a message, or tests on a list of codes. */
  function Decide(topCode: string, has: string -> bool, family: string -> bool): ErrorClass {
    if has("WEX1") || has("PEX6") || has("QEX14") then WriteFailed
    else if has("DCT3") || has("TSV5") || has("HSR18") || has("SRV19") then CommitFailed
    else if has("TSV12") then IdleTimeout
    else if has("TSV13") then TransientConflict
    else if has("TSV9") || has("TSV8") then WrongTxType
    else if has("TSV2") then TxIsRead
    else if has("TSV7") then ParseError
    else if has("TSV10") || has("QEX3") || has("REX24") then WriteFailed
    else if has("REP27") || has("REP44") || has("FER7") || has("REP23") || has("QEX7") then QueryFailed
    else if family("TQL") then ParseError
    else if family("INF") || family("QUA") then TypeError
    else if family("CNT") || family("DVL") then WriteFailed
    else if topCode in {"TXN1", "TXN2"} then Timeout
    else if topCode == "SRV3" then UnknownDatabase
    else if topCode in {"AUT2", "HSR9"} then UpstreamUnavailable
    else Unclassified
  }

  function ClassifyTypedbError(topCode: string, message: string): ErrorClass {
    Decide(topCode, c => Has(message, c), f => HasFamily(message, f))
  }

  function ClassifyDriverError(e: DriverError): ErrorClass {
    match e
    case TransactionClosed => IdleTimeout
    case ConnectionFault => UpstreamUnavailable
    case ServerStack(top, message) => ClassifyTypedbError(top, message)
    case OtherDriverError => UpstreamUnavailable
  }

  // ---- the class depends only on which codes are in the stack -----------------------

  predicate Listed(codes: seq<string>, c: string) {
    c in codes
  }

  predicate FamilyListed(codes: seq<string>, family: string) {
    exists c :: c in codes && family <= c
  }

  /** The classifier as a function of an extracted code list. */
  function ClassOfCodes(topCode: string, codes: seq<string>): ErrorClass {
    Decide(topCode, c => Listed(codes, c), f => FamilyListed(codes, f))
  }

  /** Tests that agree on every code and family give the same class. */
  lemma DecideCongruence(topCode: string, has: string -> bool, family: string -> bool,
                         has': string -> bool, family': string -> bool)
    requires forall c :: IsCode(c) ==> has(c) == has'(c) && family(c) == family'(c)
    ensures Decide(topCode, has, family) == Decide(topCode, has', family')
  {
    MarkersAreCodes();
  }

  lemma MarkersAreCodes()
    ensures IsCode("WEX1") && IsCode("PEX6") && IsCode("QEX14")
    ensures IsCode("DCT3") && IsCode("TSV5") && IsCode("HSR18") && IsCode("SRV19")
    ensures IsCode("TSV12") && IsCode("TSV13") && IsCode("TSV9") && IsCode("TSV8") && IsCode("TSV2")
    ensures IsCode("TSV7") && IsCode("TSV10") && IsCode("QEX3") && IsCode("REX24")
    ensures IsCode("REP27") && IsCode("REP44") && IsCode("FER7") && IsCode("REP23") && IsCode("QEX7")
    ensures IsCode("TQL") && IsCode("INF") && IsCode("QUA") && IsCode("CNT") && IsCode("DVL")
  {
  }

  /** On a rendered stack the substring classifier is the classifier on the list `extract_codes`
      returns for that stack. */
  lemma ClassifierReadsCodes(topCode: string, ps: seq<Piece>)
    requires CodeStack(ps)
    ensures ClassifyTypedbError(topCode, Render(ps)) == ClassOfCodes(topCode, Codes(Render(ps)))
  {
    var m, cs := Render(ps), CodesOf(ps);
    forall c | IsCode(c)
      ensures Has(m, c) == Listed(cs, c) && HasFamily(m, c) == FamilyListed(cs, c)
    {
      MarkerIsMembership(ps, c);
      FamilyIsPrefix(ps, c);
    }
    DecideCongruence(topCode, c => Has(m, c), f => HasFamily(m, f), c => Listed(cs, c), f => FamilyListed(cs, f));
    StackMarkers(ps, "");
    ExtractionInvertsRendering(ps, "");
    assert m + "" == m;
  }

  /** The class does not depend on the order of the stack, on repetitions, or on its free text. */
  lemma OrderIrrelevant(topCode: string, ps: seq<Piece>, qs: seq<Piece>)
    requires CodeStack(ps) && CodeStack(qs)
    requires forall c :: c in Codes(Render(ps)) <==> c in Codes(Render(qs))
    ensures ClassifyTypedbError(topCode, Render(ps)) == ClassifyTypedbError(topCode, Render(qs))
  {
    ClassifierReadsCodes(topCode, ps);
    ClassifierReadsCodes(topCode, qs);
    var cs, ds := Codes(Render(ps)), Codes(Render(qs));
    DecideCongruence(topCode, c => Listed(cs, c), f => FamilyListed(cs, f),
                     c => Listed(ds, c), f => FamilyListed(ds, f));
  }

  // ---- when a transaction may be kept ------------------------------------------------

  predicate FatalMarker(message: string) {
    HasAny(message, WRITE_PIPELINE) || HasAny(message, COMMIT_STAGE) || HasAny(message, TX_GONE)
  }

  predicate AnyFamily(message: string, families: seq<string>) {
    exists f :: f in families && HasFamily(message, f)
  }

  predicate RecoverableMarker(message: string) {
    || HasAny(message, RECOVERABLE_CODES)
    || (AnyFamily(message, RECOVERABLE_FAMILIES) && !HasAny(message, SCHEMA_ABORT) && !HasAny(message, REPRESENTATION))
  }

  lemma FatalSpelledOut(m: string)
    ensures FatalMarker(m) <==>
      || Has(m, "WEX1") || Has(m, "PEX6") || Has(m, "QEX14")
      || Has(m, "DCT3") || Has(m, "TSV5") || Has(m, "HSR18") || Has(m, "SRV19")
      || Has(m, "TSV12") || Has(m, "TSV13")
  {
    hide Has;
    assert "WEX1" in WRITE_PIPELINE && "PEX6" in WRITE_PIPELINE && "QEX14" in WRITE_PIPELINE;
    assert "DCT3" in COMMIT_STAGE && "TSV5" in COMMIT_STAGE && "HSR18" in COMMIT_STAGE && "SRV19" in COMMIT_STAGE;
    assert "TSV12" in TX_GONE && "TSV13" in TX_GONE;
  }

  lemma RecoverableSpelledOut(m: string)
    ensures HasAny(m, RECOVERABLE_CODES) <==> Has(m, "TSV9") || Has(m, "TSV8") || Has(m, "TSV2") || Has(m, "TSV7")
    ensures HasAny(m, SCHEMA_ABORT) <==> Has(m, "TSV10") || Has(m, "QEX3") || Has(m, "REX24")
    ensures HasAny(m, REPRESENTATION) <==>
      Has(m, "REP27") || Has(m, "REP44") || Has(m, "FER7") || Has(m, "REP23") || Has(m, "QEX7")
    ensures AnyFamily(m, RECOVERABLE_FAMILIES) <==> HasFamily(m, "TQL") || HasFamily(m, "INF") || HasFamily(m, "QUA")
  {
    hide Has, HasFamily;
    assert "TSV9" in RECOVERABLE_CODES && "TSV8" in RECOVERABLE_CODES;
    assert "TSV2" in RECOVERABLE_CODES && "TSV7" in RECOVERABLE_CODES;
    assert "TSV10" in SCHEMA_ABORT && "QEX3" in SCHEMA_ABORT && "REX24" in SCHEMA_ABORT;
    assert "REP27" in REPRESENTATION && "REP44" in REPRESENTATION && "FER7" in REPRESENTATION;
    assert "REP23" in REPRESENTATION && "QEX7" in REPRESENTATION;
    assert "TQL" in RECOVERABLE_FAMILIES && "INF" in RECOVERABLE_FAMILIES && "QUA" in RECOVERABLE_FAMILIES;
  }

  /** A server error leaves the transaction usable exactly when its text carries a recoverable marker
      and no marker of a torn-down one; the top code never matters. */
  lemma RetriableIff(topCode: string, message: string)
    ensures ClassifyTypedbError(topCode, message).RetriableInSameTx() <==>
            !FatalMarker(message) && RecoverableMarker(message)
  {
    FatalSpelledOut(message);
    RecoverableSpelledOut(message);
    hide Has, HasFamily, HasAny, AnyFamily, FatalMarker;
  }

  /** One fatal code anywhere in a stack, at any depth, and the transaction is given up. */
  lemma FatalCodeDecides(topCode: string, ps: seq<Piece>, c: string)
    requires CodeStack(ps) && c in Codes(Render(ps))
    requires c in WRITE_PIPELINE + COMMIT_STAGE + TX_GONE
    ensures !ClassifyTypedbError(topCode, Render(ps)).RetriableInSameTx()
  {
    MarkersAreCodes();
    MarkerIsMembership(ps, c);
    StackMarkers(ps, "");
    ExtractionInvertsRendering(ps, "");
    assert Render(ps) + "" == Render(ps);
    assert Has(Render(ps), c);
    RetriableIff(topCode, Render(ps));
  }

  // ---- which class it is -------------------------------------------------------------

  /** A message with one of these codes, or a code of one of these families, has this class. */
  datatype Row = Row(codes: seq<string>, families: seq<string>, verdict: ErrorClass)

  /** In order of precedence. */
  const TABLE: seq<Row> := [
    Row(["WEX1", "PEX6", "QEX14"], [], WriteFailed),
    Row(["DCT3", "TSV5", "HSR18", "SRV19"], [], CommitFailed),
    Row(["TSV12"], [], IdleTimeout),
    Row(["TSV13"], [], TransientConflict),
    Row(["TSV9", "TSV8"], [], WrongTxType),
    Row(["TSV2"], [], TxIsRead),
    Row(["TSV7"], [], ParseError),
    Row(["TSV10", "QEX3", "REX24"], [], WriteFailed),
    Row(["REP27", "REP44", "FER7", "REP23", "QEX7"], [], QueryFailed),
    Row([], ["TQL"], ParseError),
    Row([], ["INF", "QUA"], TypeError),
    Row([], ["CNT", "DVL"], WriteFailed)]

  predicate Hit(message: string, row: Row) {
    HasAny(message, row.codes) || AnyFamily(message, row.families)
  }

  lemma LifecycleRows(m: string)
    ensures Hit(m, TABLE[0]) <==> Has(m, "WEX1") || Has(m, "PEX6") || Has(m, "QEX14")
    ensures Hit(m, TABLE[1]) <==> Has(m, "DCT3") || Has(m, "TSV5") || Has(m, "HSR18") || Has(m, "SRV19")
    ensures Hit(m, TABLE[2]) <==> Has(m, "TSV12")
    ensures Hit(m, TABLE[3]) <==> Has(m, "TSV13")
  {
    hide Has, HasFamily;
    assert "WEX1" in TABLE[0].codes && "PEX6" in TABLE[0].codes && "QEX14" in TABLE[0].codes;
    assert "DCT3" in TABLE[1].codes && "TSV5" in TABLE[1].codes && "HSR18" in TABLE[1].codes;
    assert "SRV19" in TABLE[1].codes;
    assert "TSV12" in TABLE[2].codes;
    assert "TSV13" in TABLE[3].codes;
  }

  lemma CodeRows(m: string)
    ensures Hit(m, TABLE[4]) <==> Has(m, "TSV9") || Has(m, "TSV8")
    ensures Hit(m, TABLE[5]) <==> Has(m, "TSV2")
    ensures Hit(m, TABLE[6]) <==> Has(m, "TSV7")
    ensures Hit(m, TABLE[7]) <==> Has(m, "TSV10") || Has(m, "QEX3") || Has(m, "REX24")
    ensures Hit(m, TABLE[8]) <==>
      Has(m, "REP27") || Has(m, "REP44") || Has(m, "FER7") || Has(m, "REP23") || Has(m, "QEX7")
  {
    hide Has, HasFamily;
    assert "TSV9" in TABLE[4].codes && "TSV8" in TABLE[4].codes;
    assert "TSV2" in TABLE[5].codes;
    assert "TSV7" in TABLE[6].codes;
    assert "TSV10" in TABLE[7].codes && "QEX3" in TABLE[7].codes && "REX24" in TABLE[7].codes;
    assert "REP27" in TABLE[8].codes && "REP44" in TABLE[8].codes && "FER7" in TABLE[8].codes;
    assert "REP23" in TABLE[8].codes && "QEX7" in TABLE[8].codes;
  }

  lemma FamilyRows(m: string)
    ensures Hit(m, TABLE[9]) <==> HasFamily(m, "TQL")
    ensures Hit(m, TABLE[10]) <==> HasFamily(m, "INF") || HasFamily(m, "QUA")
    ensures Hit(m, TABLE[11]) <==> HasFamily(m, "CNT") || HasFamily(m, "DVL")
  {
    hide Has, HasFamily;
    assert "TQL" in TABLE[9].families;
    assert "INF" in TABLE[10].families && "QUA" in TABLE[10].families;
    assert "CNT" in TABLE[11].families && "DVL" in TABLE[11].families;
  }

  /** The first row that a message hits decides its class, whatever the top code. */
  lemma FirstRowDecides(topCode: string, message: string, i: nat)
    requires i < |TABLE| && Hit(message, TABLE[i]) && forall j :: 0 <= j < i ==> !Hit(message, TABLE[j])
    ensures ClassifyDriverError(ServerStack(topCode, message)) == TABLE[i].verdict
  {
    LifecycleRows(message);
    CodeRows(message);
    FamilyRows(message);
    hide Has, HasFamily, Hit;
  }

  /** A message that hits none leaves the decision to the top code. */
  lemma OtherwiseTopCode(topCode: string, message: string)
    requires forall j :: 0 <= j < |TABLE| ==> !Hit(message, TABLE[j])
    ensures var verdict := ClassifyDriverError(ServerStack(topCode, message));
      && (verdict == Timeout <==> topCode == "TXN1" || topCode == "TXN2")
      && (verdict == UnknownDatabase <==> topCode == "SRV3")
      && (verdict == UpstreamUnavailable <==> topCode == "AUT2" || topCode == "HSR9")
      && (verdict in {Timeout, UnknownDatabase, UpstreamUnavailable, Unclassified})
  {
    LifecycleRows(message);
    CodeRows(message);
    FamilyRows(message);
    hide Has, HasFamily, Hit;
  }

  /** A driver error that is not a server stack: the transaction is closed, or TypeDB was not reached. */
  lemma WithoutStack(e: DriverError)
    requires !e.ServerStack?
    ensures ClassifyDriverError(e) == IdleTimeout <==> e == TransactionClosed
    ensures ClassifyDriverError(e) == UpstreamUnavailable <==> e == ConnectionFault || e == OtherDriverError
  {
  }
}
