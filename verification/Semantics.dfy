// The semantic records of an observation: which bytes are an acceptable request or response, and
// which pairs fit together. Record types, parser and canonical encoder are given by a codec.

module Semantics {
  import opened Options
  import opened Classes

  type Bytes = seq<bv8>
  type Record = int

  const MAX_SEMANTIC_RECORD_BYTES: nat := 65536

  datatype Contract = Dependency | ProcessObservation
  datatype Role = RequestRecord | ResponseRecord
  datatype Outcome = Error | Response

  /** What reproit_core provides: strict parsing, canonical encoding and the pair validators. */
  datatype Codec = Codec(
    parse: (Contract, Role, Bytes) -> Option<Record>,
    encode: (Contract, Role, Record) -> Bytes,
    valid: (Contract, Role, Record) -> bool,
    classOf: (Contract, Record) -> ObservationClass,
    pairValid: (Contract, Record, Record) -> bool,
    outcomeOf: (Contract, Record) -> Outcome)

  /** Strict parsing inverts canonical encoding. */
  ghost predicate RoundTrips(codec: Codec) {
    forall c, role, r :: codec.parse(c, role, codec.encode(c, role, r)) == Some(r)
  }

  function ContractFor(class_: ObservationClass): Contract {
    match class_
    case Database => Dependency
    case OutboundHttp => Dependency
    case Queue => Dependency
    case Clock => ProcessObservation
    case Environment => ProcessObservation
    case Filesystem => ProcessObservation
    case Randomness => ProcessObservation
  }

  /** `read_semantic_record`: a record of bounded size whose canonical bytes are the stored bytes. */
  function ReadRecord(codec: Codec, c: Contract, role: Role, bytes: Bytes, declared: nat): Option<Record> {
    if declared == 0 || declared > MAX_SEMANTIC_RECORD_BYTES || |bytes| != declared then None
    else
      match codec.parse(c, role, bytes)
      case None => None
      case Some(r) => if codec.valid(c, role, r) && codec.encode(c, role, r) == bytes then Some(r) else None
  }

  /** `validate_semantic_request`: without a contract anything goes. */
  predicate RequestOk(codec: Codec, contract: Option<Contract>, class_: ObservationClass, request: Bytes,
                      declared: nat) {
    match contract
    case None => true
    case Some(c) =>
      var r := ReadRecord(codec, c, RequestRecord, request, declared);
      r.Some? && codec.classOf(c, r.value) == class_
  }

  /** `validate_semantic_pair`. */
  predicate PairOk(codec: Codec, contract: Option<Contract>, request: Bytes, requestBytes: nat, response: Bytes,
                   responseBytes: nat, outcome: Outcome)
  {
    match contract
    case None => true
    case Some(c) =>
      var a := ReadRecord(codec, c, RequestRecord, request, requestBytes);
      var b := ReadRecord(codec, c, ResponseRecord, response, responseBytes);
      a.Some? && b.Some? && codec.pairValid(c, a.value, b.value) && codec.outcomeOf(c, b.value) == outcome
  }

  /** A canonical record is read back as itself, and only from its own bytes. */
  lemma ReadRecordExact(codec: Codec, c: Contract, role: Role, bytes: Bytes, r: Record)
    requires RoundTrips(codec)
    ensures ReadRecord(codec, c, role, bytes, |bytes|) == Some(r)
       <==> bytes == codec.encode(c, role, r) && codec.valid(c, role, r) && 0 < |bytes| <= MAX_SEMANTIC_RECORD_BYTES
  {
    assert codec.parse(c, role, codec.encode(c, role, r)) == Some(r);
  }

  /** The bytes are the canonical encoding of this valid record, within bounds. */
  predicate Encodes(codec: Codec, c: Contract, role: Role, bytes: Bytes, r: Record) {
    bytes == codec.encode(c, role, r) && codec.valid(c, role, r) && 0 < |bytes| <= MAX_SEMANTIC_RECORD_BYTES
  }

  lemma EncodesIff(codec: Codec, c: Contract, role: Role, bytes: Bytes)
    requires RoundTrips(codec)
    ensures forall r :: Encodes(codec, c, role, bytes, r) <==> ReadRecord(codec, c, role, bytes, |bytes|) == Some(r)
  {
    forall r ensures Encodes(codec, c, role, bytes, r) <==> ReadRecord(codec, c, role, bytes, |bytes|) == Some(r) {
      ReadRecordExact(codec, c, role, bytes, r);
    }
  }

  /** A request is accepted iff it encodes a valid record of the session's class. */
  lemma RequestOkExact(codec: Codec, c: Contract, class_: ObservationClass, request: Bytes)
    requires RoundTrips(codec)
    ensures RequestOk(codec, Some(c), class_, request, |request|) <==>
            exists r :: Encodes(codec, c, RequestRecord, request, r) && codec.classOf(c, r) == class_
  {
    EncodesIff(codec, c, RequestRecord, request);
    if RequestOk(codec, Some(c), class_, request, |request|) {
      var r := ReadRecord(codec, c, RequestRecord, request, |request|).value;
      assert Encodes(codec, c, RequestRecord, request, r);
    }
  }

  /** A pair is accepted iff both halves encode valid records that fit together, with the reported outcome. */
  lemma PairOkExact(codec: Codec, c: Contract, request: Bytes, response: Bytes, outcome: Outcome)
    requires RoundTrips(codec)
    ensures PairOk(codec, Some(c), request, |request|, response, |response|, outcome) <==>
            exists a, b ::
              && Encodes(codec, c, RequestRecord, request, a) && Encodes(codec, c, ResponseRecord, response, b)
              && codec.pairValid(c, a, b) && codec.outcomeOf(c, b) == outcome
  {
    EncodesIff(codec, c, RequestRecord, request);
    EncodesIff(codec, c, ResponseRecord, response);
    if PairOk(codec, Some(c), request, |request|, response, |response|, outcome) {
      var a := ReadRecord(codec, c, RequestRecord, request, |request|).value;
      var b := ReadRecord(codec, c, ResponseRecord, response, |response|).value;
      assert Encodes(codec, c, RequestRecord, request, a) && Encodes(codec, c, ResponseRecord, response, b);
    }
  }
}
