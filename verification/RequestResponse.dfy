// A captured request and response: recorded inputs, the exact classifier, and the operation it ends.

module RequestResponse {
  import opened Arith
  import opened Options
  import opened Sequences

  const MAX_REQUEST_INPUT_CHUNK_BYTES: nat := 32768
  const MAX_INPUTS: nat := 1024
  const MAX_RESPONSE_HEADERS: nat := 128
  const MAX_RESPONSE_HEADER_BYTES: nat := 16384

  type Failure = int

  /** `ExactResponseFailureClassification`. */
  class Classification {
    const expected: Bytes
    const armed: Option<Failure>     // the failure, if the status matched
    var failure: Option<Failure>
    var matchedBytes: nat
    ghost var body: Bytes            // history: everything recorded

    ghost predicate Valid()
      reads this
    {
      matchedBytes == |body| && failure == if body <= expected then armed else None
    }

    constructor (expected: Bytes, identity: Failure, statusMatches: bool)
      ensures Valid() && body == [] && this.expected == expected && armed == if statusMatches then Some(identity)
                                                                             else None
    {
      this.expected := expected;
      armed := if statusMatches then Some(identity) else None;
      failure := if statusMatches then Some(identity) else None;
      matchedBytes, body := 0, [];
    }

    method RecordBodyChunk(bytes: Bytes)
      requires Valid()
      modifies this
      ensures Valid() && body == old(body) + bytes
    {
      var end := matchedBytes + |bytes|;
      if end > |expected| || expected[matchedBytes..end] != bytes {
        failure := None;
        NotPrefix(body, bytes, expected);
      } else {
        PrefixExtends(body, bytes, expected);
      }
      matchedBytes := end;
      body := body + bytes;
    }

    /** It fires exactly when the status matched and the whole body is the expected one. */
    method Finish() returns (identity: Option<Failure>)
      requires Valid()
      ensures identity == if body == expected then armed else None
    {
      if matchedBytes == |expected| {
        return failure;
      }
      return None;
    }
  }

  lemma PrefixExtends(body: Bytes, bytes: Bytes, expected: Bytes)
    requires |body| + |bytes| <= |expected| && expected[|body|..|body| + |bytes|] == bytes
    ensures body <= expected <==> body + bytes <= expected
  {
    var start := expected[..|body|];
    assert expected[..|body| + |bytes|] == start + bytes;
    assert (body + bytes)[..|body|] == body && (start + bytes)[..|body|] == start;
  }

  lemma NotPrefix(body: Bytes, bytes: Bytes, expected: Bytes)
    requires |body| + |bytes| > |expected| || expected[|body|..|body| + |bytes|] != bytes
    ensures !(body + bytes <= expected)
  {
    var end := |body| + |bytes|;
    if end <= |expected| {
      assert expected[..end][|body|..] == expected[|body|..end];
      assert (body + bytes)[|body|..] == bytes;
    }
  }

  datatype End = Failed(identity: Failure) | Succeeded | Abandoned

  class Operation {
    var classification: Classification?
    var inputComplete: bool
    var inputCount: nat
    var live: bool                       // the taken `operation` option
    ghost var inputs: seq<Bytes>         // history: recorded inputs
    ghost var indices: seq<nat>          // history: the input index each was recorded with
    ghost var ended: seq<End>            // history: how the operation was consumed

    ghost predicate Valid()
      reads this, classification
    {
      && inputCount == |inputs| <= MAX_INPUTS
      && (forall i :: 0 <= i < |inputs| ==> |inputs[i]| <= MAX_REQUEST_INPUT_CHUNK_BYTES)
      && |indices| == |inputs| && (forall i :: 0 <= i < |indices| ==> indices[i] == i)
      && (live ==> ended == []) && |ended| <= 1 && (!live ==> |ended| == 1)
      && (classification != null ==> live && inputComplete && classification.Valid())
    }

    constructor ()
      ensures Valid() && live && !inputComplete && inputs == [] && classification == null && ended == []
    {
      classification, inputComplete, inputCount, live := null, false, 0, true;
      inputs, indices, ended := [], [], [];
    }

    /** Consumes the operation if it is still there. */
    method Abandon()
      requires Valid()
      modifies this`classification, this`live, this`ended
      ensures Valid() && !live && classification == null
      ensures ended == if old(live) then [Abandoned] else old(ended)
    {
      classification := null;
      if live {
        live := false;
        ended := [Abandoned];
      }
    }

    /** `recorded` is whether the operation accepts the input record. */
    method RecordInputRecord(bytes: Bytes, recorded: bool) returns (ok: bool)
      requires Valid() && live && !inputComplete && |bytes| <= MAX_REQUEST_INPUT_CHUNK_BYTES
      modifies this`classification, this`live, this`ended, this`inputCount, this`inputs, this`indices
      ensures Valid() && classification == null
      ensures ok <==> old(inputCount) < MAX_INPUTS && recorded
      ensures live <==> ok
      ensures ended == if ok then old(ended) else [Abandoned]
      ensures inputs == if ok then old(inputs) + [bytes] else old(inputs)
      ensures indices == if ok then old(indices) + [old(inputCount)] else old(indices)
    {
      if inputCount > 1023 {
        Abandon();
        return false;
      }
      if !recorded {
        Abandon();
        return false;
      }
      inputs, indices := inputs + [bytes], indices + [inputCount];
      inputCount := inputCount + 1;
      ok := true;
    }

    /** The inputs concatenate to the body, in full records of 32 KiB and one rest, with consecutive indices. */
    method RecordInputChunk(bytes: Bytes, recorded: nat -> bool) returns (ok: bool)
      requires Valid()
      modifies this`classification, this`live, this`ended, this`inputCount, this`inputs, this`indices
      ensures Valid()
      ensures ok <==> (&& old(live) && !old(inputComplete) && |old(inputs)| + RecordCount(|bytes|) <= MAX_INPUTS
                       && forall i :: |old(inputs)| <= i < |old(inputs)| + RecordCount(|bytes|) ==> recorded(i))
      ensures old(inputComplete) || !old(live) ==> inputs == old(inputs) && live == old(live) && ended == old(ended)
      ensures ok ==> live && ended == [] && |inputs| == |old(inputs)| + RecordCount(|bytes|)
      ensures ok ==> indices == seq(|inputs|, i => i) && old(inputs) <= inputs
                     && Joined(inputs) == Joined(old(inputs)) + bytes
      ensures ok ==> forall i :: |old(inputs)| <= i < |inputs| - 1 ==> |inputs[i]| == MAX_REQUEST_INPUT_CHUNK_BYTES
      ensures !ok && old(live) && !old(inputComplete) ==> !live && ended == [Abandoned]
    {
      hide Joined;
      if inputComplete || !live {
        return false;
      }
      var start := 0;
      ghost var k := 0;
      assert bytes[..0] == [] && Joined(inputs) + [] == Joined(inputs);
      while start < |bytes|
        invariant Valid() && 0 <= start <= |bytes| && live && !inputComplete
        invariant Joined(inputs) == Joined(old(inputs)) + bytes[..start] && old(inputs) <= inputs
        invariant start == Min(k * MAX_REQUEST_INPUT_CHUNK_BYTES, |bytes|) && |inputs| == |old(inputs)| + k
        invariant start < |bytes| ==> forall i :: |old(inputs)| <= i < |inputs| ==>
                    |inputs[i]| == MAX_REQUEST_INPUT_CHUNK_BYTES
        invariant forall i :: |old(inputs)| <= i < |inputs| - 1 ==> |inputs[i]| == MAX_REQUEST_INPUT_CHUNK_BYTES
        invariant k <= RecordCount(|bytes|) && forall i :: |old(inputs)| <= i < |inputs| ==> recorded(i)
      {
        var end := start + Min(MAX_REQUEST_INPUT_CHUNK_BYTES, |bytes| - start);
        JoinedAppend(inputs, bytes[start..end]);
        var accepted := RecordInputRecord(bytes[start..end], recorded(inputCount));
        if !accepted {
          assert k < RecordCount(|bytes|);
          return false;
        }
        Regroup(Joined(old(inputs)), bytes, start, end);
        start := end;
        k := k + 1;
      }
      assert bytes[..start] == bytes;
      assert k == RecordCount(|bytes|);
      ok := true;
    }

    /** An empty body is recorded as one empty input. */
    method FinishInput(recorded: bool) returns (ok: bool)
      requires Valid()
      modifies this`classification, this`live, this`ended, this`inputCount, this`inputs, this`indices,
               this`inputComplete
      ensures Valid()
      ensures ok <==> old(live) && !old(inputComplete) && (old(inputs) == [] ==> recorded)
      ensures ok ==> inputComplete && live && inputs == (if old(inputs) == [] then [[]] else old(inputs))
                     && Joined(inputs) == Joined(old(inputs))
      ensures !ok ==> !live && (old(live) ==> ended == [Abandoned])
    {
      if inputComplete || !live {
        Abandon();
        return false;
      }
      if inputCount == 0 {
        JoinedAppend(inputs, []);
        var accepted := RecordInputRecord([], recorded);
        if !accepted {
          return false;
        }
      }
      inputComplete := true;
      ok := true;
    }

    /** `headers` are the sizes of name and value; the classifier starts only within the bounds. */
    method BeginResponse(headers: seq<(nat, nat)>, expected: Bytes, identity: Failure, statusMatches: bool)
      returns (ok: bool)
      requires Valid()
      modifies this`classification, this`live, this`ended
      ensures Valid()
      ensures ok ==> live && inputComplete && classification != null && fresh(classification)
                     && classification.body == []
      ensures ok ==> classification.expected == expected
                     && classification.armed == (if statusMatches then Some(identity) else None)
      ensures ok <==> (&& old(live) && inputComplete && old(classification) == null && |headers| <= MAX_RESPONSE_HEADERS
                       && HeaderBytes(headers) <= MAX_RESPONSE_HEADER_BYTES
                       && forall i :: 0 <= i < |headers| ==> headers[i].0 > 0)
      ensures !ok ==> !live && classification == null && (old(live) ==> ended == [Abandoned])
    {
      if !inputComplete || classification != null || !live {
        Abandon();
        return false;
      }
      var bytes := 0;
      assert headers[..0] == [] && HeaderBytes([]) == 0;
      hide HeaderBytes, Joined;
      for k := 0 to |headers|
        invariant bytes == HeaderBytes(headers[..k]) <= MAX_RESPONSE_HEADER_BYTES && k <= MAX_RESPONSE_HEADERS
        invariant forall i :: 0 <= i < k ==> headers[i].0 > 0
        invariant Valid() && live && inputComplete && classification == null
      {
        assert headers[..k + 1] == headers[..k] + [headers[k]];
        HeaderBytesAppend(headers[..k], headers[k]);
        HeaderBytesGrow(headers, k + 1);
        if k >= MAX_RESPONSE_HEADERS || headers[k].0 == 0 {
          Abandon();
          return false;
        }
        bytes := bytes + headers[k].0 + headers[k].1;
        if bytes > MAX_RESPONSE_HEADER_BYTES {
          Abandon();
          return false;
        }
      }
      assert headers[..|headers|] == headers;
      classification := new Classification(expected, identity, statusMatches);
      ok := true;
    }

    method RecordResponseChunk(bytes: Bytes) returns (ok: bool)
      requires Valid()
      modifies if classification != null then {classification} else {}
      ensures Valid() && (ok <==> classification != null)
      ensures ok ==> classification.body == old(classification.body) + bytes
                     && classification.expected == old(classification.expected)
    {
      ok := classification != null;
      if ok {
        classification.RecordBodyChunk(bytes);
      }
    }

    /** Fails the operation exactly when the classifier fires, and consumes it once either way. */
    method FinishResponse() returns (ok: bool)
      requires Valid()
      modifies this`classification, this`live, this`ended
      ensures Valid()
      ensures ok <==> old(classification) != null
      ensures ok ==> var c := old(classification);
                     ended == [if old(c.body) == c.expected && c.armed.Some? then Failed(c.armed.value) else Succeeded]
      ensures !ok ==> ended == old(ended) && live == old(live)
    {
      if classification == null {
        return false;
      }
      var identity := classification.Finish();
      classification := null;
      live := false;
      ended := [if identity.Some? then Failed(identity.value) else Succeeded];
      ok := true;
    }
  }

  /** `bytes.chunks(MAX_REQUEST_INPUT_CHUNK_BYTES)`: how many records a chunk of the body needs. */
  function RecordCount(n: nat): nat {
    (n + MAX_REQUEST_INPUT_CHUNK_BYTES - 1) / MAX_REQUEST_INPUT_CHUNK_BYTES
  }

  lemma Regroup(before: Bytes, bytes: Bytes, start: nat, end: nat)
    requires start <= end <= |bytes|
    ensures before + bytes[..start] + bytes[start..end] == before + bytes[..end]
  {
    assert bytes[..end] == bytes[..start] + bytes[start..end];
  }

  function HeaderBytes(headers: seq<(nat, nat)>): nat {
    if headers == [] then 0
    else HeaderBytes(headers[..|headers| - 1]) + headers[|headers| - 1].0 + headers[|headers| - 1].1
  }

  lemma HeaderBytesAppend(headers: seq<(nat, nat)>, h: (nat, nat))
    ensures HeaderBytes(headers + [h]) == HeaderBytes(headers) + h.0 + h.1
  {
    assert (headers + [h])[..|headers|] == headers;
  }

  lemma {:induction false} HeaderBytesGrow(headers: seq<(nat, nat)>, k: nat)
    requires k <= |headers|
    ensures HeaderBytes(headers[..k]) <= HeaderBytes(headers)
    decreases |headers| - k
  {
    if k == |headers| {
      assert headers[..k] == headers;
    } else {
      HeaderBytesGrow(headers, k + 1);
      assert headers[..k + 1] == headers[..k] + [headers[k]];
      HeaderBytesAppend(headers[..k], headers[k]);
    }
  }
}
