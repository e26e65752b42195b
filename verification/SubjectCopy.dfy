// The copy loop of a captured file: a marker search with a sliding window sees what the whole file holds.

module SubjectCopy {
  import opened Sequences

  const TAIL: nat := 32
  const COPY_BUFFER_BYTES: nat := 65536
  const MAX_SUBJECT_FILE_BYTES: nat := 536_870_912

  const DWARF: Bytes := [0x5F, 0x5F, 0x44, 0x57, 0x41, 0x52, 0x46]                                    // __DWARF
  const DEBUG_INFO: Bytes := [0x2E, 0x64, 0x65, 0x62, 0x75, 0x67, 0x5F, 0x69, 0x6E, 0x66, 0x6F]         // .debug_info
  const ZDEBUG_INFO: Bytes := [0x2E, 0x7A, 0x64, 0x65, 0x62, 0x75, 0x67, 0x5F, 0x69, 0x6E, 0x66, 0x6F]  // .zdebug_info

  predicate At(bytes: Bytes, marker: Bytes, i: nat) {
    i + |marker| <= |bytes| && bytes[i..i + |marker|] == marker
  }

  predicate Occurs(bytes: Bytes, marker: Bytes) {
    exists i :: 0 <= i <= |bytes| && At(bytes, marker, i)
  }

  /** The marker occurs anywhere in the bytes. */
  predicate HasMarker(bytes: Bytes) {
    Occurs(bytes, DWARF) || Occurs(bytes, DEBUG_INFO) || Occurs(bytes, ZDEBUG_INFO)
  }

  /** `bytes.windows(marker.len()).any(..)`. */
  method ContainsWindow(bytes: Bytes, marker: Bytes) returns (found: bool)
    requires marker != []
    ensures found <==> Occurs(bytes, marker)
  {
    var i := 0;
    while i + |marker| <= |bytes|
      invariant 0 <= i <= |bytes| && forall j :: 0 <= j < i ==> !At(bytes, marker, j)
    {
      if bytes[i..i + |marker|] == marker {
        assert At(bytes, marker, i);
        return true;
      }
      i := i + 1;
    }
    return false;
  }

  method ContainsDwarfMarker(bytes: Bytes) returns (found: bool)
    ensures found <==> HasMarker(bytes)
  {
    found := ContainsWindow(bytes, DWARF);
    if !found {
      found := ContainsWindow(bytes, DEBUG_INFO);
    }
    if !found {
      found := ContainsWindow(bytes, ZDEBUG_INFO);
    }
  }

  function Suffix(bytes: Bytes): Bytes {
    if |bytes| > TAIL then bytes[|bytes| - TAIL..] else bytes
  }

  /** An occurrence that ends in the new chunk starts within the last 32 bytes before it. */
  lemma WindowSuffices(before: Bytes, chunk: Bytes, marker: Bytes)
    requires 0 < |marker| <= TAIL + 1
    ensures Occurs(before + chunk, marker) <==> Occurs(before, marker) || Occurs(Suffix(before) + chunk, marker)
  {
    OccursBefore(before, chunk, marker);
    OccursInWindow(before, chunk, marker);
    OccursSomewhere(before, chunk, marker);
    hide Occurs;
  }

  lemma OccursBefore(before: Bytes, chunk: Bytes, marker: Bytes)
    ensures Occurs(before, marker) ==> Occurs(before + chunk, marker)
  {
    var whole := before + chunk;
    if Occurs(before, marker) {
      var i :| 0 <= i <= |before| && At(before, marker, i);
      assert whole[i..i + |marker|] == before[i..i + |marker|];
      assert At(whole, marker, i);
    }
  }

  lemma OccursInWindow(before: Bytes, chunk: Bytes, marker: Bytes)
    ensures Occurs(Suffix(before) + chunk, marker) ==> Occurs(before + chunk, marker)
  {
    var whole, window := before + chunk, Suffix(before) + chunk;
    var cut := |before| - |Suffix(before)|;
    assert whole[cut..] == window;
    if Occurs(window, marker) {
      var i :| 0 <= i <= |window| && At(window, marker, i);
      assert whole[cut + i..cut + i + |marker|] == window[i..i + |marker|];
      assert At(whole, marker, cut + i);
    }
  }

  lemma OccursSomewhere(before: Bytes, chunk: Bytes, marker: Bytes)
    requires 0 < |marker| <= TAIL + 1
    ensures Occurs(before + chunk, marker) ==> Occurs(before, marker) || Occurs(Suffix(before) + chunk, marker)
  {
    var whole, window := before + chunk, Suffix(before) + chunk;
    var cut := |before| - |Suffix(before)|;
    assert whole[cut..] == window;
    if Occurs(whole, marker) {
      var i :| 0 <= i <= |whole| && At(whole, marker, i);
      if i + |marker| <= |before| {
        assert before[i..i + |marker|] == whole[i..i + |marker|];
        assert At(before, marker, i);
      } else {
        assert window[i - cut..i - cut + |marker|] == whole[i..i + |marker|];
        assert At(window, marker, i - cut);
      }
    }
  }

  lemma MarkerWindow(before: Bytes, chunk: Bytes)
    ensures HasMarker(before + chunk) <==> HasMarker(before) || HasMarker(Suffix(before) + chunk)
  {
    WindowSuffices(before, chunk, DWARF);
    WindowSuffices(before, chunk, DEBUG_INFO);
    WindowSuffices(before, chunk, ZDEBUG_INFO);
    hide Occurs;
  }

  lemma SuffixOfSuffix(before: Bytes, chunk: Bytes)
    ensures Suffix(Suffix(before) + chunk) == Suffix(before + chunk)
  {
  }

  /**
   * The copy loop of `capture_file`: whatever the sizes of the reads, the target holds the whole file and
   * the flag says whether a marker occurs anywhere in it. A file that grew or shrank is refused.
   */
  method CopyFile(pieces: seq<Bytes>, declared: nat) returns (ok: bool, target: Bytes, hasDwarf: bool)
    requires forall i :: 0 <= i < |pieces| ==> 0 < |pieces[i]| <= COPY_BUFFER_BYTES
    requires declared <= MAX_SUBJECT_FILE_BYTES
    ensures ok <==> |Joined(pieces)| == declared
    ensures ok ==> target == Joined(pieces) && (hasDwarf <==> HasMarker(Joined(pieces)))
  {
    hide HasMarker, Suffix;
    var copied := 0;
    var markerTail: Bytes := [];
    target := [];
    hasDwarf := false;
    NoMarkerInNothing();
    for k := 0 to |pieces|
      invariant target == Joined(pieces[..k]) && copied == |target| <= declared
      invariant markerTail == Suffix(target)
      invariant hasDwarf <==> HasMarker(target)
    {
      var buffer := pieces[k];
      assert pieces[..k + 1] == pieces[..k] + [buffer];
      JoinedAppend(pieces[..k], buffer);
      copied := copied + |buffer|;
      if copied > MAX_SUBJECT_FILE_BYTES || copied > declared {
        LongerIsWrong(pieces, k + 1);
        return false, target, hasDwarf;
      }
      MarkerWindow(target, buffer);
      SuffixOfSuffix(target, buffer);
      SuffixIs(markerTail + buffer);
      target := target + buffer;
      markerTail := markerTail + buffer;
      var found := ContainsDwarfMarker(markerTail);
      hasDwarf := hasDwarf || found;
      if |markerTail| > TAIL {
        markerTail := markerTail[|markerTail| - TAIL..];
      }
    }
    assert pieces[..|pieces|] == pieces;
    ok := copied == declared;
  }

  lemma NoMarkerInNothing()
    ensures !HasMarker([]) && Suffix([]) == []
  {
  }

  lemma SuffixIs(bytes: Bytes)
    ensures Suffix(bytes) == if |bytes| > TAIL then bytes[|bytes| - TAIL..] else bytes
  {
  }

  lemma LongerIsWrong(pieces: seq<Bytes>, k: nat)
    requires k <= |pieces|
    ensures |Joined(pieces)| >= |Joined(pieces[..k])|
  {
    assert pieces == pieces[..k] + pieces[k..];
    JoinedConcat(pieces[..k], pieces[k..]);
  }
}
