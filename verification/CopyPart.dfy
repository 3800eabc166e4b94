/** The streaming copy of one multipart file (copyPartToStorage in http/files.go): every buffer read from
    the part is counted, sniffed, hashed and piped to the storage. */
module CopyPart {
  import opened Types

  /** What one Read call reports besides its bytes. */
  datatype End = More | Eof | Broken

  /** One Read call: the bytes it put into the buffer, any number of them, and how it ended; bytes may come with an
      error. */
  datatype ReadCall = ReadCall(data: Bytes, end: End)

  const SNIFF: nat := 512

  /** A part as a sequence of Read calls: just the last one ends the part. */
  predicate PartScript(calls: seq<ReadCall>) {
    && |calls| > 0
    && (forall i :: 0 <= i < |calls| ==> (calls[i].end == More <==> i < |calls| - 1))
  }

  function Content(calls: seq<ReadCall>): Bytes {
    if |calls| == 0 then [] else Content(calls[..|calls| - 1]) + calls[|calls| - 1].data
  }

  datatype Outcome =
    | Copied(size: nat, hashed: Bytes, sniff: Bytes)
    | Exceeded
    | ReadFailed
    | StoreFailed

  predicate TooLong(n: nat, maxBytes: Option<int>) {
    maxBytes.Some? && n > 0 && n > maxBytes.value
  }

  /** The bytes the MIME sniffer gets. */
  function Head(b: Bytes): Bytes {
    b[..Min(SNIFF, |b|)]
  }

  /** The outcome for a part with the given whole content. */
  function CopyOutcome(content: Bytes, broken: bool, maxBytes: Option<int>, storeOk: bool): Outcome {
    if TooLong(|content|, maxBytes) then Exceeded
    else if broken then ReadFailed
    else if !storeOk then StoreFailed
    else Copied(|content|, content, Head(content))
  }

  lemma {:induction false} ContentGrows(calls: seq<ReadCall>, k: nat)
    requires k <= |calls|
    ensures Content(calls[..k]) <= Content(calls)
    decreases |calls| - k
  {
    if k == |calls| {
      assert calls[..k] == calls;
    } else {
      assert calls[..k + 1][..k] == calls[..k];
      ContentGrows(calls, k + 1);
    }
  }

  lemma HeadStep(b: Bytes, chunk: Bytes)
    ensures Head(b + chunk) == if |Head(b)| < SNIFF then Head(b) + chunk[..Min(SNIFF - |Head(b)|, |chunk|)] else Head(b)
  {
  }

  lemma NextPrefix(calls: seq<ReadCall>, k: nat)
    requires k < |calls|
    ensures Content(calls[..k + 1]) == Content(calls[..k]) + calls[k].data
    ensures Content(calls[..k + 1]) <= Content(calls)
  {
    assert calls[..k + 1][..k] == calls[..k];
    ContentGrows(calls, k + 1);
  }

  /** The copy.  The outcome depends on the whole content alone, not on how the reads cut it; a copied part
      is stored whole, and a refused one leaves at most a prefix within the limit behind. */
  method CopyPartToStorage(calls: seq<ReadCall>, maxBytes: Option<int>, storeOk: bool) returns (outcome: Outcome, piped: Bytes)
    requires PartScript(calls)
    ensures outcome == CopyOutcome(Content(calls), calls[|calls| - 1].end == Broken, maxBytes, storeOk)
    ensures outcome == Exceeded <==> maxBytes.Some? && Content(calls) != [] && |Content(calls)| > maxBytes.value
    ensures outcome == ReadFailed <==> outcome != Exceeded && calls[|calls| - 1].end == Broken
    ensures outcome == StoreFailed <==> outcome !in {Exceeded, ReadFailed} && !storeOk
    ensures outcome !in {Exceeded, ReadFailed, StoreFailed} ==>
              outcome == Copied(|Content(calls)|, Content(calls), Content(calls)[..Min(512, |Content(calls)|)])
    ensures piped <= Content(calls) && (maxBytes.Some? && piped != [] ==> |piped| <= maxBytes.value)
    ensures !outcome.Exceeded? ==> piped == Content(calls)
  {
    var size: nat, sniff: Bytes, hashed: Bytes := 0, [], [];
    piped := [];
    var k := 0;
    while true
      invariant k < |calls|
      invariant size == |Content(calls[..k])| && !TooLong(size, maxBytes)
      invariant piped == Content(calls[..k]) && hashed == piped
      invariant sniff == Head(piped)
      decreases |calls| - k
    {
      var chunk := calls[k].data;
      var n := |chunk|;
      NextPrefix(calls, k);
      if n > 0 {
        if maxBytes.Some? && size + n > maxBytes.value {
          return Exceeded, piped;
        }
        size := size + n;
        HeadStep(piped, chunk);
        if |sniff| < SNIFF {
          var need := Min(SNIFF - |sniff|, n);
          sniff := sniff + chunk[..need];
        }
        hashed := hashed + chunk;
        piped := piped + chunk;
      }
      if calls[k].end != More {
        break;
      }
      k := k + 1;
    }
    assert calls[..k + 1] == calls;
    if calls[k].end == Broken {
      return ReadFailed, piped;
    }
    if !storeOk {
      return StoreFailed, piped;
    }
    outcome := Copied(size, hashed, sniff);
  }

  lemma {:induction false} ContentAppend(a: seq<ReadCall>, b: seq<ReadCall>)
    ensures Content(a + b) == Content(a) + Content(b)
  {
    if |b| == 0 {
      assert a + b == a;
    } else {
      var front := b[..|b| - 1];
      assert (a + b)[..|a + b| - 1] == a + front;
      ContentAppend(a, front);
      assert (Content(a) + Content(front)) + b[|b| - 1].data == Content(a) + (Content(front) + b[|b| - 1].data);
    }
  }

  /** Cutting one read in two, anywhere, changes nothing. */
  lemma RecutSame(before: seq<ReadCall>, data: Bytes, end: End, rest: seq<ReadCall>, at: nat)
    requires at <= |data|
    ensures Content(before + [ReadCall(data, end)] + rest)
         == Content(before + [ReadCall(data[..at], More), ReadCall(data[at..], end)] + rest)
  {
    var one, two := [ReadCall(data, end)], [ReadCall(data[..at], More), ReadCall(data[at..], end)];
    assert one[..0] == [] && two[..1] == [ReadCall(data[..at], More)] && [ReadCall(data[..at], More)][..0] == [];
    assert Content([ReadCall(data[..at], More)]) == data[..at];
    assert Content(two) == data[..at] + data[at..] == data;
    assert Content(one) == data;
    ContentAppend(before, one);
    ContentAppend(before + one, rest);
    ContentAppend(before, two);
    ContentAppend(before + two, rest);
  }
}
