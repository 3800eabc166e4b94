/** The Upload-Metadata header (tus 1.0.0, Creation extension) as parseTusMetadata (http/tus.go) reads it. */
module TusMetadata {
  import opened Types
  import opened Strings
  import Base64

  function LowerChar(c: char): char {
    if 'A' <= c <= 'Z' then c - 'A' + 'a' else c
  }

  /** strings.ToLower on ASCII. */
  function ToLower(s: string): (r: string)
    ensures |r| == |s|
  {
    if |s| == 0 then "" else [LowerChar(s[0])] + ToLower(s[1..])
  }

  const UPPER: string := "ABCDEFGHIJKLMNOPQRSTUVWXYZ"
  const LOWER: string := "abcdefghijklmnopqrstuvwxyz"

  lemma LowerListed(i: nat)
    requires i < 26
    ensures |UPPER| == |LOWER| == 26 && LowerChar(UPPER[i]) == LOWER[i]
  {
  }

  lemma LowerOthers(c: char)
    ensures c !in UPPER ==> LowerChar(c) == c
  {
    if 'A' <= c <= 'Z' {
      var i := c as nat - 'A' as nat;
      assert UPPER[i] == c;
    }
  }

  lemma {:induction false} ToLowerAt(s: string, i: nat)
    requires i < |s|
    ensures ToLower(s)[i] == LowerChar(s[i])
  {
    if i > 0 {
      ToLowerAt(s[1..], i - 1);
    }
  }

  /** Padded base64 first, unpadded second. */
  function DecodeValue(s: string): Option<Bytes> {
    var padded := Base64.Decode(s, true);
    if padded.Some? then padded else Base64.Decode(s, false)
  }

  /** The pair of one comma-separated part, if it holds one. */
  function ParsePair(part: string): Option<(string, Bytes)> {
    var segment := TrimSpace(part);
    match Cut(segment, ' ')
    case None => None
    case Some((key, value)) =>
      match DecodeValue(TrimSpace(value))
      case None => None
      case Some(bytes) => Some((ToLower(TrimSpace(key)), bytes))
  }

  function AddPair(m: map<string, Bytes>, pair: Option<(string, Bytes)>): map<string, Bytes> {
    if pair.Some? then m[pair.value.0 := pair.value.1] else m
  }

  /** The pairs of the parts, later ones winning. */
  function Collect(parts: seq<string>): map<string, Bytes> {
    if |parts| == 0 then map[] else AddPair(Collect(parts[..|parts| - 1]), ParsePair(parts[|parts| - 1]))
  }

  method ParseTusMetadata(raw: string) returns (result: map<string, Bytes>)
    ensures result == Collect(Split(raw, ','))
  {
    var parts := Split(raw, ',');
    result := map[];
    for i := 0 to |parts|
      invariant result == Collect(parts[..i])
    {
      assert parts[..i + 1][..i] == parts[..i];
      var segment := TrimSpace(parts[i]);
      if segment == "" {
        continue;
      }
      var pieces := Cut(segment, ' ');
      if pieces.None? {
        continue;
      }
      var key := ToLower(TrimSpace(pieces.value.0));
      var valueB64 := TrimSpace(pieces.value.1);
      var decoded := Base64.Decode(valueB64, true);
      if decoded.None? {
        decoded := Base64.Decode(valueB64, false);
        if decoded.None? {
          continue;
        }
      }
      result := result[key := decoded.value];
    }
    assert parts[..|parts|] == parts;
  }

  /** A part says nothing exactly when it is one word, or its second word is no base64, padded or not. */
  lemma PairsLost(part: string)
    ensures ParsePair(part).None? <==>
            forall key, value :: TrimSpace(part) == key + " " + value && ' ' !in key ==>
              Base64.Decode(TrimSpace(value), true).None? && Base64.Decode(TrimSpace(value), false).None?
  {
    var segment := TrimSpace(part);
    var cut := Cut(segment, ' ');
    if cut.Some? {
      assert segment == cut.value.0 + " " + cut.value.1;
      forall key, value | segment == key + " " + value && ' ' !in key ensures cut == Some((key, value)) {
        CutAt(key, ' ', value);
      }
    } else {
      forall key: string, value: string ensures segment != key + " " + value {
        assert ' ' in key + " " + value;
      }
    }
  }

  // ---- printing ------------------------------------------------------------------------------------

  /** A client's pair: key, value, whether it pads the value, and the white space around them. */
  datatype Pair = Pair(key: string, value: Bytes, padded: bool, before: string, between: string, after: string)

  /** The keys the protocol allows: not empty, no spaces and no commas; at least one blank after it. */
  predicate GoodPair(p: Pair) {
    && p.key != "" && ',' !in p.key && (forall i :: 0 <= i < |p.key| ==> !IsSpace(p.key[i]))
    && AllSpaces(p.before) && AllSpaces(p.between) && ' ' in p.between && AllSpaces(p.after)
  }

  function PrintPair(p: Pair): string {
    p.before + (p.key + p.between + Base64.Encode(p.value, p.padded)) + p.after
  }

  function PrintPairs(pairs: seq<Pair>): seq<string> {
    seq(|pairs|, i requires 0 <= i < |pairs| => PrintPair(pairs[i]))
  }

  function PrintMetadata(pairs: seq<Pair>): string {
    Join(PrintPairs(pairs), ',')
  }

  /** What the pairs say: keys in lower case, later pairs win, and a pair with an empty value says nothing. */
  function Meaning(pairs: seq<Pair>): map<string, Bytes> {
    if |pairs| == 0 then map[]
    else
      var p := pairs[|pairs| - 1];
      var m := Meaning(pairs[..|pairs| - 1]);
      if p.value == [] then m else m[ToLower(p.key) := p.value]
  }

  lemma ValueRoundTrip(value: Bytes, padded: bool)
    ensures DecodeValue(Base64.Encode(value, padded)) == Some(value)
  {
    Base64.RoundTrip(value, padded);
    if !padded {
      Base64.EncodePlain(value, false);
      Base64.NoBreaks(Base64.Encode(value, false));
      Base64.PaddedReadsRaw(value);
    }
  }

  /** Printed values have no blanks and no commas, and are empty just for the empty value. */
  lemma PrintedValue(value: Bytes, padded: bool)
    ensures var s := Base64.Encode(value, padded); Trimmed(s) && ',' !in s && (s == "" <==> value == [])
  {
    Base64.EncodePlain(value, padded);
  }

  lemma PairRoundTrip(p: Pair)
    requires GoodPair(p)
    ensures ParsePair(PrintPair(p)) == if p.value == [] then None else Some((ToLower(p.key), p.value))
    ensures ',' !in PrintPair(p)
  {
    var s := Base64.Encode(p.value, p.padded);
    PrintedValue(p.value, p.padded);
    ValueRoundTrip(p.value, p.padded);
    TrimOfTrimmed(p.key);
    assert ' ' !in p.key;
    assert ',' !in p.before && ',' !in p.between && ',' !in p.after by {
      assert !IsSpace(',');
    }
    if p.value == [] {
      assert p.before + (p.key + p.between + s) + p.after == p.before + p.key + (p.between + p.after);
      TrimPadded(p.before, p.key, p.between + p.after);
    } else {
      SegmentCut(p, s);
    }
  }

  /** What is left of a printed pair is cut between key and value. */
  lemma SegmentCut(p: Pair, s: string)
    requires GoodPair(p) && s != "" && Trimmed(s)
    ensures TrimSpace(p.before + (p.key + p.between + s) + p.after) == p.key + p.between + s
    ensures var cut := Cut(p.key + p.between + s, ' ');
            cut.Some? && TrimSpace(cut.value.0) == p.key && TrimSpace(cut.value.1) == s
  {
    var segment := p.key + p.between + s;
    assert TrimSpace(p.before + segment + p.after) == segment by {
      assert segment[0] == p.key[0] && segment[|segment| - 1] == s[|s| - 1];
      TrimPadded(p.before, segment, p.after);
    }
    var left, right := GapCut(p.between);
    CutPadded(p.key, left, right, s);
    GapJoins(p.key, left, right, s);
  }

  lemma GapJoins(key: string, left: string, right: string, s: string)
    ensures key + (left + " " + right) + s == (key + left) + " " + (right + s)
  {
  }

  lemma GapCut(between: string) returns (left: string, right: string)
    requires AllSpaces(between) && ' ' in between
    ensures between == left + " " + right && ' ' !in left && AllSpaces(left) && AllSpaces(right)
  {
    var gap := Cut(between, ' ').value;
    left, right := gap.0, gap.1;
    assert forall i :: 0 <= i < |left| ==> left[i] == between[i];
    assert forall i :: 0 <= i < |right| ==> right[i] == between[|left| + 1 + i];
  }

  lemma CutPadded(key: string, left: string, right: string, s: string)
    requires Trimmed(key) && Trimmed(s) && ' ' !in key && ' ' !in left && AllSpaces(left) && AllSpaces(right)
    ensures var cut := Cut((key + left) + " " + (right + s), ' ');
            cut.Some? && TrimSpace(cut.value.0) == key && TrimSpace(cut.value.1) == s
  {
    var a, b := key + left, right + s;
    assert TrimSpace(a) == key by {
      TrimAfter(key, left);
    }
    assert TrimSpace(b) == s by {
      TrimBefore(right, s);
    }
    assert ' ' !in a;
    CutAt(a, ' ', b);
  }

  /** Parsing a printed header gives back what the pairs say, for any mix of padded and unpadded values, any case of
      the keys and any white space around them. */
  lemma {:induction false} MetadataRoundTrip(pairs: seq<Pair>)
    requires forall i :: 0 <= i < |pairs| ==> GoodPair(pairs[i])
    ensures Collect(Split(PrintMetadata(pairs), ',')) == Meaning(pairs)
  {
    var parts := PrintPairs(pairs);
    if |pairs| == 0 {
      assert Split("", ',') == [""];
      assert Collect([""]) == AddPair(Collect([""][..0]), ParsePair(""));
    } else {
      forall i | 0 <= i < |parts| ensures ',' !in parts[i] {
        PairRoundTrip(pairs[i]);
      }
      SplitJoin(parts, ',');
      CollectPrinted(pairs);
    }
  }

  lemma {:induction false} CollectPrinted(pairs: seq<Pair>)
    requires forall i :: 0 <= i < |pairs| ==> GoodPair(pairs[i])
    ensures Collect(PrintPairs(pairs)) == Meaning(pairs)
  {
    if |pairs| > 0 {
      var front := pairs[..|pairs| - 1];
      assert PrintPairs(pairs)[..|pairs| - 1] == PrintPairs(front);
      CollectPrinted(front);
      PairRoundTrip(pairs[|pairs| - 1]);
    }
  }
}
