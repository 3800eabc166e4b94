/** Single byte ranges (RFC 9110, sections 14.1.2 and 14.4): parseSingleRange and the range part of
    streamOwnedFile (http/files.go) over GetRangeStream (storage/local.go). */
module Ranges {
  import opened Types
  import opened Strings
  import opened Decimal

  /** First and last byte position. */
  function ParseSingleRange(header: string, size: nat): Option<(int, int)> {
    if !HasPrefix(header, "bytes=") then None
    else
      var value := header[6..];
      if ',' in value then None
      else match Cut(value, '-')
        case None => None
        case Some((before, after)) => ParseBounds(TrimSpace(before), TrimSpace(after), size)
  }

  function ParseBounds(left: string, right: string, size: nat): Option<(int, int)> {
    if left == "" then
      match ParseInt(right)
      case None => None
      case Some(suffix) => if suffix <= 0 then None else Some((size - Min(suffix, size), size - 1))
    else match ParseInt(left)
      case None => None
      case Some(start) =>
        if start < 0 || start >= size then None
        else if right == "" then Some((start, size - 1))
        else match ParseInt(right)
          case None => None
          case Some(end) => if end < start then None else Some((start, if end >= size then size - 1 else end))
  }

  /** GetRangeStream over the bytes of an object. */
  function GetRange(obj: Bytes, start: int, end: int): Option<Bytes> {
    var size := |obj|;
    if start < 0 || end < start || start >= size then None
    else
      var last := if end >= size then size - 1 else end;
      Some(obj[start..last + 1])
  }

  datatype Response =
    | Whole(body: Bytes, length: int)
    | Partial(body: Bytes, length: int, contentRange: string)
    | NotSatisfiable(contentRange: string)

  function PrintInt(n: int): string {
    if n < 0 then "-" + Print(-n) else Print(n)
  }

  /** The answer to a GET with the given Range header (already trimmed). */
  function Serve(obj: Bytes, header: string): Response {
    if header == "" then Whole(obj, |obj|)
    else match ParseSingleRange(header, |obj|)
      case None => NotSatisfiable("bytes */" + Print(|obj|))
      case Some((start, end)) =>
        match GetRange(obj, start, end)
        case None => NotSatisfiable("bytes */" + Print(|obj|))
        case Some(body) =>
          Partial(body, end - start + 1, "bytes " + PrintInt(start) + "-" + PrintInt(end) + "/" + Print(|obj|))
  }

  /** For every header the parsed positions lie inside the object, except that a suffix range of the empty
      object comes out as (0, -1). */
  lemma ParsedInside(header: string, size: nat)
    requires ParseSingleRange(header, size).Some?
    ensures var (start, end) := ParseSingleRange(header, size).value;
      if size > 0 then 0 <= start <= end < size else start == 0 && end == -1
  {
  }

  /** Whatever is served as partial content is exactly the announced slice, of the announced length. */
  lemma PartialIsSlice(obj: Bytes, header: string)
    requires Serve(obj, header).Partial?
    ensures exists start: nat, end: nat {:trigger Print(start), Print(end)} ::
      && start <= end < |obj|
      && Serve(obj, header).body == obj[start..end + 1]
      && Serve(obj, header).length == |Serve(obj, header).body|
      && Serve(obj, header).contentRange == "bytes " + Print(start) + "-" + Print(end) + "/" + Print(|obj|)
  {
    ParsedInside(header, |obj|);
    var (start, end) := ParseSingleRange(header, |obj|).value;
    assert PrintInt(start) == Print(start) && PrintInt(end) == Print(end);
  }

  /** The two guards never disagree except on the empty object, for which no range is ever served. */
  lemma RefusedExactly(obj: Bytes, header: string)
    requires header != ""
    ensures Serve(obj, header).NotSatisfiable? <==> ParseSingleRange(header, |obj|).None? || obj == []
    ensures Serve(obj, header).NotSatisfiable? ==> Serve(obj, header).contentRange == "bytes */" + Print(|obj|)
    ensures !Serve(obj, header).Whole?
  {
    if ParseSingleRange(header, |obj|).Some? {
      ParsedInside(header, |obj|);
    }
  }

  lemma WholeWithoutHeader(obj: Bytes)
    ensures Serve(obj, "") == Whole(obj, |obj|)
  {
  }

  /** A header that is accepted is one range of bytes: "bytes=", no list, and a hyphen; and the two bounds, white
      space around them apart, say what is served: the last n bytes for an empty first bound, otherwise from the
      first bound to the second one, or to the end. */
  lemma AcceptedSyntax(header: string, size: nat) returns (left: string, right: string)
    requires ParseSingleRange(header, size).Some?
    ensures header == "bytes=" + left + "-" + right && '-' !in left && ',' !in left && ',' !in right
    ensures var (start, end) := ParseSingleRange(header, size).value;
            var first, last := ParseInt(TrimSpace(left)), ParseInt(TrimSpace(right));
            if TrimSpace(left) == "" then last.Some? && last.value > 0 && start == Max(0, size - last.value) && end == size - 1
            else
              && first == Some(start) && 0 <= start < size
              && if TrimSpace(right) == "" then end == size - 1
                 else last.Some? && start <= last.value && (if last.value < size then end == last.value else end == size - 1)
  {
    var value := header[6..];
    var parts := Cut(value, '-').value;
    left, right := parts.0, parts.1;
    assert header == "bytes=" + value;
    assert forall c :: c in left || c in right ==> c in value;
  }

  // ---- what printed ranges mean --------------------------------------------------------------------

  lemma HeaderParts(left: string, right: string, size: nat)
    requires '-' !in left && ',' !in left && ',' !in right
    ensures ParseSingleRange("bytes=" + left + "-" + right, size) == ParseBounds(TrimSpace(left), TrimSpace(right), size)
  {
    var header := "bytes=" + left + "-" + right;
    assert header[6..] == left + ['-'] + right;
    CutAt(left, '-', right);
  }

  lemma PrintedBound(n: nat)
    requires n <= INT64_MAX
    ensures '-' !in Print(n) && ',' !in Print(n) && TrimSpace(Print(n)) == Print(n) != "" && ParseInt(Print(n)) == Some(n)
  {
    PrintPlain(n);
    TrimOfTrimmed(Print(n));
    ParsePrinted(n);
  }

  lemma ClosedRange(a: nat, b: nat, size: nat)
    requires a <= INT64_MAX && b <= INT64_MAX
    ensures ParseSingleRange("bytes=" + Print(a) + "-" + Print(b), size)
         == if a < size && a <= b then Some((a, if b >= size then size - 1 else b)) else None
  {
    PrintedBound(a);
    PrintedBound(b);
    HeaderParts(Print(a), Print(b), size);
  }

  lemma OpenRange(a: nat, size: nat)
    requires a <= INT64_MAX
    ensures ParseSingleRange("bytes=" + Print(a) + "-", size) == if a < size then Some((a, size - 1)) else None
  {
    PrintedBound(a);
    HeaderParts(Print(a), "", size);
    assert "bytes=" + Print(a) + "-" + "" == "bytes=" + Print(a) + "-";
  }

  lemma SuffixRange(n: nat, size: nat)
    requires n <= INT64_MAX
    ensures ParseSingleRange("bytes=-" + Print(n), size) == if n == 0 then None else Some((size - Min(n, size), size - 1))
  {
    PrintedBound(n);
    HeaderParts("", Print(n), size);
    assert "bytes=" + "" + "-" + Print(n) == "bytes=-" + Print(n);
  }

  // ---- piecewise download ---------------------------------------------------------------------------

  /** Cut points of a partition into consecutive non-empty pieces, starting at a position. */
  predicate CutsFrom(cuts: seq<nat>, at: nat, size: nat) {
    if |cuts| == 0 then at == size else at < cuts[0] <= size && CutsFrom(cuts[1..], cuts[0], size)
  }

  /** Any increasing positions up to the end are cut points. */
  lemma {:induction false} CutsAre(cuts: seq<nat>, at: nat, size: nat)
    requires |cuts| > 0 && at < cuts[0] && cuts[|cuts| - 1] == size
    requires forall i, j :: 0 <= i < j < |cuts| ==> cuts[i] < cuts[j]
    ensures CutsFrom(cuts, at, size)
    decreases |cuts|
  {
    if |cuts| > 1 {
      assert cuts[1..][0] == cuts[1] && cuts[0] < cuts[|cuts| - 1];
      CutsAre(cuts[1..], cuts[0], size);
    }
  }

  /** What a client gets for the bytes from one position up to another. */
  function FetchRange(obj: Bytes, at: nat, next: nat): Option<Bytes>
    requires at < next
  {
    match Serve(obj, "bytes=" + Print(at) + "-" + Print(next - 1))
    case Partial(body, _, _) => Some(body)
    case _ => None
  }

  /** A client that fetches the pieces one by one and joins the bodies; nothing if one is refused. */
  function FetchPieces(fetch: (nat, nat) --> Option<Bytes>, cuts: seq<nat>, at: nat, size: nat): Option<Bytes>
    requires CutsFrom(cuts, at, size) && forall a: nat, b: nat :: a < b ==> fetch.requires(a, b)
  {
    if |cuts| == 0 then Some([])
    else
      var body := fetch(at, cuts[0]);
      var rest := FetchPieces(fetch, cuts[1..], cuts[0], size);
      if body.None? || rest.None? then None else Some(body.value + rest.value)
  }

  lemma ParsedServed(obj: Bytes, header: string, start: nat, end: nat)
    requires header != "" && start <= end < |obj| && ParseSingleRange(header, |obj|) == Some((start as int, end as int))
    ensures Serve(obj, header).Partial? && Serve(obj, header).body == obj[start..end + 1]
  {
  }

  lemma PieceServed(obj: Bytes, at: nat, next: nat)
    requires |obj| <= INT64_MAX && at < next <= |obj|
    ensures FetchRange(obj, at, next) == Some(obj[at..next])
  {
    ClosedRange(at, next - 1, |obj|);
    ParsedServed(obj, "bytes=" + Print(at) + "-" + Print(next - 1), at, next - 1);
  }

  lemma {:induction false} SlicesJoin(fetch: (nat, nat) --> Option<Bytes>, obj: Bytes, cuts: seq<nat>, at: nat)
    requires at <= |obj| && CutsFrom(cuts, at, |obj|)
    requires forall a: nat, b: nat :: a < b ==> fetch.requires(a, b)
    requires forall a: nat, b: nat :: a < b <= |obj| ==> fetch(a, b) == Some(obj[a..b])
    ensures FetchPieces(fetch, cuts, at, |obj|) == Some(obj[at..])
    decreases |cuts|
  {
    if |cuts| > 0 {
      SlicesJoin(fetch, obj, cuts[1..], cuts[0]);
      assert obj[at..cuts[0]] + obj[cuts[0]..] == obj[at..];
    } else {
      assert obj[at..] == [];
    }
  }

  /** Whatever the partition, the pieces join to the object. */
  lemma PiecesJoin(obj: Bytes, cuts: seq<nat>)
    requires |obj| <= INT64_MAX && CutsFrom(cuts, 0, |obj|)
    ensures FetchPieces((a: nat, b: nat) requires a < b => FetchRange(obj, a, b), cuts, 0, |obj|) == Some(obj)
  {
    var fetch := (a: nat, b: nat) requires a < b => FetchRange(obj, a, b);
    forall a: nat, b: nat | a < b <= |obj| ensures fetch(a, b) == Some(obj[a..b]) {
      PieceServed(obj, a, b);
    }
    SlicesJoin(fetch, obj, cuts, 0);
    assert obj[0..] == obj;
  }
}
