/** Lexical path cleaning (path.Clean and filepath.Clean on Unix) and the key resolution of the local
    storage (storage/local.go): a stack over slash-separated segments. */
module Paths {
  import opened Types
  import opened Strings

  predicate Rooted(p: string) {
    |p| > 0 && p[0] == '/'
  }

  function Push(rooted: bool, stack: seq<string>, seg: string): seq<string> {
    if seg == "" || seg == "." then stack
    else if seg != ".." then stack + [seg]
    else if |stack| > 0 && stack[|stack| - 1] != ".." then stack[..|stack| - 1]
    else if rooted then stack
    else stack + [".."]
  }

  function PushAll(rooted: bool, stack: seq<string>, segs: seq<string>): seq<string>
    decreases |segs|
  {
    if |segs| == 0 then stack else PushAll(rooted, Push(rooted, stack, segs[0]), segs[1..])
  }

  function Stack(p: string): seq<string> {
    PushAll(Rooted(p), [], Split(p, '/'))
  }

  function Print(rooted: bool, stack: seq<string>): string {
    if rooted then "/" + Join(stack, '/')
    else if stack == [] then "."
    else Join(stack, '/')
  }

  function Clean(p: string): string {
    Print(Rooted(p), Stack(p))
  }

  /** Join of two elements; an empty first element is ignored. */
  function JoinPath(a: string, b: string): string {
    if a != "" then Clean(a + "/" + b) else if b != "" then Clean(b) else ""
  }

  /** An empty part makes no difference, and two empty parts give an empty path. */
  lemma JoinEmpty(p: string)
    ensures JoinPath("", p) == if p == "" then "" else Clean(p)
    ensures JoinPath(p, "") == if p == "" then "" else Clean(p + "/")
  {
    assert p + "/" + "" == p + "/";
  }

  /** A segment that names an entry of the directory it is looked up in. */
  predicate Plain(seg: string) {
    '/' !in seg && seg != "" && seg != "." && seg != ".."
  }

  /** Parent references come first, and only in relative paths; everything else is plain. */
  ghost predicate Normal(rooted: bool, stack: seq<string>) {
    forall i :: 0 <= i < |stack| ==>
      Plain(stack[i]) || (stack[i] == ".." && !rooted && forall j :: 0 <= j < i ==> stack[j] == "..")
  }

  lemma {:induction false} PushAllNormal(rooted: bool, stack: seq<string>, segs: seq<string>)
    requires Normal(rooted, stack) && forall i :: 0 <= i < |segs| ==> '/' !in segs[i]
    ensures Normal(rooted, PushAll(rooted, stack, segs))
    decreases |segs|
  {
    if |segs| > 0 {
      assert |stack| > 0 && stack[|stack| - 1] == ".." ==> forall j :: 0 <= j < |stack| ==> stack[j] == "..";
      PushAllNormal(rooted, Push(rooted, stack, segs[0]), segs[1..]);
    }
  }

  lemma StackNormal(p: string)
    ensures Normal(Rooted(p), Stack(p))
  {
    JoinSplit(p, '/');
    PushAllNormal(Rooted(p), [], Split(p, '/'));
  }

  lemma {:induction false} PushAllSplit(rooted: bool, stack: seq<string>, a: seq<string>, b: seq<string>)
    ensures PushAll(rooted, stack, a + b) == PushAll(rooted, PushAll(rooted, stack, a), b)
    decreases |a|
  {
    if |a| == 0 {
      assert a + b == b;
    } else {
      assert (a + b)[1..] == a[1..] + b;
      PushAllSplit(rooted, Push(rooted, stack, a[0]), a[1..], b);
    }
  }

  /** Nothing in a normal stack moves when it is pushed again. */
  lemma {:induction false} PushAllAgain(rooted: bool, done: seq<string>, rest: seq<string>)
    requires Normal(rooted, done + rest)
    ensures PushAll(rooted, done, rest) == done + rest
    decreases |rest|
  {
    if |rest| == 0 {
      assert done + rest == done;
    } else {
      assert (done + rest)[|done|] == rest[0];
      if rest[0] == ".." && |done| > 0 {
        assert (done + rest)[|done| - 1] == done[|done| - 1];
      }
      assert Push(rooted, done, rest[0]) == done + [rest[0]];
      assert done + [rest[0]] + rest[1..] == done + rest;
      PushAllAgain(rooted, done + [rest[0]], rest[1..]);
    }
  }

  lemma JoinHead(parts: seq<string>)
    requires |parts| > 0
    ensures parts[0] <= Join(parts, '/')
    ensures |parts| > 1 ==> parts[0] + "/" <= Join(parts, '/')
  {
  }

  /** Parsing a printed stack gives the stack back. */
  lemma Reparse(rooted: bool, stack: seq<string>)
    requires Normal(rooted, stack)
    ensures Rooted(Print(rooted, stack)) == rooted && Stack(Print(rooted, stack)) == stack
  {
    var p := Print(rooted, stack);
    PushAllAgain(rooted, [], stack);
    assert [] + stack == stack;
    if stack == [] {
      if rooted {
        assert p == "/";
        assert Split(p, '/') == ["", ""];
        assert ["", ""][1..] == [""];
        assert PushAll(true, [], ["", ""]) == PushAll(true, [], [""]);
      } else {
        SplitPlain(p, '/');
      }
    } else {
      SplitJoin(stack, '/');
      JoinHead(stack);
      if rooted {
        assert p[1..] == Join(stack, '/');
        assert Split(p, '/') == [""] + stack;
        assert ([""] + stack)[1..] == stack;
      } else {
        assert p[0] == stack[0][0];
      }
    }
  }

  /** Cleaning a path of plain names changes nothing. */
  lemma CleanPlain(segs: seq<string>)
    requires |segs| > 0 && forall i :: 0 <= i < |segs| ==> Plain(segs[i])
    ensures Clean(Join(segs, '/')) == Join(segs, '/')
  {
    Reparse(false, segs);
  }

  lemma CleanIdempotent(p: string)
    ensures Clean(Clean(p)) == Clean(p)
    ensures Rooted(Clean(p)) == Rooted(p) && Stack(Clean(p)) == Stack(p)
  {
    StackNormal(p);
    Reparse(Rooted(p), Stack(p));
  }

  // ---- where a path leads -----------------------------------------------------------------------

  /** Looking one segment up from a directory, given as the names on the way from the file system root
      (no symbolic links). */
  function Walk1(dir: seq<string>, seg: string): seq<string> {
    if seg == "" || seg == "." then dir
    else if seg != ".." then dir + [seg]
    else if |dir| > 0 then dir[..|dir| - 1]
    else dir
  }

  function Walk(dir: seq<string>, segs: seq<string>): seq<string> {
    if |segs| == 0 then dir else Walk1(Walk(dir, segs[..|segs| - 1]), segs[|segs| - 1])
  }

  /** The directory entry a path denotes, seen from a working directory. */
  function Leads(cwd: seq<string>, p: string): seq<string> {
    Walk(if Rooted(p) then [] else cwd, Split(p, '/'))
  }

  lemma PushWalks(dir: seq<string>, rooted: bool, stack: seq<string>, seg: string)
    requires Normal(rooted, stack) && (rooted ==> dir == [])
    ensures Walk(dir, Push(rooted, stack, seg)) == Walk1(Walk(dir, stack), seg)
  {
    assert (stack + [seg])[..|stack|] == stack;
    assert (stack + [".."])[..|stack|] == stack;
    if |stack| > 0 {
      assert stack[|stack| - 1] != ".." ==> Walk(dir, stack) == Walk(dir, stack[..|stack| - 1]) + [stack[|stack| - 1]];
    }
  }

  lemma {:induction false} PushAllWalks(dir: seq<string>, rooted: bool, segs: seq<string>)
    requires (rooted ==> dir == []) && forall i :: 0 <= i < |segs| ==> '/' !in segs[i]
    ensures Walk(dir, PushAll(rooted, [], segs)) == Walk(dir, segs)
    decreases |segs|
  {
    if |segs| > 0 {
      var front, last := segs[..|segs| - 1], segs[|segs| - 1];
      PushAllWalks(dir, rooted, front);
      PushAllNormal(rooted, [], front);
      PushAllSplit(rooted, [], front, [last]);
      assert front + [last] == segs;
      assert [last][1..] == [];
      PushWalks(dir, rooted, PushAll(rooted, [], front), last);
    }
  }

  /** Cleaning keeps the meaning of a path: from every working directory it leads where it led. */
  lemma CleanLeads(cwd: seq<string>, p: string)
    ensures Leads(cwd, Clean(p)) == Leads(cwd, p)
  {
    var dir := if Rooted(p) then [] else cwd;
    CleanIdempotent(p);
    JoinSplit(p, '/');
    JoinSplit(Clean(p), '/');
    PushAllWalks(dir, Rooted(p), Split(p, '/'));
    PushAllWalks(dir, Rooted(p), Split(Clean(p), '/'));
  }

  lemma {:induction false} WalkAppend(dir: seq<string>, a: seq<string>, b: seq<string>)
    ensures Walk(dir, a + b) == Walk(Walk(dir, a), b)
    decreases |b|
  {
    if |b| == 0 {
      assert a + b == a;
    } else {
      assert (a + b)[..|a + b| - 1] == a + b[..|b| - 1];
      WalkAppend(dir, a, b[..|b| - 1]);
    }
  }

  lemma {:induction false} WalkPlain(dir: seq<string>, segs: seq<string>)
    requires forall i :: 0 <= i < |segs| ==> Plain(segs[i])
    ensures Walk(dir, segs) == dir + segs
    decreases |segs|
  {
    if |segs| > 0 {
      WalkPlain(dir, segs[..|segs| - 1]);
      assert segs[..|segs| - 1] + [segs[|segs| - 1]] == segs;
    }
  }

  // ---- storage keys -------------------------------------------------------------------------------

  function TrimSlash(s: string): string {
    if |s| > 0 && s[0] == '/' then s[1..] else s
  }

  /** LocalStorage.resolve below a storage root. */
  function Resolve(root: string, key: string): Option<string> {
    var trimmed := TrimSpace(key);
    if trimmed == "" then None
    else
      var clean := Clean(TrimSlash(trimmed));
      if clean == "." || HasPrefix(clean, "..") then None
      else
        var resolved := JoinPath(root, clean);
        if resolved != root && !HasPrefix(resolved, root + "/") then None else Some(resolved)
  }

  /** The segments a key contributes below the root. */
  function Inner(key: string): seq<string> {
    Stack(TrimSlash(TrimSpace(key)))
  }

  /** The keys the first three guards turn away. */
  predicate BadKey(key: string) {
    || TrimSpace(key) == ""
    || Clean(TrimSlash(TrimSpace(key))) == "."
    || HasPrefix(Clean(TrimSlash(TrimSpace(key))), "..")
  }

  lemma GoodKeyPlain(key: string)
    requires !BadKey(key)
    ensures forall i :: 0 <= i < |Inner(key)| ==> Plain(Inner(key)[i])
  {
    var t := TrimSlash(TrimSpace(key));
    StackNormal(t);
    if !Rooted(t) {
      JoinHead(Stack(t));
      assert Stack(t)[0] != "..";
    }
  }

  lemma JoinStack(root: string, key: string)
    requires root != "" && !BadKey(key)
    ensures var p := JoinPath(root, Clean(TrimSlash(TrimSpace(key)))); Stack(p) == Stack(root) + Inner(key) && Rooted(p) == Rooted(root)
    ensures JoinPath(root, Clean(TrimSlash(TrimSpace(key)))) == Print(Rooted(root), Stack(root) + Inner(key))
  {
    var clean := Clean(TrimSlash(TrimSpace(key)));
    var p := root + "/" + clean;
    var inner := Inner(key);
    GoodKeyPlain(key);
    CleanIdempotent(TrimSlash(TrimSpace(key)));
    StackNormal(root);
    SplitAppend(root, '/', clean);
    PushAllSplit(Rooted(root), [], Split(root, '/'), Split(clean, '/'));
    assert Normal(Rooted(root), Stack(root) + inner);
    if inner == [] {
      assert clean == "/";
      assert Split(clean, '/') == ["", ""];
      assert ["", ""][1..] == [""];
      assert PushAll(Rooted(root), Stack(root), ["", ""]) == PushAll(Rooted(root), Stack(root), [""]);
      assert Stack(root) + inner == Stack(root);
    } else {
      SplitJoin(inner, '/');
      PushAllAgain(Rooted(root), Stack(root), inner);
      if Rooted(clean) {
        assert clean[1..] == Join(inner, '/');
        assert Split(clean, '/') == [""] + inner;
        assert ([""] + inner)[1..] == inner;
      }
    }
    assert Rooted(p) == Rooted(root);
    assert Stack(p) == Stack(root) + inner;
    Reparse(Rooted(root), Stack(root) + inner);
  }

  /** Every accepted key denotes, from every working directory, the storage root or something that is
      reached from the root by plain names alone. */
  lemma ResolveStaysInside(root: string, key: string, cwd: seq<string>)
    requires root != "" && Resolve(root, key).Some?
    ensures Leads(cwd, Resolve(root, key).value) == Leads(cwd, root) + Inner(key)
    ensures forall i :: 0 <= i < |Inner(key)| ==> Plain(Inner(key)[i])
  {
    GoodKeyPlain(key);
    JoinStack(root, key);
    var p := Resolve(root, key).value;
    var dir := if Rooted(root) then [] else cwd;
    JoinSplit(p, '/');
    JoinSplit(root, '/');
    PushAllWalks(dir, Rooted(p), Split(p, '/'));
    PushAllWalks(dir, Rooted(root), Split(root, '/'));
    WalkAppend(dir, Stack(root), Inner(key));
    WalkPlain(Walk(dir, Stack(root)), Inner(key));
  }

  /** Below "/" or "." the printed path does not start with the root and a slash. */
  lemma BareRoot(rooted: bool, inner: seq<string>)
    requires inner != [] && forall i :: 0 <= i < |inner| ==> Plain(inner[i])
    ensures var p := Print(rooted, inner); var root := Print(rooted, []); p != root && !HasPrefix(p, root + "/")
  {
    var p := Print(rooted, inner);
    Reparse(rooted, inner);
    Reparse(rooted, []);
    JoinHead(inner);
    assert inner[0][0] in inner[0] && (|inner[0]| > 1 ==> inner[0][1] in inner[0]);
    assert |inner[0]| == 1 ==> inner[0] == [inner[0][0]];
    if rooted {
      assert p[1] == inner[0][0];
    } else {
      assert p[0] == inner[0][0] && (|inner[0]| > 1 ==> p[1] == inner[0][1]);
    }
  }

  lemma ProperRoot(rooted: bool, stack: seq<string>, inner: seq<string>)
    requires stack != [] && inner != [] && Normal(rooted, stack)
    ensures HasPrefix(Print(rooted, stack + inner), Print(rooted, stack) + "/")
    ensures Print(rooted, stack) != Print(true, []) && Print(rooted, stack) != Print(false, [])
  {
    JoinAppend(stack, inner, '/');
    assert Print(rooted, stack + inner) == Print(rooted, stack) + "/" + Join(inner, '/');
    Reparse(rooted, stack);
    Reparse(true, []);
    Reparse(false, []);
  }

  /** Exactly which keys are accepted.  The last guard only ever fires for a storage root of "/" or ".",
      where it turns every object away: neither root followed by a slash starts any cleaned path. */
  lemma ResolveAccepts(root: string, key: string)
    requires root == Clean(root)
    ensures Resolve(root, key).Some? <==> !BadKey(key) && (Inner(key) == [] || (root != "/" && root != "."))
  {
    if !BadKey(key) {
      var inner := Inner(key);
      StackNormal(root);
      GoodKeyPlain(key);
      JoinStack(root, key);
      assert Print(true, []) == "/" && Print(false, []) == ".";
      if inner == [] {
        assert Stack(root) + inner == Stack(root);
      } else if Stack(root) == [] {
        assert Stack(root) + inner == inner;
        BareRoot(Rooted(root), inner);
      } else {
        ProperRoot(Rooted(root), Stack(root), inner);
      }
    }
  }

  /** Two keys name one object only when they clean to the same segments. */
  lemma ResolveInjective(root: string, a: string, b: string)
    requires root != "" && Resolve(root, a).Some? && Resolve(root, a) == Resolve(root, b)
    ensures Inner(a) == Inner(b)
  {
    JoinStack(root, a);
    JoinStack(root, b);
    var i, j := Inner(a), Inner(b);
    assert i == (Stack(root) + i)[|Stack(root)|..];
    assert j == (Stack(root) + j)[|Stack(root)|..];
  }

  // ---- the keys the program mints ------------------------------------------------------------------

  datatype PreviewKind = Metadata | Thumbnail | Pdf

  datatype ObjectName =
    | Temp(user: string, id: string)
    | Stored(user: string, year: string, month: string, day: string, id: string)
    | Preview(kind: PreviewKind, id: string)

  function Segments(o: ObjectName): seq<string> {
    match o
    case Temp(user, id) => ["tmp", "uploads", user, id + ".part"]
    case Stored(user, year, month, day, id) => ["files", user, year, month, day, id + ".bin"]
    case Preview(Metadata, id) => ["previews", "metadata", id + ".json"]
    case Preview(Thumbnail, id) => ["previews", "thumbnails", id + ".jpg"]
    case Preview(Pdf, id) => ["previews", "pdf", id + ".pdf"]
  }

  function KeyOf(o: ObjectName): string {
    Join(Segments(o), '/')
  }

  /** The keys as the handlers print them. */
  lemma TempText(user: string, id: string)
    ensures KeyOf(Temp(user, id)) == "tmp/uploads/" + user + "/" + (id + ".part")
  {
    assert Segments(Temp(user, id)) == ["tmp", "uploads"] + [user, id + ".part"];
    JoinFew("tmp", "uploads", '/');
    JoinFew(user, id + ".part", '/');
    JoinAppend(["tmp", "uploads"], [user, id + ".part"], '/');
  }

  lemma StoredText(user: string, year: string, month: string, day: string, id: string)
    ensures KeyOf(Stored(user, year, month, day, id)) == "files/" + user + "/" + year + "/" + month + "/" + day + "/" + (id + ".bin")
  {
    assert Segments(Stored(user, year, month, day, id)) == (["files", user] + [year, month]) + [day, id + ".bin"];
    JoinFew("files", user, '/');
    JoinFew(year, month, '/');
    JoinFew(day, id + ".bin", '/');
    JoinAppend(["files", user], [year, month], '/');
    JoinAppend(["files", user] + [year, month], [day, id + ".bin"], '/');
  }

  lemma PreviewText(kind: PreviewKind, id: string)
    ensures KeyOf(Preview(kind, id)) ==
              match kind
              case Metadata => "previews/metadata/" + (id + ".json")
              case Thumbnail => "previews/thumbnails/" + (id + ".jpg")
              case Pdf => "previews/pdf/" + (id + ".pdf")
  {
    var segs := Segments(Preview(kind, id));
    assert segs == segs[..2] + [segs[2]];
    JoinFew(segs[0], segs[1], '/');
    assert segs[..2] == [segs[0], segs[1]];
    JoinFew(segs[2], "", '/');
    JoinAppend(segs[..2], [segs[2]], '/');
  }

  /** Uuids and date parts: no slash, and no segment with a meaning of its own. */
  predicate WellNamed(o: ObjectName) {
    match o
    case Temp(user, id) => Plain(user) && Plain(id)
    case Stored(user, year, month, day, id) => Plain(user) && Plain(year) && Plain(month) && Plain(day) && Plain(id)
    case Preview(_, id) => Plain(id)
  }

  lemma {:induction false} JoinLast(parts: seq<string>)
    requires |parts| > 0 && parts[|parts| - 1] != ""
    ensures var j, last := Join(parts, '/'), parts[|parts| - 1]; |j| > 0 && j[|j| - 1] == last[|last| - 1]
  {
    if |parts| > 1 {
      JoinLast(parts[1..]);
    }
  }

  lemma PlainWithExtension(id: string, ext: string)
    requires Plain(id) && '/' !in ext && |ext| > 2
    ensures Plain(id + ext)
  {
  }

  lemma SegmentsPlain(o: ObjectName)
    requires WellNamed(o)
    ensures var s := Segments(o); |s| > 0 && forall i :: 0 <= i < |s| ==> Plain(s[i])
  {
    PlainWithExtension(o.id, match o case Temp(_, _) => ".part" case Stored(_, _, _, _, _) => ".bin"
                             case Preview(Metadata, _) => ".json" case Preview(Thumbnail, _) => ".jpg"
                             case Preview(Pdf, _) => ".pdf");
  }

  /** The first and the last character of a key are letters, and the last is not a p. */
  lemma SegmentsEnds(o: ObjectName)
    ensures var s := Segments(o); var last := s[|s| - 1];
      |s[0]| > 0 && |last| > 0 && !IsSpace(s[0][0]) && s[0][0] != '.' && !IsSpace(last[|last| - 1]) && last[|last| - 1] != 'p'
  {
    var last := Segments(o)[|Segments(o)| - 1];
    match o
    case Temp(_, id) => assert last[|last| - 1] == 't';
    case Stored(_, _, _, _, id) => assert last[|last| - 1] == 'n';
    case Preview(Metadata, id) => assert last[|last| - 1] == 'n';
    case Preview(Thumbnail, id) => assert last[|last| - 1] == 'g';
    case Preview(Pdf, id) => assert last[|last| - 1] == 'f';
  }

  lemma KeyInner(o: ObjectName)
    requires WellNamed(o)
    ensures !BadKey(KeyOf(o)) && Inner(KeyOf(o)) == Segments(o)
  {
    SegmentsPlain(o);
    SegmentsEnds(o);
    PlainKey(Segments(o));
  }

  lemma PlainKey(segs: seq<string>)
    requires |segs| > 0 && forall i :: 0 <= i < |segs| ==> Plain(segs[i])
    requires var last := segs[|segs| - 1]; segs[0] != "" && last != "" && !IsSpace(segs[0][0]) && !IsSpace(last[|last| - 1])
    requires segs[0][0] != '.'
    ensures !BadKey(Join(segs, '/')) && Inner(Join(segs, '/')) == segs
  {
    var key := Join(segs, '/');
    JoinHead(segs);
    JoinLast(segs);
    assert key[0] == segs[0][0];
    TrimOfTrimmed(key);
    Reparse(false, segs);
    assert segs[0][0] in segs[0];
    assert TrimSlash(key) == key;
  }

  lemma KeyResolves(root: string, o: ObjectName)
    requires root == Clean(root) && root != "/" && root != "." && WellNamed(o)
    ensures root != "" && Resolve(root, KeyOf(o)).Some?
  {
    KeyInner(o);
    ResolveAccepts(root, KeyOf(o));
  }

  lemma KeysDistinct(root: string, a: ObjectName, b: ObjectName)
    requires root != "" && WellNamed(a) && WellNamed(b)
    requires Resolve(root, KeyOf(a)).Some? && Resolve(root, KeyOf(a)) == Resolve(root, KeyOf(b))
    ensures a == b
  {
    KeyInner(a);
    KeyInner(b);
    ResolveInjective(root, KeyOf(a), KeyOf(b));
    SegmentsInjective(a, b);
  }

  lemma NotScratch(root: string, o: ObjectName, p: string)
    requires root != "" && WellNamed(o) && Resolve(root, KeyOf(o)).Some?
    ensures p + ".tmp" != Resolve(root, KeyOf(o)).value
  {
    var last := Segments(o)[|Segments(o)| - 1];
    KeyInner(o);
    SegmentsEnds(o);
    PathEnd(root, KeyOf(o), Segments(o));
    ScratchApart(p, Resolve(root, KeyOf(o)).value, last);
  }

  /** The key spaces are disjoint and keys are unique: below one root two names share a path only when
      they are the same name, and the scratch file PutStream writes first is nobody's path. */
  lemma KeysApart(root: string, a: ObjectName, b: ObjectName)
    requires root == Clean(root) && root != "/" && root != "." && WellNamed(a) && WellNamed(b)
    ensures Resolve(root, KeyOf(a)).Some? && Resolve(root, KeyOf(b)).Some?
    ensures Resolve(root, KeyOf(a)) == Resolve(root, KeyOf(b)) <==> a == b
    ensures Resolve(root, KeyOf(a)).value + ".tmp" != Resolve(root, KeyOf(b)).value
  {
    KeyResolves(root, a);
    KeyResolves(root, b);
    if Resolve(root, KeyOf(a)) == Resolve(root, KeyOf(b)) {
      KeysDistinct(root, a, b);
    }
    NotScratch(root, b, Resolve(root, KeyOf(a)).value);
  }

  lemma SegmentsInjective(a: ObjectName, b: ObjectName)
    requires Segments(a) == Segments(b)
    ensures a == b
  {
    var s, t := Segments(a), Segments(b);
    assert s[0] == t[0] && s[1] == t[1] && |s| == |t|;
    var x, y := s[|s| - 1], t[|t| - 1];
    assert a.id == x[..|a.id|] && b.id == y[..|b.id|];
    if a.Temp? {
      assert s[2] == t[2];
    } else if a.Stored? {
      assert s[2] == t[2] && s[3] == t[3] && s[4] == t[4];
    }
  }

  lemma PrintedEnd(rooted: bool, above: seq<string>, segs: seq<string>)
    requires |segs| > 0 && segs[|segs| - 1] != ""
    ensures var p, last := Print(rooted, above + segs), segs[|segs| - 1]; p != "" && p[|p| - 1] == last[|last| - 1]
  {
    var all := above + segs;
    assert all[|all| - 1] == segs[|segs| - 1];
    JoinLast(all);
  }

  lemma PathEnd(root: string, key: string, segs: seq<string>)
    requires root != "" && Resolve(root, key).Some? && Inner(key) == segs && segs != [] && segs[|segs| - 1] != ""
    ensures EndsLike(Resolve(root, key).value, segs[|segs| - 1])
  {
    JoinStack(root, key);
    PrintedEnd(Rooted(root), Stack(root), segs);
  }

  predicate EndsLike(p: string, s: string) {
    p != "" && s != "" && p[|p| - 1] == s[|s| - 1]
  }

  lemma ScratchApart(p: string, q: string, last: string)
    requires EndsLike(q, last) && last[|last| - 1] != 'p'
    ensures p + ".tmp" != q
  {
    assert (p + ".tmp")[|p| + 3] == 'p';
  }
}
