/** The string functions of the Go standard library the program leans on. */
module Strings {
  import opened Types

  /** unicode.IsSpace. */
  predicate IsSpace(c: char) {
    || '\t' <= c <= '\r' || c == ' ' || c == '\U{85}' || c == '\U{A0}' || c == '\U{1680}'
    || '\U{2000}' <= c <= '\U{200A}' || c == '\U{2028}' || c == '\U{2029}' || c == '\U{202F}'
    || c == '\U{205F}' || c == '\U{3000}'
  }

  function TrimLeft(s: string): (r: string)
    ensures |r| <= |s|
  {
    if |s| > 0 && IsSpace(s[0]) then TrimLeft(s[1..]) else s
  }

  function TrimRight(s: string): (r: string)
    ensures |r| <= |s|
  {
    if |s| > 0 && IsSpace(s[|s| - 1]) then TrimRight(s[..|s| - 1]) else s
  }

  function TrimSpace(s: string): string {
    TrimRight(TrimLeft(s))
  }

  /** No white space at either end. */
  predicate Trimmed(s: string) {
    |s| > 0 ==> !IsSpace(s[0]) && !IsSpace(s[|s| - 1])
  }

  lemma TrimOfTrimmed(s: string)
    requires Trimmed(s)
    ensures TrimSpace(s) == s
  {
  }

  /** The 25 white space characters, one by one. */
  const SPACES: string :=
    "\t\n\U{B}\U{C}\r \U{85}\U{A0}\U{1680}\U{2000}\U{2001}\U{2002}\U{2003}\U{2004}\U{2005}\U{2006}\U{2007}\U{2008}\U{2009}\U{200A}\U{2028}\U{2029}\U{202F}\U{205F}\U{3000}"

  lemma SpacesListed(c: char)
    ensures IsSpace(c) <==> c in SPACES
  {
    if IsSpace(c) {
      assert SPACES[0] == '\t' && SPACES[1] == '\n' && SPACES[2] == '\U{B}' && SPACES[3] == '\U{C}' && SPACES[4] == '\r';
      assert SPACES[5] == ' ' && SPACES[6] == '\U{85}' && SPACES[7] == '\U{A0}' && SPACES[8] == '\U{1680}';
      assert SPACES[9] == '\U{2000}' && SPACES[10] == '\U{2001}' && SPACES[11] == '\U{2002}' && SPACES[12] == '\U{2003}';
      assert SPACES[13] == '\U{2004}' && SPACES[14] == '\U{2005}' && SPACES[15] == '\U{2006}' && SPACES[16] == '\U{2007}';
      assert SPACES[17] == '\U{2008}' && SPACES[18] == '\U{2009}' && SPACES[19] == '\U{200A}' && SPACES[20] == '\U{2028}';
      assert SPACES[21] == '\U{2029}' && SPACES[22] == '\U{202F}' && SPACES[23] == '\U{205F}' && SPACES[24] == '\U{3000}';
    }
  }

  predicate AllSpaces(s: string) {
    forall i :: 0 <= i < |s| ==> IsSpace(s[i])
  }

  lemma {:induction false} TrimLeftExact(s: string) returns (cut: string)
    ensures s == cut + TrimLeft(s) && AllSpaces(cut) && (TrimLeft(s) != "" ==> !IsSpace(TrimLeft(s)[0]))
  {
    if |s| > 0 && IsSpace(s[0]) {
      cut := TrimLeftExact(s[1..]);
      cut := [s[0]] + cut;
    } else {
      cut := "";
    }
  }

  lemma {:induction false} TrimRightExact(s: string) returns (cut: string)
    ensures s == TrimRight(s) + cut && AllSpaces(cut)
    ensures TrimRight(s) != "" ==> !IsSpace(TrimRight(s)[|TrimRight(s)| - 1])
  {
    if |s| > 0 && IsSpace(s[|s| - 1]) {
      cut := TrimRightExact(s[..|s| - 1]);
      cut := cut + [s[|s| - 1]];
    } else {
      cut := "";
    }
  }

  /** Trimming takes white space off both ends, all of it and nothing else. */
  lemma TrimExact(s: string) returns (before: string, after: string)
    ensures s == before + TrimSpace(s) + after && AllSpaces(before) && AllSpaces(after) && Trimmed(TrimSpace(s))
  {
    before := TrimLeftExact(s);
    after := TrimRightExact(TrimLeft(s));
  }

  lemma {:induction false} TrimLeftPadded(before: string, s: string)
    requires AllSpaces(before)
    ensures TrimLeft(before + s) == TrimLeft(s)
  {
    if |before| > 0 {
      assert (before + s)[1..] == before[1..] + s;
      TrimLeftPadded(before[1..], s);
    } else {
      assert before + s == s;
    }
  }

  lemma {:induction false} TrimRightPadded(s: string, after: string)
    requires AllSpaces(after)
    ensures TrimRight(s + after) == TrimRight(s)
  {
    if |after| > 0 {
      assert (s + after)[..|s + after| - 1] == s + after[..|after| - 1];
      TrimRightPadded(s, after[..|after| - 1]);
    } else {
      assert s + after == s;
    }
  }

  /** White space around a string that has none at its ends comes off again. */
  lemma TrimPadded(before: string, s: string, after: string)
    requires AllSpaces(before) && AllSpaces(after) && Trimmed(s)
    ensures TrimSpace(before + s + after) == s
  {
    assert before + s + after == before + (s + after);
    TrimLeftPadded(before, s + after);
    if s == "" {
      assert s + after == after && after + "" == after;
      TrimLeftPadded(after, "");
    } else {
      assert (s + after)[0] == s[0];
      TrimRightPadded(s, after);
    }
  }

  lemma TrimAfter(s: string, after: string)
    requires AllSpaces(after) && Trimmed(s)
    ensures TrimSpace(s + after) == s
  {
    TrimPadded("", s, after);
    assert "" + s + after == s + after;
  }

  lemma TrimBefore(before: string, s: string)
    requires AllSpaces(before) && Trimmed(s)
    ensures TrimSpace(before + s) == s
  {
    TrimPadded(before, s, "");
    assert before + s + "" == before + s;
  }

  /** strings.ReplaceAll(s, c, ""). */
  function Without(s: string, c: char): string {
    if |s| == 0 then "" else (if s[0] == c then "" else [s[0]]) + Without(s[1..], c)
  }

  lemma {:induction false} WithoutDrops(s: string, c: char, d: char)
    ensures c !in Without(s, c)
    ensures d !in s ==> d !in Without(s, c)
  {
    if |s| > 0 {
      WithoutDrops(s[1..], c, d);
    }
  }

  lemma {:induction false} WithoutAppend(s: string, t: string, c: char)
    ensures Without(s + t, c) == Without(s, c) + Without(t, c)
  {
    if |s| == 0 {
      assert s + t == t;
    } else {
      assert (s + t)[1..] == s[1..] + t;
      WithoutAppend(s[1..], t, c);
    }
  }

  lemma WithoutOne(c: char, d: char)
    ensures Without([d], c) == if d == c then "" else [d]
  {
    assert [d][1..] == "";
  }

  /** One more character in front of split parts. */
  function Glue(c: char, sep: char, parts: seq<string>): (r: seq<string>)
    requires |parts| > 0
    ensures |r| > 0
  {
    if c == sep then [""] + parts else [[c] + parts[0]] + parts[1..]
  }

  /** strings.Split on a one-character separator. */
  function Split(s: string, sep: char): (r: seq<string>)
    ensures |r| > 0
  {
    if |s| == 0 then [""] else Glue(s[0], sep, Split(s[1..], sep))
  }

  /** strings.Join. */
  function Join(parts: seq<string>, sep: char): string {
    if |parts| == 0 then ""
    else if |parts| == 1 then parts[0]
    else parts[0] + [sep] + Join(parts[1..], sep)
  }

  lemma {:induction false} SplitPlain(s: string, sep: char)
    requires sep !in s
    ensures Split(s, sep) == [s]
  {
    if |s| > 0 {
      SplitPlain(s[1..], sep);
      assert [s[0]] + s[1..] == s;
    }
  }

  lemma {:induction false} SplitAfter(s: string, sep: char, t: string)
    requires sep !in s
    ensures Split(s + [sep] + t, sep) == [s] + Split(t, sep)
  {
    if |s| == 0 {
      assert s + [sep] + t == [sep] + t;
      assert ([sep] + t)[1..] == t;
    } else {
      SplitAfter(s[1..], sep, t);
      assert (s + [sep] + t)[1..] == s[1..] + [sep] + t;
      assert [s[0]] + s[1..] == s;
    }
  }

  lemma GlueAppend(c: char, sep: char, a: seq<string>, b: seq<string>)
    requires |a| > 0
    ensures Glue(c, sep, a + b) == Glue(c, sep, a) + b
  {
    assert (a + b)[1..] == a[1..] + b;
  }

  lemma {:induction false} SplitAppend(s: string, sep: char, t: string)
    ensures Split(s + [sep] + t, sep) == Split(s, sep) + Split(t, sep)
  {
    if |s| == 0 {
      assert s + [sep] + t == [sep] + t;
      assert ([sep] + t)[1..] == t;
    } else {
      SplitAppend(s[1..], sep, t);
      assert (s + [sep] + t)[1..] == s[1..] + [sep] + t;
      GlueAppend(s[0], sep, Split(s[1..], sep), Split(t, sep));
    }
  }

  lemma {:induction false} JoinAppend(a: seq<string>, b: seq<string>, sep: char)
    requires |a| > 0 && |b| > 0
    ensures Join(a + b, sep) == Join(a, sep) + [sep] + Join(b, sep)
  {
    assert (a + b)[1..] == a[1..] + b;
    if |a| > 1 {
      JoinAppend(a[1..], b, sep);
    } else {
      assert a[1..] + b == b;
    }
  }

  /** strings.SplitN(s, sep, 2): the parts around the first separator, if there is one. */
  function Cut(s: string, sep: char): (r: Option<(string, string)>)
    ensures r.Some? ==> sep !in r.value.0 && s == r.value.0 + [sep] + r.value.1
    ensures r.None? <==> sep !in s
  {
    if |s| == 0 then None
    else if s[0] == sep then Some(("", s[1..]))
    else match Cut(s[1..], sep)
      case None => None
      case Some(p) => Some(([s[0]] + p.0, p.1))
  }

  lemma {:induction false} CutAt(a: string, sep: char, b: string)
    requires sep !in a
    ensures Cut(a + [sep] + b, sep) == Some((a, b))
  {
    var s := a + [sep] + b;
    if |a| > 0 {
      assert s[1..] == a[1..] + [sep] + b;
      CutAt(a[1..], sep, b);
      assert [a[0]] + a[1..] == a;
    }
  }

  predicate HasPrefix(s: string, prefix: string) {
    prefix <= s
  }

  /** Splitting undoes joining when no part holds the separator. */
  lemma {:induction false} SplitJoin(parts: seq<string>, sep: char)
    requires |parts| > 0 && forall i :: 0 <= i < |parts| ==> sep !in parts[i]
    ensures Split(Join(parts, sep), sep) == parts
  {
    if |parts| == 1 {
      SplitPlain(parts[0], sep);
    } else {
      SplitJoin(parts[1..], sep);
      SplitAfter(parts[0], sep, Join(parts[1..], sep));
      assert [parts[0]] + parts[1..] == parts;
    }
  }

  lemma JoinFew(a: string, b: string, sep: char)
    ensures Join([], sep) == "" && Join([a], sep) == a && Join([a, b], sep) == a + [sep] + b
  {
    assert [a, b][1..] == [b];
  }

  /** Joining undoes splitting, always; and no part holds the separator. */
  lemma {:induction false} JoinSplit(s: string, sep: char)
    ensures Join(Split(s, sep), sep) == s
    ensures forall i :: 0 <= i < |Split(s, sep)| ==> sep !in Split(s, sep)[i]
  {
    if |s| > 0 {
      JoinSplit(s[1..], sep);
      var rest := Split(s[1..], sep);
      if s[0] == sep {
        assert Split(s, sep)[1..] == rest;
      } else {
        assert Split(s, sep)[1..] == rest[1..];
        if |rest| > 1 {
          assert Join(Split(s, sep), sep) == [s[0]] + (rest[0] + [sep] + Join(rest[1..], sep));
        }
      }
    }
  }

  /** normalizeNodeName: trim, then drop every backslash and slash. */
  function NormalizeNodeName(name: string): string {
    Without(Without(TrimSpace(name), '\\'), '/')
  }

  lemma NormalizedPlain(name: string)
    ensures '/' !in NormalizeNodeName(name) && '\\' !in NormalizeNodeName(name)
  {
    WithoutDrops(TrimSpace(name), '\\', '/');
    WithoutDrops(Without(TrimSpace(name), '\\'), '/', '\\');
  }

  lemma {:induction false} WithoutShort(s: string, c: char)
    ensures |Without(s, c)| <= |s|
    ensures c !in s ==> Without(s, c) == s
  {
    if |s| > 0 {
      WithoutShort(s[1..], c);
      assert [s[0]] + s[1..] == s;
    }
  }

  /** The parts between slashes, one after the other. */
  function Concat(parts: seq<string>): string {
    if |parts| == 0 then "" else parts[0] + Concat(parts[1..])
  }

  lemma WithoutBetween(a: string, c: char, b: string)
    requires c !in a
    ensures Without(a + [c] + b, c) == a + Without(b, c)
  {
    WithoutAppend(a + [c], b, c);
    WithoutAppend(a, [c], c);
    WithoutOne(c, c);
    WithoutShort(a, c);
  }

  lemma {:induction false} WithoutJoin(parts: seq<string>, c: char)
    requires forall i :: 0 <= i < |parts| ==> c !in parts[i]
    ensures Without(Join(parts, c), c) == Concat(parts)
  {
    if |parts| == 1 {
      WithoutShort(parts[0], c);
      assert Concat(parts[1..]) == "";
    } else if |parts| > 1 {
      WithoutBetween(parts[0], c, Join(parts[1..], c));
      WithoutJoin(parts[1..], c);
    }
  }

  /** A name is put together from what stands between its slashes, white space at its two ends apart: nothing else is
      lost and nothing is added; and likewise with backslashes. */
  lemma NormalizeParts(before: string, parts: seq<string>, after: string, slash: char)
    requires slash == '/' || slash == '\\'
    requires forall i :: 0 <= i < |parts| ==> '/' !in parts[i] && '\\' !in parts[i]
    requires AllSpaces(before) && AllSpaces(after) && Trimmed(Join(parts, slash))
    ensures NormalizeNodeName(before + Join(parts, slash) + after) == Concat(parts)
  {
    TrimPadded(before, Join(parts, slash), after);
    WithoutJoin(parts, slash);
    var other := if slash == '/' then '\\' else '/';
    JoinLacks(parts, slash, other);
    ConcatLacks(parts, other);
    ConcatLacks(parts, slash);
    WithoutShort(Join(parts, slash), other);
    WithoutShort(Concat(parts), other);
    WithoutShort(Concat(parts), slash);
  }

  lemma {:induction false} JoinLacks(parts: seq<string>, sep: char, c: char)
    requires c != sep && forall i :: 0 <= i < |parts| ==> c !in parts[i]
    ensures c !in Join(parts, sep)
  {
    if |parts| > 1 {
      JoinLacks(parts[1..], sep, c);
    }
  }

  lemma {:induction false} ConcatLacks(parts: seq<string>, c: char)
    requires forall i :: 0 <= i < |parts| ==> c !in parts[i]
    ensures c !in Concat(parts)
  {
    if |parts| > 0 {
      ConcatLacks(parts[1..], c);
    }
  }

  lemma NormalizeShort(name: string)
    ensures |NormalizeNodeName(name)| <= |TrimSpace(name)|
  {
    WithoutShort(TrimSpace(name), '\\');
    WithoutShort(Without(TrimSpace(name), '\\'), '/');
  }

  lemma NormalizeTrimmed(r: string)
    requires Trimmed(r) && '/' !in r && '\\' !in r
    ensures NormalizeNodeName(r) == r
  {
    TrimOfTrimmed(r);
    WithoutShort(r, '\\');
    WithoutShort(r, '/');
  }

  lemma TrimUntrimmed(r: string)
    requires !Trimmed(r)
    ensures |TrimSpace(r)| < |r|
  {
  }

  /** Trimming comes before the slashes go, so normalizing is not idempotent: it is on a name exactly when no white
      space was hidden behind slashes at an end. */
  lemma NormalizeTwice(name: string)
    ensures NormalizeNodeName(NormalizeNodeName(name)) == NormalizeNodeName(name) <==> Trimmed(NormalizeNodeName(name))
  {
    var r := NormalizeNodeName(name);
    if Trimmed(r) {
      NormalizedPlain(name);
      NormalizeTrimmed(r);
    } else {
      TrimUntrimmed(r);
      NormalizeShort(r);
    }
  }

  lemma NormalizeOnceOnly()
    ensures NormalizeNodeName("/ a") == " a" && NormalizeNodeName(" a") == "a"
  {
    assert TrimSpace("/ a") == "/ a" by {
      TrimOfTrimmed("/ a");
    }
    assert "/ a"[1..] == " a" && " a"[1..] == "a" && "a"[1..] == "";
    assert TrimSpace(" a") == "a" by {
      assert TrimLeft("a") == "a";
      TrimOfTrimmed("a");
    }
    assert Without("/ a", '\\') == "/ a" by {
      WithoutShort("/ a", '\\');
    }
    WithoutShort(" a", '/');
    WithoutShort("a", '\\');
    WithoutShort("a", '/');
  }
}
