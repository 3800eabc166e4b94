/** The stored form of a password hash (auth/password.go).  The key derivation is a parameter: only what is
    printed, parsed and compared is modelled. */
module Password {
  import opened Types
  import opened Strings
  import opened Decimal
  import Base64

  const MEMORY: nat := 64 * 1024
  const ITERATIONS: nat := 3
  const PARALLELISM: nat := 2
  const KEY_LENGTH: nat := 32

  /** argon2.IDKey(password, salt, time, memory, threads, keyLen). */
  type Kdf = (Bytes, Bytes, nat, nat, nat, nat) -> Bytes

  datatype Parsed = Parsed(memory: nat, iterations: nat, parallelism: nat, salt: Bytes, hash: Bytes)

  function PrintParams(m: nat, t: nat, p: nat): string {
    "m=" + Print(m) + ",t=" + Print(t) + ",p=" + Print(p)
  }

  /** The random salt is an argument. */
  function HashPassword(kdf: Kdf, password: Bytes, salt: Bytes): string {
    var hash := kdf(password, salt, ITERATIONS, MEMORY, PARALLELISM, KEY_LENGTH);
    "$argon2id$v=19$" + PrintParams(MEMORY, ITERATIONS, PARALLELISM) + "$"
    + Base64.Encode(salt, false) + "$" + Base64.Encode(hash, false)
  }

  // ---- fmt.Sscanf("m=%d,t=%d,p=%d") -----------------------------------------------------------------

  /** The digits at the front. */
  function DigitsOf(s: string): (r: string)
    ensures r <= s && AllDigits(r)
    ensures |r| == |s| || !IsDigit(s[|r|])
  {
    if |s| > 0 && IsDigit(s[0]) then [s[0]] + DigitsOf(s[1..]) else ""
  }

  function SkipBlanks(s: string): string {
    if |s| > 0 && IsSpace(s[0]) && s[0] != '\n' then SkipBlanks(s[1..]) else s
  }

  /** %d into an unsigned variable: blanks, at least one digit, and a value that fits. */
  function ScanUint(s: string, limit: nat): Option<(nat, string)> {
    var t := SkipBlanks(s);
    var digits := DigitsOf(t);
    if digits == "" || Value(digits) > limit then None else Some((Value(digits), t[|digits|..]))
  }

  function ScanField(s: string, tag: string, limit: nat): Option<(nat, string)> {
    if HasPrefix(s, tag) then ScanUint(s[|tag|..], limit) else None
  }

  /** Input after the last field is not looked at. */
  function ScanParams(s: string): Option<(nat, nat, nat)> {
    match ScanField(s, "m=", 0xffff_ffff)
    case None => None
    case Some((m, afterM)) =>
      match ScanField(afterM, ",t=", 0xffff_ffff)
      case None => None
      case Some((t, afterT)) =>
        match ScanField(afterT, ",p=", 0xff)
        case None => None
        case Some((p, _)) => Some((m, t, p))
  }

  function ParseHash(encoded: string): Option<Parsed> {
    var parts := Split(encoded, '$');
    if |parts| != 6 || parts[1] != "argon2id" then None
    else
      match ScanParams(parts[3])
      case None => None
      case Some((m, t, p)) =>
        match Base64.Decode(parts[4], false)
        case None => None
        case Some(salt) =>
          match Base64.Decode(parts[5], false)
          case None => None
          case Some(hash) => Some(Parsed(m, t, p, salt, hash))
  }

  function VerifyPassword(kdf: Kdf, encoded: string, password: Bytes): bool {
    match ParseHash(encoded)
    case None => false
    case Some(h) => kdf(password, h.salt, h.iterations, h.memory, h.parallelism, |h.hash|) == h.hash
  }

  // ---- round trip ------------------------------------------------------------------------------------

  lemma {:induction false} DigitsThenOther(digits: string, rest: string)
    requires AllDigits(digits) && (rest == "" || !IsDigit(rest[0]))
    ensures DigitsOf(digits + rest) == digits
  {
    if |digits| == 0 {
      assert digits + rest == rest;
    } else {
      assert (digits + rest)[1..] == digits[1..] + rest;
      DigitsThenOther(digits[1..], rest);
    }
  }

  lemma FieldRoundTrip(tag: string, n: nat, rest: string, limit: nat)
    requires n <= limit && (rest == "" || !IsDigit(rest[0]))
    ensures ScanField(tag + Print(n) + rest, tag, limit) == Some((n, rest))
  {
    var s := tag + Print(n) + rest;
    assert s[|tag|..] == Print(n) + rest;
    PrintValue(n);
    assert IsDigit((Print(n) + rest)[0]);
    DigitsThenOther(Print(n), rest);
    assert (Print(n) + rest)[|Print(n)|..] == rest;
  }

  predicate Blanks(s: string) {
    forall i :: 0 <= i < |s| ==> IsSpace(s[i]) && s[i] != '\n'
  }

  lemma {:induction false} BlanksSkipped(blanks: string, s: string)
    requires Blanks(blanks) && (s == "" || s[0] == '\n' || !IsSpace(s[0]))
    ensures SkipBlanks(blanks + s) == s
  {
    if |blanks| == 0 {
      assert blanks + s == s;
    } else {
      assert (blanks + s)[1..] == blanks[1..] + s;
      BlanksSkipped(blanks[1..], s);
    }
  }

  /** Blanks before a number are skipped; a line break there is not. */
  lemma NumberAfterBlanks(tag: string, blanks: string, n: nat, rest: string, limit: nat)
    requires Blanks(blanks) && n <= limit && (rest == "" || !IsDigit(rest[0]))
    ensures ScanField(tag + (blanks + (Print(n) + rest)), tag, limit) == Some((n, rest))
    ensures ScanField(tag + (blanks + ("\n" + (Print(n) + rest))), tag, limit) == None
  {
    PrintValue(n);
    var number := Print(n) + rest;
    assert IsDigit(number[0]);
    BlanksSkipped(blanks, number);
    DigitsThenOther(Print(n), rest);
    assert number[|Print(n)|..] == rest;
    assert (tag + (blanks + number))[|tag|..] == blanks + number;
    var broken := "\n" + number;
    assert broken[0] == '\n';
    BlanksSkipped(blanks, broken);
    assert (tag + (blanks + broken))[|tag|..] == blanks + broken;
  }

  lemma ParamsRoundTrip(m: nat, t: nat, p: nat, after: string)
    requires m <= 0xffff_ffff && t <= 0xffff_ffff && p <= 0xff && (after == "" || !IsDigit(after[0]))
    ensures ScanParams(PrintParams(m, t, p) + after) == Some((m, t, p))
  {
    var s := PrintParams(m, t, p) + after;
    var afterT := ",p=" + Print(p) + after;
    var afterM := ",t=" + Print(t) + afterT;
    assert s == "m=" + Print(m) + afterM;
    assert afterM[0] == ',' && afterT[0] == ',';
    assert ScanField(s, "m=", 0xffff_ffff) == Some((m, afterM)) by {
      FieldRoundTrip("m=", m, afterM, 0xffff_ffff);
    }
    assert ScanField(afterM, ",t=", 0xffff_ffff) == Some((t, afterT)) by {
      FieldRoundTrip(",t=", t, afterT, 0xffff_ffff);
    }
    assert ScanField(afterT, ",p=", 0xff) == Some((p, after)) by {
      FieldRoundTrip(",p=", p, after, 0xff);
    }
  }

  lemma FieldsPlain(m: nat, t: nat, p: nat, data: Bytes)
    ensures '$' !in PrintParams(m, t, p) && '$' !in Base64.Encode(data, false)
  {
    PrintPlain(m);
    PrintPlain(t);
    PrintPlain(p);
    Base64.EncodePlain(data, false);
  }

  /** Parsing the stored form recovers exactly what was printed: the parameters, the salt and the hash. */
  lemma HashRoundTrip(kdf: Kdf, password: Bytes, salt: Bytes)
    ensures ParseHash(HashPassword(kdf, password, salt))
         == Some(Parsed(MEMORY, ITERATIONS, PARALLELISM, salt, kdf(password, salt, ITERATIONS, MEMORY, PARALLELISM, KEY_LENGTH)))
  {
    var hash := kdf(password, salt, ITERATIONS, MEMORY, PARALLELISM, KEY_LENGTH);
    var params := PrintParams(MEMORY, ITERATIONS, PARALLELISM);
    var s, h := Base64.Encode(salt, false), Base64.Encode(hash, false);
    var parts := ["", "argon2id", "v=19", params, s, h];
    FieldsPlain(MEMORY, ITERATIONS, PARALLELISM, salt);
    FieldsPlain(MEMORY, ITERATIONS, PARALLELISM, hash);
    SixParts(params, s, h);
    SplitJoin(parts, '$');
    ParamsRoundTrip(MEMORY, ITERATIONS, PARALLELISM, "");
    assert params + "" == params;
    Base64.RoundTrip(salt, false);
    Base64.RoundTrip(hash, false);
  }

  lemma SixParts(params: string, s: string, h: string)
    ensures Join(["", "argon2id", "v=19", params, s, h], '$') == "$argon2id$v=19$" + params + "$" + s + "$" + h
  {
    var tail := [params, s, h];
    assert ["", "argon2id", "v=19"] + tail == ["", "argon2id", "v=19", params, s, h];
    JoinAppend(["", "argon2id", "v=19"], tail, '$');
    assert ["", "argon2id", "v=19"][1..] == ["argon2id", "v=19"];
    assert ["argon2id", "v=19"][1..] == ["v=19"];
    assert Join(["", "argon2id", "v=19"], '$') == "$argon2id$v=19";
    assert tail[1..] == [s, h] && [s, h][1..] == [h];
    assert Join([s, h], '$') == s + "$" + h;
    assert Join(tail, '$') == params + "$" + (s + "$" + h);
  }

  /** What is stored, as text: argon2id, version 19, 64 MiB, three passes, two lanes, then salt and key; the key has
      32 bytes. */
  lemma StoredText(kdf: Kdf, password: Bytes, salt: Bytes)
    ensures HashPassword(kdf, password, salt)
         == "$argon2id$v=19$m=65536,t=3,p=2$" + Base64.Encode(salt, false) + "$"
            + Base64.Encode(kdf(password, salt, 3, 65536, 2, 32), false)
  {
    var salted, key := Base64.Encode(salt, false), Base64.Encode(kdf(password, salt, 3, 65536, 2, 32), false);
    PrintedNumbers();
    PrintedParams();
    SixParts("m=65536,t=3,p=2", salted, key);
  }

  lemma PrintedParams()
    ensures PrintParams(65536, 3, 2) == "m=65536,t=3,p=2"
  {
    PrintedNumbers();
    assert PrintParams(65536, 3, 2) == "m=" + "65536" + ",t=" + "3" + ",p=" + "2";
  }

  lemma PrintedNumbers()
    ensures Print(65536) == "65536" && Print(3) == "3" && Print(2) == "2"
  {
    assert Print(6) == "6";
    assert Print(65) == "65";
    assert Print(655) == "655";
    assert Print(6553) == "6553";
  }

  /** A stored form is refused unless it has six fields and names argon2id. */
  lemma RefusedForms(kdf: Kdf, encoded: string, password: Bytes)
    requires |Split(encoded, '$')| != 6 || Split(encoded, '$')[1] != "argon2id"
    ensures !VerifyPassword(kdf, encoded, password)
  {
  }

  /** And when a parameter does not fit its variable: 32 bits for memory and passes, 8 bits for lanes. */
  lemma RefusedParams(m: nat, t: nat, p: nat)
    requires m >= 0x1_0000_0000 || t >= 0x1_0000_0000 || p >= 0x100
    ensures ScanParams(PrintParams(m, t, p)) == None
  {
    var afterT := ",p=" + Print(p);
    var afterM := ",t=" + Print(t) + afterT;
    assert PrintParams(m, t, p) == "m=" + Print(m) + afterM;
    assert Print(p) + "" == Print(p) && afterT + "" == afterT;
    var big := m + t + p;
    FieldTooBig("m=", m, afterM, 0xffff_ffff);
    FieldTooBig(",t=", t, afterT, 0xffff_ffff);
    FieldTooBig(",p=", p, "", 0xff);
    assert ",p=" + Print(p) + "" == afterT;
    if m < 0x1_0000_0000 {
      FieldRoundTrip("m=", m, afterM, 0xffff_ffff);
      if t < 0x1_0000_0000 {
        FieldRoundTrip(",t=", t, afterT, 0xffff_ffff);
      }
    }
  }

  lemma FieldTooBig(tag: string, n: nat, rest: string, limit: nat)
    requires rest == "" || !IsDigit(rest[0])
    ensures n > limit ==> ScanField(tag + Print(n) + rest, tag, limit) == None
  {
    FieldRoundTrip(tag, n, rest, n);
    var s := tag + Print(n) + rest;
    assert s[|tag|..] == Print(n) + rest;
    PrintValue(n);
    assert IsDigit((Print(n) + rest)[0]);
    DigitsThenOther(Print(n), rest);
  }

  /** The key is derived again with the parameters, the salt and the length that are stored. */
  lemma VerifyMeaning(kdf: Kdf, m: nat, t: nat, p: nat, salt: Bytes, hash: Bytes, candidate: Bytes)
    requires m <= 0xffff_ffff && t <= 0xffff_ffff && p <= 0xff
    ensures VerifyPassword(kdf, Join(["", "argon2id", "v=19", PrintParams(m, t, p) + "",
                                      Base64.Encode(salt, false), Base64.Encode(hash, false)], '$'), candidate)
            <==> kdf(candidate, salt, t, m, p, |hash|) == hash
  {
    UncheckedParts("", "v=19", m, t, p, "", salt, hash);
  }

  /** Two passwords derive the same key under one salt. */
  predicate SameKey(kdf: Kdf, salt: Bytes, a: Bytes, b: Bytes) {
    kdf(a, salt, ITERATIONS, MEMORY, PARALLELISM, KEY_LENGTH) == kdf(b, salt, ITERATIONS, MEMORY, PARALLELISM, KEY_LENGTH)
  }

  /** A password is accepted against the stored form of another exactly when the two derive the same key;
      in particular every password is accepted against its own. */
  lemma VerifyMatches(kdf: Kdf, password: Bytes, salt: Bytes, candidate: Bytes)
    requires |kdf(password, salt, ITERATIONS, MEMORY, PARALLELISM, KEY_LENGTH)| == KEY_LENGTH
    ensures VerifyPassword(kdf, HashPassword(kdf, password, salt), candidate) <==> SameKey(kdf, salt, candidate, password)
    ensures VerifyPassword(kdf, HashPassword(kdf, password, salt), password)
  {
    HashRoundTrip(kdf, password, salt);
  }

  /** Nothing before the first dollar sign, in the version field, or after the parameters is checked. */
  lemma UncheckedParts(before: string, version: string, m: nat, t: nat, p: nat, after: string, salt: Bytes, hash: Bytes)
    requires m <= 0xffff_ffff && t <= 0xffff_ffff && p <= 0xff
    requires '$' !in before && '$' !in version && '$' !in after && (after == "" || !IsDigit(after[0]))
    ensures ParseHash(Join([before, "argon2id", version, PrintParams(m, t, p) + after,
                            Base64.Encode(salt, false), Base64.Encode(hash, false)], '$'))
         == Some(Parsed(m, t, p, salt, hash))
  {
    var params := PrintParams(m, t, p) + after;
    var parts := [before, "argon2id", version, params, Base64.Encode(salt, false), Base64.Encode(hash, false)];
    FieldsPlain(m, t, p, salt);
    FieldsPlain(m, t, p, hash);
    SplitJoin(parts, '$');
    ParamsRoundTrip(m, t, p, after);
    Base64.RoundTrip(salt, false);
    Base64.RoundTrip(hash, false);
  }
}
