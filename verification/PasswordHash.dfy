/** Password hashes as text (internal/auth/password.go): `$argon2id$v=19$m=M,t=T,p=P$SALT$KEY`,
    version 0x13 of RFC 9106. */
module PasswordHash {
  import opened Wrappers
  import opened Text
  import opened Base64

  type Uint32 = n: int | 0 <= n < 0x1_0000_0000

  type Uint8 = n: int | 0 <= n < 0x100

  datatype Params = Params(time: Uint32, memory: Uint32, parallelism: Uint8)

  datatype Decoded = Decoded(params: Params, salt: seq<Byte>, hash: seq<Byte>)

  datatype FormatError = WrongSegments(n: nat) | NotArgon2id | UnsupportedVersion | BadParams | BadSalt | BadHash

  // ---- decimal numbers, as fmt prints and scans them ----

  function Digit(n: int): char
    requires 0 <= n < 10
  {
    ('0' as int + n) as char
  }

  lemma DigitsInOrder(n: int)
    requires 0 <= n < 9
    ensures Digit(0) == '0' && Digit(9) == '9' && Digit(n + 1) as int == Digit(n) as int + 1
  {
  }

  predicate IsDigit(c: char) {
    '0' <= c <= '9'
  }

  function Print(n: nat): string {
    if n < 10 then [Digit(n)] else Print(n / 10) + [Digit(n % 10)]
  }

  /** How many digits the text starts with. */
  function DigitRun(s: string): (n: nat)
    ensures n <= |s| && (forall i :: 0 <= i < n ==> IsDigit(s[i])) && (n < |s| ==> !IsDigit(s[n]))
  {
    if s == "" || !IsDigit(s[0]) then 0 else 1 + DigitRun(s[1..])
  }

  function DigitValue(c: char): nat
    requires IsDigit(c)
  {
    c as int - '0' as int
  }

  function ValueOf(digits: string): nat
    requires forall i :: 0 <= i < |digits| ==> IsDigit(digits[i])
  {
    if digits == "" then 0
    else ValueOf(digits[..|digits| - 1]) * 10 + DigitValue(digits[|digits| - 1])
  }

  /** Spaces before a number are skipped, but a line break there is an error. */
  function SkipSpace(s: string): Option<string> {
    if s == "" || !IsSpace(s[0]) then Some(s)
    else if s[0] == '\n' then None
    else SkipSpace(s[1..])
  }

  /** %d into an unsigned variable: no sign, and values from `limit` on are errors. */
  function ScanNumber(s: string, limit: nat): Option<(nat, string)> {
    match SkipSpace(s)
    case None => None
    case Some(t) =>
      var n := DigitRun(t);
      if n == 0 || ValueOf(t[..n]) >= limit then None else Some((ValueOf(t[..n]), t[n..]))
  }

  function ScanLiteral(s: string, lit: string): Option<string> {
    if lit <= s then Some(s[|lit|..]) else None
  }

  function ScanField(s: string, lit: string, limit: nat): Option<(nat, string)> {
    match ScanLiteral(s, lit)
    case None => None
    case Some(t) => ScanNumber(t, limit)
  }

  /** Sscanf with "m=%d,t=%d,p=%d"; what follows the last number is not looked at. */
  function ScanParams(s: string): Option<Params> {
    match ScanField(s, "m=", 0x1_0000_0000)
    case None => None
    case Some((m, s1)) =>
      match ScanField(s1, ",t=", 0x1_0000_0000)
      case None => None
      case Some((t, s2)) =>
        match ScanField(s2, ",p=", 0x100)
        case None => None
        case Some((p, _)) =>
          if m < 0x1_0000_0000 && t < 0x1_0000_0000 && p < 0x100 then Some(Params(t, m, p)) else None
  }

  function PrintParams(p: Params): string {
    "m=" + (Print(p.memory) + (",t=" + (Print(p.time) + (",p=" + Print(p.parallelism)))))
  }

  // ---- the codec ----

  function Encode(p: Params, salt: seq<Byte>, key: seq<Byte>): string {
    "$argon2id$v=19$" + (PrintParams(p) + "$" + (Base64.Encode(salt) + "$" + Base64.Encode(key)))
  }

  function Decode(encoded: string): Result<Decoded, FormatError> {
    DecodeParts(Split(encoded, '$'))
  }

  function DecodeParts(parts: seq<string>): Result<Decoded, FormatError> {
    if |parts| != 6 then Err(WrongSegments(|parts|))
    else if parts[1] != "argon2id" then Err(NotArgon2id)
    else if parts[2] != "v=19" then Err(UnsupportedVersion)
    else
      match ScanParams(parts[3])
      case None => Err(BadParams)
      case Some(p) =>
        match Base64.Decode(parts[4])
        case None => Err(BadSalt)
        case Some(salt) =>
          match Base64.Decode(parts[5])
          case None => Err(BadHash)
          case Some(hash) => Ok(Decoded(p, salt, hash))
  }

  // ---- numbers read back ----

  lemma {:induction false} PrintIsDigits(n: nat)
    ensures |Print(n)| > 0 && forall i :: 0 <= i < |Print(n)| ==> IsDigit(Print(n)[i])
    ensures ValueOf(Print(n)) == n
  {
    if n >= 10 {
      PrintIsDigits(n / 10);
      assert Print(n)[..|Print(n)| - 1] == Print(n / 10);
    }
  }

  lemma NumberReadsBack(n: nat, limit: nat, rest: string)
    requires n < limit && (rest == "" || !IsDigit(rest[0]))
    ensures ScanNumber(Print(n) + rest, limit) == Some((n, rest))
  {
    PrintIsDigits(n);
    var t := Print(n) + rest;
    assert t[0] == Print(n)[0] && !IsSpace(t[0]) by { DigitIsNotSpace(Print(n)[0]); }
    var k := DigitRun(t);
    assert k == |Print(n)| by {
      assert forall i :: 0 <= i < |Print(n)| ==> t[i] == Print(n)[i];
      assert rest != "" ==> t[|Print(n)|] == rest[0];
    }
    assert t[..k] == Print(n) && t[k..] == rest;
  }

  lemma DigitIsNotSpace(c: char)
    requires IsDigit(c)
    ensures !IsSpace(c)
  {
  }

  lemma FieldReadsBack(lit: string, n: nat, limit: nat, rest: string)
    requires n < limit && (rest == "" || !IsDigit(rest[0]))
    ensures ScanField(lit + (Print(n) + rest), lit, limit) == Some((n, rest))
  {
    var t := lit + (Print(n) + rest);
    assert lit <= t && t[|lit|..] == Print(n) + rest;
    NumberReadsBack(n, limit, rest);
  }

  lemma ParamsReadBack(p: Params)
    ensures ScanParams(PrintParams(p)) == Some(p)
  {
    var s2 := ",p=" + Print(p.parallelism);
    var s1 := ",t=" + (Print(p.time) + s2);
    assert Print(p.parallelism) + "" == Print(p.parallelism);
    FieldReadsBack(",p=", p.parallelism, 0x100, "");
    FieldReadsBack(",t=", p.time, 0x1_0000_0000, s2);
    FieldReadsBack("m=", p.memory, 0x1_0000_0000, s1);
  }

  lemma NoDollarInNumber(n: nat)
    ensures '$' !in Print(n)
  {
    PrintIsDigits(n);
  }

  lemma NoDollarInParams(p: Params)
    ensures '$' !in PrintParams(p)
  {
    NoDollarInNumber(p.memory);
    NoDollarInNumber(p.time);
    NoDollarInNumber(p.parallelism);
  }

  // ---- the round trip ----

  function Segments(p: Params, salt: seq<Byte>, key: seq<Byte>): seq<string> {
    ["", "argon2id", "v=19", PrintParams(p), Base64.Encode(salt), Base64.Encode(key)]
  }

  lemma Join2(a: string, parts: seq<string>)
    requires parts != []
    ensures Join([a] + parts, "$") == a + "$" + Join(parts, "$")
  {
    assert ([a] + parts)[1..] == parts;
  }

  lemma HeaderJoin(tail: string)
    ensures "" + "$" + ("argon2id" + "$" + ("v=19" + "$" + tail)) == "$argon2id$v=19$" + tail
  {
    Assoc("argon2id$", "v=19$", tail);
    Assoc("$", "argon2id$v=19$", tail);
    assert "" + "$" == "$" && "argon2id" + "$" == "argon2id$" && "v=19" + "$" == "v=19$";
    assert "argon2id$" + "v=19$" == "argon2id$v=19$";
    assert "$" + "argon2id$v=19$" == "$argon2id$v=19$";
  }

  lemma EncodedIsJoined(p: Params, salt: seq<Byte>, key: seq<Byte>)
    ensures Encode(p, salt, key) == Join(Segments(p, salt, key), "$")
  {
    var d, e, f := PrintParams(p), Base64.Encode(salt), Base64.Encode(key);
    Join2(e, [f]);
    Join2(d, [e, f]);
    Join2("v=19", [d, e, f]);
    Join2("argon2id", ["v=19", d, e, f]);
    Join2("", ["argon2id", "v=19", d, e, f]);
    HeaderJoin(Join([d, e, f], "$"));
  }

  lemma SegmentsOfEncoded(p: Params, salt: seq<Byte>, key: seq<Byte>)
    ensures Split(Encode(p, salt, key), '$') == Segments(p, salt, key)
  {
    NoDollarInParams(p);
    EncodedIsPlain(salt);
    EncodedIsPlain(key);
    EncodedIsJoined(p, salt, key);
    SplitJoin(Segments(p, salt, key), '$');
  }

  lemma PartsDecode(a: string, d: string, e: string, f: string, p: Params, salt: seq<Byte>, key: seq<Byte>)
    requires ScanParams(d) == Some(p) && Base64.Decode(e) == Some(salt) && Base64.Decode(f) == Some(key)
    ensures DecodeParts([a, "argon2id", "v=19", d, e, f]) == Ok(Decoded(p, salt, key))
  {
  }

  /** For all parameters, salts and keys, of any lengths. */
  lemma DecodeEncode(p: Params, salt: seq<Byte>, key: seq<Byte>)
    ensures Decode(Encode(p, salt, key)) == Ok(Decoded(p, salt, key))
  {
    SegmentsOfEncoded(p, salt, key);
    ParamsReadBack(p);
    Base64.DecodeEncode(salt);
    Base64.DecodeEncode(key);
    PartsDecode("", PrintParams(p), Base64.Encode(salt), Base64.Encode(key), p, salt, key);
  }

  lemma ParamsText(p: Params)
    ensures PrintParams(p) ==
            "m=" + Print(p.memory) + ",t=" + Print(p.time) + ",p=" + Print(p.parallelism)
  {
    Spread("m=", Print(p.memory), ",t=", Print(p.time), ",p=", Print(p.parallelism));
  }

  lemma Spread(a: string, b: string, c: string, d: string, e: string, f: string)
    ensures a + (b + (c + (d + (e + f)))) == a + b + c + d + e + f
  {
  }

  /** The whole text of an encoding. */
  lemma EncodedText(p: Params, salt: seq<Byte>, key: seq<Byte>)
    ensures Encode(p, salt, key) ==
            "$argon2id$v=19$" + ("m=" + Print(p.memory) + ",t=" + Print(p.time) + ",p=" + Print(p.parallelism))
            + "$" + Base64.Encode(salt) + "$" + Base64.Encode(key)
  {
    ParamsText(p);
    Spread("$argon2id$v=19$", PrintParams(p), "$", Base64.Encode(salt), "$", Base64.Encode(key));
    Assoc(Base64.Encode(salt), "$", Base64.Encode(key));
  }

  /** What Decode refuses, and how: by the number of parts between dollar signs, then the
      algorithm, then the version, then each field. */
  lemma DecodeRefuses(encoded: string)
    ensures var parts, r := Split(encoded, '$'), Decode(encoded);
            && (r == Err(WrongSegments(|parts|)) <==> |parts| != 6)
            && (|parts| == 6 ==>
                  && (r == Err(NotArgon2id) <==> parts[1] != "argon2id")
                  && (r == Err(UnsupportedVersion) <==> parts[1] == "argon2id" && parts[2] != "v=19")
                  && (parts[1] == "argon2id" && parts[2] == "v=19" ==>
                        && (r == Err(BadParams) <==> ScanParams(parts[3]).None?)
                        && (r == Err(BadSalt) <==>
                              ScanParams(parts[3]).Some? && Base64.Decode(parts[4]).None?)
                        && (r == Err(BadHash) <==>
                              ScanParams(parts[3]).Some? && Base64.Decode(parts[4]).Some?
                              && Base64.Decode(parts[5]).None?)
                        && (r.Ok? <==>
                              ScanParams(parts[3]).Some? && Base64.Decode(parts[4]).Some?
                              && Base64.Decode(parts[5]).Some?)))
  {
  }

  lemma EncodeIsInjective(p: Params, salt: seq<Byte>, key: seq<Byte>, p': Params, salt': seq<Byte>, key': seq<Byte>)
    requires Encode(p, salt, key) == Encode(p', salt', key')
    ensures p == p' && salt == salt' && key == key'
  {
    DecodeEncode(p, salt, key);
    DecodeEncode(p', salt', key');
  }

  lemma FirstSegmentReplaced(junk: string, s: string)
    requires '$' !in junk && s != "" && s[0] == '$'
    ensures Split(junk + s, '$') == [junk] + Split(s[1..], '$') && Split(s, '$') == [""] + Split(s[1..], '$')
  {
    assert s == "" + ['$'] + s[1..];
    assert junk + s == junk + ['$'] + s[1..];
    SplitFirst("", '$', s[1..]);
    SplitFirst(junk, '$', s[1..]);
  }

  lemma FirstPartIsIgnored(a: string, b: string, rest: seq<string>)
    requires |rest| == 5
    ensures DecodeParts([a] + rest) == DecodeParts([b] + rest)
  {
  }

  /** Decode is not injective: whatever stands before the first `$` is ignored. */
  lemma FirstSegmentIsIgnored(junk: string, p: Params, salt: seq<Byte>, key: seq<Byte>)
    requires '$' !in junk
    ensures Decode(junk + Encode(p, salt, key)) == Ok(Decoded(p, salt, key))
  {
    var s := Encode(p, salt, key);
    DecodeEncode(p, salt, key);
    SegmentsOfEncoded(p, salt, key);
    FirstSegmentReplaced(junk, s);
    FirstPartIsIgnored(junk, "", Split(s[1..], '$'));
    assert |[""] + Split(s[1..], '$')| == 6;
  }

  // ---- hashing and verifying ----

  const HASH_BYTES: Uint32 := 32

  /** The key derivation: password, salt, parameters and key length; None where it panics. */
  type Kdf = (string, seq<Byte>, Params, Uint32) -> Option<seq<Byte>>

  ghost predicate DerivesLength(kdf: Kdf) {
    forall pw, salt, p, n :: var k := kdf(pw, salt, p, n); k.Some? ==> |k.value| == n
  }

  datatype VerifyError = Format(e: FormatError) | Panics

  function Hash(kdf: Kdf, password: string, p: Params, salt: seq<Byte>): Option<string> {
    match kdf(password, salt, p, HASH_BYTES)
    case None => None
    case Some(key) => Some(Encode(p, salt, key))
  }

  function Verify(kdf: Kdf, encoded: string, password: string): Result<bool, VerifyError> {
    VerifyParsed(kdf, Decode(encoded), password)
  }

  function VerifyParsed(kdf: Kdf, parsed: Result<Decoded, FormatError>, password: string): Result<bool, VerifyError> {
    match parsed
    case Err(e) => Err(Format(e))
    case Ok(d) => Compare(kdf(password, d.salt, d.params, |d.hash| % 0x1_0000_0000), d.hash)
  }

  function Compare(derived: Option<seq<Byte>>, hash: seq<Byte>): Result<bool, VerifyError> {
    match derived
    case None => Err(Panics)
    case Some(key) => Ok(key == hash)
  }

  lemma VerifyOk(kdf: Kdf, d: Decoded, attempt: string)
    requires |d.hash| < 0x1_0000_0000
    ensures VerifyParsed(kdf, Ok(d), attempt) == Compare(kdf(attempt, d.salt, d.params, |d.hash|), d.hash)
  {
    assert |d.hash| % 0x1_0000_0000 == |d.hash|;
  }

  lemma VerifyEncoded(kdf: Kdf, p: Params, salt: seq<Byte>, key: seq<Byte>, attempt: string)
    requires |key| < 0x1_0000_0000
    ensures Verify(kdf, Encode(p, salt, key), attempt) == Compare(kdf(attempt, salt, p, |key|), key)
  {
    DecodeEncode(p, salt, key);
    VerifyOk(kdf, Decoded(p, salt, key), attempt);
  }

  /** A hash made from a password verifies for exactly those passwords from which the same
      key is derived, its own among them. */
  lemma VerifiesExactly(kdf: Kdf, password: string, p: Params, salt: seq<Byte>, attempt: string)
    requires DerivesLength(kdf) && Hash(kdf, password, p, salt).Some?
    ensures var encoded := Hash(kdf, password, p, salt).value;
            && Verify(kdf, encoded, password) == Ok(true)
            && (Verify(kdf, encoded, attempt) == Ok(true) <==>
                kdf(attempt, salt, p, HASH_BYTES) == kdf(password, salt, p, HASH_BYTES))
            && (Verify(kdf, encoded, attempt).Err? <==> kdf(attempt, salt, p, HASH_BYTES).None?)
  {
    var key := kdf(password, salt, p, HASH_BYTES).value;
    VerifyEncoded(kdf, p, salt, key, password);
    VerifyEncoded(kdf, p, salt, key, attempt);
  }

  /** What Hash returns: the encoding of a key of 32 bytes, or nothing where the derivation fails. */
  lemma HashEncodesKey(kdf: Kdf, password: string, p: Params, salt: seq<Byte>)
    ensures Hash(kdf, password, p, salt).Some? <==> kdf(password, salt, p, 32).Some?
    ensures kdf(password, salt, p, 32).Some? ==>
              Hash(kdf, password, p, salt) == Some(Encode(p, salt, kdf(password, salt, p, 32).value))
  {
  }

  /** Two hashes are the same text only for the same salt, parameters and derived key. */
  lemma SameTextSameKey(kdf: Kdf, pw: string, p: Params, salt: seq<Byte>, pw': string, p': Params, salt': seq<Byte>)
    requires Hash(kdf, pw, p, salt).Some? && Hash(kdf, pw, p, salt) == Hash(kdf, pw', p', salt')
    ensures p == p' && salt == salt' && kdf(pw, salt, p, HASH_BYTES) == kdf(pw', salt, p, HASH_BYTES)
  {
    EncodeIsInjective(p, salt, kdf(pw, salt, p, HASH_BYTES).value, p', salt', kdf(pw', salt', p', HASH_BYTES).value);
  }
}
