/** Refresh tokens: `id.generation.signature`, printed and parsed back. The message authentication code is a
    parameter. */
module RefreshToken {
  import opened Wrappers

  type Byte = x: int | 0 <= x < 256

  const MAX_INT64 := 0x7fff_ffff_ffff_ffff
  const MIN_INT64 := -0x8000_0000_0000_0000

  // ------------------------------------------------------------------------------------------------------------
  // Decimal numerals
  // ------------------------------------------------------------------------------------------------------------

  function DigitChar(d: nat): char
    requires d < 10
  {
    '0' + d as char
  }

  predicate IsDigit(c: char) {
    '0' <= c <= '9'
  }

  function Digits(n: nat): (s: string)
    ensures |s| > 0 && forall c :: c in s ==> IsDigit(c)
  {
    if n < 10 then [DigitChar(n)] else Digits(n / 10) + [DigitChar(n % 10)]
  }

  function FormatInt(n: int): string {
    if n < 0 then "-" + Digits(-n) else Digits(n)
  }

  function ParseDigits(s: string): Option<nat> {
    if s == [] then Some(0)
    else
      var c := s[|s| - 1];
      var rest := ParseDigits(s[..|s| - 1]);
      if IsDigit(c) && rest.Some? then Some(10 * rest.value + (c - '0') as nat) else None
  }

  function Signed(negative: bool, n: int): int {
    if negative then -n else n
  }

  /** An optional sign, then at least one digit, the value within 64 bits. */
  function ParseInt(s: string): Option<int> {
    var signed := s != [] && (s[0] == '-' || s[0] == '+');
    var body := if signed then s[1..] else s;
    var magnitude := if body == [] then None else ParseDigits(body);
    if magnitude.None? then None
    else
      var n := Signed(signed && s[0] == '-', magnitude.value);
      if MIN_INT64 <= n <= MAX_INT64 then Some(n) else None
  }

  lemma {:induction false} ParseDigitsBack(n: nat)
    ensures ParseDigits(Digits(n)) == Some(n)
  {
    var s := Digits(n);
    if n < 10 {
      assert s[..|s| - 1] == [];
    } else {
      ParseDigitsBack(n / 10);
      assert s[..|s| - 1] == Digits(n / 10);
    }
  }

  lemma ParseIntBack(n: int)
    requires MIN_INT64 <= n <= MAX_INT64
    ensures ParseInt(FormatInt(n)) == Some(n)
  {
    if n < 0 {
      ParseDigitsBack(-n);
      assert FormatInt(n)[1..] == Digits(-n);
    } else {
      ParseDigitsBack(n);
      assert IsDigit(FormatInt(n)[0]);
    }
  }

  lemma FirstChar(n: int)
    ensures |FormatInt(n)| > 0 && (FormatInt(n)[0] == '-' <==> n < 0)
  {
    var s := Digits(if n < 0 then -n else n);
    assert s[0] in s;
  }

  /** Different numbers print differently, whatever their size. */
  lemma FormatInjective(m: int, n: int)
    requires FormatInt(m) == FormatInt(n)
    ensures m == n
  {
    FirstChar(m);
    FirstChar(n);
    ParseDigitsBack(if m < 0 then -m else m);
    ParseDigitsBack(if n < 0 then -n else n);
    if m < 0 {
      assert FormatInt(m)[1..] == Digits(-m) && FormatInt(n)[1..] == Digits(-n);
    }
  }

  // ------------------------------------------------------------------------------------------------------------
  // Cutting at a separator
  // ------------------------------------------------------------------------------------------------------------

  datatype Halves = Halves(before: string, after: string, found: bool)

  /** Cut around the first occurrence of `sep`. */
  function Cut(s: string, sep: char): Halves {
    if s == [] then Halves([], [], false)
    else if s[0] == sep then Halves([], s[1..], true)
    else
      var rest := Cut(s[1..], sep);
      if rest.found then Halves([s[0]] + rest.before, rest.after, true) else Halves(s, [], false)
  }

  lemma {:induction false} CutBack(a: string, b: string, sep: char)
    requires sep !in a
    ensures Cut(a + [sep] + b, sep) == Halves(a, b, true)
  {
    var s := a + [sep] + b;
    if a == [] {
      assert s[1..] == b;
    } else {
      assert s[1..] == a[1..] + [sep] + b;
      CutBack(a[1..], b, sep);
    }
  }

  lemma {:induction false} CutSplits(s: string, sep: char)
    ensures var h := Cut(s, sep);
            && (h.found <==> sep in s)
            && (h.found ==> s == h.before + [sep] + h.after && sep !in h.before)
  {
    if s != [] && s[0] != sep {
      CutSplits(s[1..], sep);
      assert s == [s[0]] + s[1..];
    }
  }

  // ------------------------------------------------------------------------------------------------------------
  // Building and parsing
  // ------------------------------------------------------------------------------------------------------------

  /** What the refresh family signs. */
  function SignedMessage(id: string, generation: int): string {
    id + ":" + FormatInt(generation)
  }

  function SignRefreshToken(mac: (string, string) -> seq<Byte>, id: string, generation: int, secret: string): string {
    Base64Url(mac(secret, SignedMessage(id, generation)))
  }

  function BuildRefreshToken(mac: (string, string) -> seq<Byte>, id: string, generation: int, secret: string): string {
    id + "." + FormatInt(generation) + "." + SignRefreshToken(mac, id, generation, secret)
  }

  datatype Parsed = Parsed(id: string, generation: int, signature: string)

  function SplitRefreshToken(token: string): Option<(string, string, string)> {
    var first := Cut(token, '.');
    if !first.found || first.before == [] || first.after == [] then None
    else
      var second := Cut(first.after, '.');
      if !second.found || second.before == [] || second.after == [] then None
      else Some((first.before, second.before, second.after))
  }

  function ParseRefreshToken(token: string): Option<Parsed> {
    match SplitRefreshToken(token)
    case None => None
    case Some((id, numeral, signature)) =>
      var generation := ParseInt(numeral);
      if generation.None? || generation.value <= 0 then None else Some(Parsed(id, generation.value, signature))
  }

  ghost predicate Spells(token: string, t: Parsed, numeral: string) {
    && token == t.id + "." + numeral + "." + t.signature
    && t.id != [] && '.' !in t.id && t.signature != []
    && numeral != [] && '.' !in numeral && ParseInt(numeral) == Some(t.generation) && t.generation > 0
  }

  lemma SplitBack(id: string, numeral: string, signature: string)
    requires id != [] && '.' !in id && numeral != [] && '.' !in numeral && signature != []
    ensures SplitRefreshToken(id + "." + numeral + "." + signature) == Some((id, numeral, signature))
  {
    assert id + "." + numeral + "." + signature == id + ['.'] + (numeral + ['.'] + signature);
    CutBack(id, numeral + ['.'] + signature, '.');
    CutBack(numeral, signature, '.');
  }

  /** A token parses to `t` exactly when it spells it: the id, any numeral for the generation that `ParseInt` takes
      (leading zeros and a plus sign included), and the signature, which alone may contain further dots. */
  lemma ParseCharacterised(token: string, t: Parsed)
    ensures ParseRefreshToken(token) == Some(t) <==> exists numeral :: Spells(token, t, numeral)
  {
    if ParseRefreshToken(token) == Some(t) {
      var first := Cut(token, '.');
      var second := Cut(first.after, '.');
      CutSplits(token, '.');
      CutSplits(first.after, '.');
      assert token == t.id + "." + second.before + "." + t.signature;
      assert Spells(token, t, second.before);
    }
    if numeral :| Spells(token, t, numeral) {
      SplitBack(t.id, numeral, t.signature);
    }
  }

  lemma NumeralDotFree(n: int)
    ensures FormatInt(n) != [] && '.' !in FormatInt(n) && ':' !in FormatInt(n)
  {
  }

  /** Parsing a built token gives back what it was built from. */
  lemma ParseBuild(mac: (string, string) -> seq<Byte>, id: string, generation: int, secret: string)
    requires id != [] && '.' !in id && mac(secret, SignedMessage(id, generation)) != []
    ensures ParseRefreshToken(BuildRefreshToken(mac, id, generation, secret))
            == if 1 <= generation <= MAX_INT64
                then Some(Parsed(id, generation, SignRefreshToken(mac, id, generation, secret))) else None
  {
    NumeralDotFree(generation);
    Base64UrlAlphabet(mac(secret, SignedMessage(id, generation)));
    SplitBack(id, FormatInt(generation), SignRefreshToken(mac, id, generation, secret));
    if MIN_INT64 <= generation <= MAX_INT64 {
      ParseIntBack(generation);
    } else {
      OutOfRange(generation);
    }
  }

  lemma OutOfRange(n: int)
    requires !(MIN_INT64 <= n <= MAX_INT64)
    ensures ParseInt(FormatInt(n)).None?
  {
    if n < 0 {
      ParseDigitsBack(-n);
      assert FormatInt(n)[1..] == Digits(-n);
    } else {
      ParseDigitsBack(n);
      assert IsDigit(FormatInt(n)[0]);
    }
  }

  lemma CutBuilt(mac: (string, string) -> seq<Byte>, id: string, g: int, secret: string)
    requires id != [] && '.' !in id
    ensures var first := Cut(BuildRefreshToken(mac, id, g, secret), '.');
            first.before == id && Cut(first.after, '.').before == FormatInt(g)
  {
    NumeralDotFree(g);
    var sig := SignRefreshToken(mac, id, g, secret);
    var rest := FormatInt(g) + ['.'] + sig;
    assert BuildRefreshToken(mac, id, g, secret) == id + ['.'] + rest;
    CutBack(id, rest, '.');
    CutBack(FormatInt(g), sig, '.');
  }

  /** Tokens of different sessions or generations are different strings. */
  lemma BuildInjective(mac: (string, string) -> seq<Byte>, id: string, g: int, secret: string, id': string, g': int,
                       secret': string)
    requires id != [] && '.' !in id && id' != [] && '.' !in id'
    requires BuildRefreshToken(mac, id, g, secret) == BuildRefreshToken(mac, id', g', secret')
    ensures id == id' && g == g'
  {
    CutBuilt(mac, id, g, secret);
    CutBuilt(mac, id', g', secret');
    FormatInjective(g, g');
  }

  lemma LongerNumeralDiffers(id: string, g: int, id': string, g': int)
    requires |SignedMessage(id, g)| == |SignedMessage(id', g')| && |FormatInt(g')| > |FormatInt(g)|
    ensures SignedMessage(id, g) != SignedMessage(id', g')
  {
    var m, m' := SignedMessage(id, g), SignedMessage(id', g');
    NumeralDotFree(g');
    var k := |m| - |FormatInt(g)| - 1;
    assert m[k] == ':';
    assert m'[k] == FormatInt(g')[k - |id'| - 1];
    assert m'[k] in FormatInt(g');
  }

  /** One signed message stands for one session and one generation, whatever characters the id contains. */
  lemma SignedMessageInjective(id: string, g: int, id': string, g': int)
    requires SignedMessage(id, g) == SignedMessage(id', g')
    ensures id == id' && g == g'
  {
    if |FormatInt(g')| > |FormatInt(g)| {
      LongerNumeralDiffers(id, g, id', g');
    } else if |FormatInt(g)| > |FormatInt(g')| {
      LongerNumeralDiffers(id', g', id, g);
    }
    var m, m' := SignedMessage(id, g), SignedMessage(id', g');
    assert id == m[..|id|] && id' == m'[..|id'|];
    assert FormatInt(g) == m[|id| + 1..] && FormatInt(g') == m'[|id'| + 1..];
    FormatInjective(g, g');
  }

  // ------------------------------------------------------------------------------------------------------------
  // Base 64 with the URL and filename safe alphabet (section 5 of RFC 4648), without padding
  // ------------------------------------------------------------------------------------------------------------

  function Letter(v: nat): char
    requires v < 64
  {
    if v < 26 then 'A' + v as char
    else if v < 52 then 'a' + (v - 26) as char
    else if v < 62 then '0' + (v - 52) as char
    else if v == 62 then '-' else '_'
  }

  predicate InAlphabet(c: char) {
    'A' <= c <= 'Z' || 'a' <= c <= 'z' || '0' <= c <= '9' || c == '-' || c == '_'
  }

  function Base64Url(bytes: seq<Byte>): string {
    if |bytes| == 0 then []
    else if |bytes| == 1 then [Letter(bytes[0] / 4), Letter(bytes[0] % 4 * 16)]
    else if |bytes| == 2 then
      [Letter(bytes[0] / 4), Letter(bytes[0] % 4 * 16 + bytes[1] / 16), Letter(bytes[1] % 16 * 4)]
    else
      [Letter(bytes[0] / 4), Letter(bytes[0] % 4 * 16 + bytes[1] / 16),
       Letter(bytes[1] % 16 * 4 + bytes[2] / 64), Letter(bytes[2] % 64)] + Base64Url(bytes[3..])
  }

  /** Encoded text uses only the alphabet, so it contains no dot, and it is empty only for no bytes. */
  lemma {:induction false} Base64UrlAlphabet(bytes: seq<Byte>)
    ensures forall c :: c in Base64Url(bytes) ==> InAlphabet(c) && c != '.'
    ensures Base64Url(bytes) == [] <==> bytes == []
  {
    if |bytes| >= 3 {
      Base64UrlAlphabet(bytes[3..]);
    }
  }
}
