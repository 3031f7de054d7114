/** Which texts the numerals and the signatures of refresh tokens are: every way a generation may be written, and that
    the encoding of a signature can be read back. */
module TokenLaws {
  import opened Wrappers
  import opened RefreshToken

  // ------------------------------------------------------------------------------------------------------------
  // Numerals
  // ------------------------------------------------------------------------------------------------------------

  predicate AllDigits(s: string) {
    forall c :: c in s ==> IsDigit(c)
  }

  lemma {:induction false} DigitsParse(s: string)
    ensures ParseDigits(s).Some? <==> AllDigits(s)
  {
    if s != [] {
      var init, c := s[..|s| - 1], s[|s| - 1];
      DigitsParse(init);
      assert s == init + [c];
    }
  }

  lemma {:induction false} LeadingZero(s: string)
    requires AllDigits(s)
    ensures ParseDigits(['0'] + s) == ParseDigits(s)
  {
    var z := ['0'] + s;
    if s == [] {
      assert z[..|z| - 1] == [];
    } else {
      assert s == s[..|s| - 1] + [s[|s| - 1]];
      assert z[..|z| - 1] == ['0'] + s[..|s| - 1];
      LeadingZero(s[..|s| - 1]);
    }
  }

  /** The sign a numeral may begin with, and what follows it. */
  function Unsigned(s: string): string {
    if s != [] && (s[0] == '-' || s[0] == '+') then s[1..] else s
  }

  /** Digits are a numeral as they stand, after a plus sign, and, negated, after a minus sign, within 64 bits. */
  lemma NumeralForms(body: string)
    requires body != [] && AllDigits(body)
    ensures ParseDigits(body).Some?
    ensures var n: int := ParseDigits(body).value;
            && ParseInt(body) == (if n <= 0x7fff_ffff_ffff_ffff then Some(n) else None)
            && ParseInt(['+'] + body) == ParseInt(body)
            && ParseInt(['-'] + body) == (if n <= 0x8000_0000_0000_0000 then Some(-n) else None)
  {
    DigitsParse(body);
    assert IsDigit(body[0]);
    assert (['+'] + body)[1..] == body && (['-'] + body)[1..] == body;
  }

  /** Nothing else is one. */
  lemma NoOtherNumerals(s: string)
    ensures ParseInt(s).Some? ==> Unsigned(s) != [] && AllDigits(Unsigned(s))
  {
    DigitsParse(Unsigned(s));
  }

  /** So a token has as many texts as its generation has numerals: with a plus sign, and with any number of zeros. */
  lemma OtherSpellings(id: string, numeral: string, signature: string)
    requires id != [] && '.' !in id && signature != [] && numeral != [] && AllDigits(numeral)
    requires ParseRefreshToken(id + "." + numeral + "." + signature).Some?
    ensures ParseRefreshToken(id + "." + (['+'] + numeral) + "." + signature)
            == ParseRefreshToken(id + "." + numeral + "." + signature)
    ensures ParseRefreshToken(id + "." + (['0'] + numeral) + "." + signature)
            == ParseRefreshToken(id + "." + numeral + "." + signature)
  {
    assert '.' !in numeral && '.' !in ['+'] + numeral && '.' !in ['0'] + numeral && AllDigits(['0'] + numeral);
    SplitBack(id, numeral, signature);
    SplitBack(id, ['+'] + numeral, signature);
    SplitBack(id, ['0'] + numeral, signature);
    LeadingZero(numeral);
    NumeralForms(numeral);
    NumeralForms(['0'] + numeral);
  }

  // ------------------------------------------------------------------------------------------------------------
  // Signatures
  // ------------------------------------------------------------------------------------------------------------

  /** The value of a letter (table 2 of RFC 4648). */
  function LetterValue(c: char): nat {
    if 'A' <= c <= 'Z' then (c - 'A') as nat
    else if 'a' <= c <= 'z' then 26 + (c - 'a') as nat
    else if '0' <= c <= '9' then 52 + (c - '0') as nat
    else if c == '-' then 62
    else 63
  }

  function Low(x: int): Byte {
    x % 256
  }

  /** Reading encoded text back, four letters to three bytes and the rest of fewer. */
  function Decoded(s: string): seq<Byte> {
    if |s| < 2 then []
    else
      var a, b := LetterValue(s[0]), LetterValue(s[1]);
      if |s| == 2 then [Low(a * 4 + b / 16)]
      else
        var c := LetterValue(s[2]);
        if |s| == 3 then [Low(a * 4 + b / 16), Low(b * 16 + c / 4)]
        else [Low(a * 4 + b / 16), Low(b * 16 + c / 4), Low(c * 64 + LetterValue(s[3]))] + Decoded(s[4..])
  }

  lemma LetterBack(v: nat)
    requires v < 64
    ensures LetterValue(Letter(v)) == v
  {
  }

  lemma TwoLetters(x: Byte)
    ensures Low(x / 4 * 4 + x % 4 * 16 / 16) == x
  {
  }

  lemma FirstByte(x: Byte, y: Byte)
    ensures Low(x / 4 * 4 + (x % 4 * 16 + y / 16) / 16) == x
  {
  }

  lemma SecondByte(x: Byte, y: Byte, z: Byte)
    ensures Low((x % 4 * 16 + y / 16) * 16 + (y % 16 * 4 + z / 64) / 4) == y
  {
    assert (x % 4 * 16 + y / 16) * 16 == x % 4 * 256 + y / 16 * 16;
    assert (y % 16 * 4 + z / 64) / 4 == y % 16;
  }

  lemma ThirdByte(y: Byte, z: Byte)
    ensures Low((y % 16 * 4 + z / 64) * 64 + z % 64) == z
  {
    assert (y % 16 * 4 + z / 64) * 64 == y % 16 * 256 + z / 64 * 64;
  }

  lemma OneByte(x: Byte)
    ensures Decoded(Base64Url([x])) == [x]
  {
    LetterBack(x / 4);
    LetterBack(x % 4 * 16);
    TwoLetters(x);
  }

  lemma TwoBytes(x: Byte, y: Byte)
    ensures Decoded(Base64Url([x, y])) == [x, y]
  {
    LetterBack(x / 4);
    LetterBack(x % 4 * 16 + y / 16);
    LetterBack(y % 16 * 4);
    FirstByte(x, y);
    SecondByte(x, y, 0);
  }

  lemma FourLetters(bytes: seq<Byte>)
    requires |bytes| >= 3
    ensures var x, y, z, s := bytes[0], bytes[1], bytes[2], Base64Url(bytes);
            && |s| >= 4 && s[4..] == Base64Url(bytes[3..])
            && LetterValue(s[0]) == x / 4 && LetterValue(s[1]) == x % 4 * 16 + y / 16
            && LetterValue(s[2]) == y % 16 * 4 + z / 64 && LetterValue(s[3]) == z % 64
  {
    var x, y, z := bytes[0], bytes[1], bytes[2];
    LetterBack(x / 4);
    LetterBack(x % 4 * 16 + y / 16);
    LetterBack(y % 16 * 4 + z / 64);
    LetterBack(z % 64);
  }

  lemma DecodesFour(s: string, x: Byte, y: Byte, z: Byte)
    requires |s| >= 4
    requires LetterValue(s[0]) == x / 4 && LetterValue(s[1]) == x % 4 * 16 + y / 16
    requires LetterValue(s[2]) == y % 16 * 4 + z / 64 && LetterValue(s[3]) == z % 64
    ensures Decoded(s) == [x, y, z] + Decoded(s[4..])
  {
    var a, b, c, d := LetterValue(s[0]), LetterValue(s[1]), LetterValue(s[2]), LetterValue(s[3]);
    assert Low(a * 4 + b / 16) == x by {
      FirstByte(x, y);
    }
    assert Low(b * 16 + c / 4) == y by {
      SecondByte(x, y, z);
    }
    assert Low(c * 64 + d) == z by {
      ThirdByte(y, z);
    }
  }

  lemma ThreeBytes(bytes: seq<Byte>, s: string)
    requires |bytes| >= 3 && |s| >= 4 && Decoded(s[4..]) == bytes[3..]
    requires LetterValue(s[0]) == bytes[0] / 4 && LetterValue(s[1]) == bytes[0] % 4 * 16 + bytes[1] / 16
    requires LetterValue(s[2]) == bytes[1] % 16 * 4 + bytes[2] / 64 && LetterValue(s[3]) == bytes[2] % 64
    ensures Decoded(s) == bytes
  {
    DecodesFour(s, bytes[0], bytes[1], bytes[2]);
    assert bytes == [bytes[0], bytes[1], bytes[2]] + bytes[3..];
  }

  /** Encoded bytes decode to themselves. */
  lemma {:induction false} DecodeEncode(bytes: seq<Byte>)
    ensures Decoded(Base64Url(bytes)) == bytes
    decreases |bytes|
  {
    if |bytes| == 1 {
      OneByte(bytes[0]);
    } else if |bytes| == 2 {
      TwoBytes(bytes[0], bytes[1]);
    } else if |bytes| >= 3 {
      DecodeEncode(bytes[3..]);
      FourLetters(bytes);
      ThreeBytes(bytes, Base64Url(bytes));
    }
  }

  /** So two signatures are the same text exactly when the authentication codes are the same bytes. */
  lemma SignaturesTellCodes(mac: (string, string) -> seq<Byte>, id: string, g: int, secret: string, id': string,
                            g': int, secret': string)
    ensures SignRefreshToken(mac, id, g, secret) == SignRefreshToken(mac, id', g', secret')
            <==> mac(secret, SignedMessage(id, g)) == mac(secret', SignedMessage(id', g'))
  {
    DecodeEncode(mac(secret, SignedMessage(id, g)));
    DecodeEncode(mac(secret', SignedMessage(id', g')));
  }
}
