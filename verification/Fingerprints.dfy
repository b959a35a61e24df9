/**
 Certificate fingerprints as text: the `SHA256:` form that enrolment prints and the client
 reads back, and the pinned fingerprint that the configuration check accepts and the relay
 client decodes.
 */
module Fingerprints {
  import opened Basics

  datatype Error = NoPrefix | BadHex | Empty | WrongLength

  const PREFIX := "SHA256:"

  // ---------------------------------------------------------------------------
  // Hexadecimal
  // ---------------------------------------------------------------------------

  predicate IsHexDigit(c: char) {
    '0' <= c <= '9' || 'a' <= c <= 'f' || 'A' <= c <= 'F'
  }

  predicate AllHex(s: string) {
    forall i :: 0 <= i < |s| ==> IsHexDigit(s[i])
  }

  function Digit(n: nat): (c: char)
    requires n < 16
    ensures IsHexDigit(c) && LowerChar(c) == c
  {
    if n < 10 then ('0' as int + n) as char else ('a' as int + n - 10) as char
  }

  function DigitValue(c: char): (n: nat)
    requires IsHexDigit(c)
    ensures n < 16 && Digit(n) == LowerChar(c)
  {
    if '0' <= c <= '9' then c as int - '0' as int
    else if 'a' <= c <= 'f' then c as int - 'a' as int + 10
    else c as int - 'A' as int + 10
  }

  lemma HexDigitIs(c: char)
    ensures IsHexDigit(c) <==> c in "0123456789abcdefABCDEF"
    ensures forall n: nat :: n < 16 ==> Digit(n) == "0123456789abcdef"[n]
  {
    if '0' <= c <= '9' {
      assert "0123456789abcdefABCDEF"[c as int - '0' as int] == c;
    } else if 'a' <= c <= 'f' {
      assert "0123456789abcdefABCDEF"[c as int - 'a' as int + 10] == c;
    } else if 'A' <= c <= 'F' {
      assert "0123456789abcdefABCDEF"[c as int - 'A' as int + 16] == c;
    }
  }

  /** Two lower-case digits per byte. */
  function Hex(bytes: Bytes): string {
    if bytes == [] then ""
    else [Digit(bytes[0] as int / 16), Digit(bytes[0] as int % 16)] + Hex(bytes[1..])
  }

  /** The hex library's decoder: it refuses odd lengths and anything but hexadecimal digits. */
  function Decode(s: string): Option<Bytes> {
    if s == "" then Some([])
    else if |s| == 1 || !IsHexDigit(s[0]) || !IsHexDigit(s[1]) then None
    else
      var rest := Decode(s[2..]);
      if rest.None? then None
      else Some([(16 * DigitValue(s[0]) + DigitValue(s[1])) as byte] + rest.value)
  }

  lemma {:induction false} HexIsHex(bytes: Bytes)
    ensures |Hex(bytes)| == 2 * |bytes| && AllHex(Hex(bytes))
  {
    if bytes != [] {
      HexIsHex(bytes[1..]);
    }
  }

  lemma DigitsOfByte(b: byte)
    ensures DigitValue(Digit(b as int / 16)) == b as int / 16 && DigitValue(Digit(b as int % 16)) == b as int % 16
  {
  }

  lemma {:induction false} DecodeHex(bytes: Bytes)
    ensures Decode(Hex(bytes)) == Some(bytes)
  {
    if bytes != [] {
      DecodeHex(bytes[1..]);
      DigitsOfByte(bytes[0]);
      assert Hex(bytes)[2..] == Hex(bytes[1..]);
      assert bytes == [bytes[0]] + bytes[1..];
    }
  }

  /** Decoding succeeds exactly on an even number of digits, and printing gives the text back in lower case. */
  lemma {:induction false} DecodeIff(s: string)
    ensures Decode(s).Some? <==> |s| % 2 == 0 && AllHex(s)
    ensures Decode(s).Some? ==> Hex(Decode(s).value) == Lower(s)
  {
    if |s| >= 2 {
      DecodeIff(s[2..]);
      assert AllHex(s) <==> IsHexDigit(s[0]) && IsHexDigit(s[1]) && AllHex(s[2..]) by {
        assert forall i :: 2 <= i < |s| ==> s[i] == s[2..][i - 2];
      }
      if Decode(s).Some? {
        var b := Decode(s).value[0] as int;
        assert b / 16 == DigitValue(s[0]) && b % 16 == DigitValue(s[1]);
        assert Decode(s).value[1..] == Decode(s[2..]).value;
        assert Lower(s) == [LowerChar(s[0]), LowerChar(s[1])] + Lower(s[2..]);
      }
    }
  }

  // ---------------------------------------------------------------------------
  // The printed form
  // ---------------------------------------------------------------------------

  function Format(bytes: Bytes): string {
    PREFIX + Hex(bytes)
  }

  /** Only the hexadecimal digits, in order. */
  function Digits(s: string): (r: string)
    ensures AllHex(r)
    ensures AllHex(s) ==> r == s
  {
    if s == "" then ""
    else if IsHexDigit(s[0]) then [s[0]] + Digits(s[1..])
    else Digits(s[1..])
  }

  /** Dropping the characters that are not digits does not touch the others. */
  lemma {:induction false} DigitsDrop(a: string, c: char, b: string)
    ensures Digits(a + [c] + b) == Digits(a) + (if IsHexDigit(c) then [c] else []) + Digits(b)
  {
    if a == "" {
      assert a + [c] + b == [c] + b && ([c] + b)[1..] == b;
    } else {
      assert (a + [c] + b)[1..] == a[1..] + [c] + b;
      DigitsDrop(a[1..], c, b);
    }
  }

  function Parse(text: string): Result<Bytes, Error> {
    var value := Trim(text);
    if !(PREFIX <= value) then Err(NoPrefix)
    else
      var bytes := Decode(Digits(value[|PREFIX|..]));
      if bytes.Some? then Ok(bytes.value) else Err(BadHex)
  }

  /** Every byte string survives printing and parsing. */
  lemma ParseFormat(bytes: Bytes)
    ensures Parse(Format(bytes)) == Ok(bytes)
  {
    HexIsHex(bytes);
    var text := Format(bytes);
    assert text[0] == 'S';
    assert !IsWhitespace(text[|text| - 1]);
    assert Trim(text) == text && text[|PREFIX|..] == Hex(bytes);
    DecodeHex(bytes);
  }

  /** Exactly which texts are read, and what they are read as: other characters between the digits do not matter. */
  lemma ParseIff(text: string)
    ensures var value := Trim(text);
            && (Parse(text) == Err(NoPrefix) <==> !("SHA256:" <= value))
            && (Parse(text).Ok? <==> "SHA256:" <= value && |Digits(value[7..])| % 2 == 0)
            && (Parse(text).Ok? ==> Hex(Parse(text).value) == Lower(Digits(value[7..])))
  {
    var value := Trim(text);
    if PREFIX <= value {
      DecodeIff(Digits(value[|PREFIX|..]));
    }
  }

  // ---------------------------------------------------------------------------
  // The pinned fingerprint
  // ---------------------------------------------------------------------------

  predicate IsSeparator(c: char) {
    c == ' ' || c == '\t' || c == '\n' || c == '\r' || c as int == 0xC || c == ':'
  }

  /** Without ASCII white space and colons. */
  function Normalised(s: string): string {
    if s == "" then ""
    else if IsSeparator(s[0]) then Normalised(s[1..])
    else [s[0]] + Normalised(s[1..])
  }

  lemma SeparatorIs(c: char)
    ensures IsSeparator(c) <==> c as int in {9, 10, 12, 13, 32, 58}
  {
  }

  /** A digest as tools print it, with a colon between the bytes. */
  function Colons(bytes: Bytes): string {
    if |bytes| <= 1 then Hex(bytes) else Hex(bytes[..1]) + ":" + Colons(bytes[1..])
  }

  lemma {:induction false} NormalisedAppend(a: string, b: string)
    ensures Normalised(a + b) == Normalised(a) + Normalised(b)
  {
    if a == "" {
      assert a + b == b;
    } else {
      assert (a + b)[1..] == a[1..] + b;
      NormalisedAppend(a[1..], b);
    }
  }

  lemma {:induction false} HexIsNormal(s: string)
    requires AllHex(s)
    ensures Normalised(s) == s
  {
    if s != "" {
      HexIsNormal(s[1..]);
    }
  }

  lemma {:induction false} ColonsAreHex(bytes: Bytes)
    ensures Normalised(Colons(bytes)) == Hex(bytes)
  {
    HexIsHex(bytes);
    if |bytes| <= 1 {
      HexIsNormal(Hex(bytes));
    } else {
      ColonsAreHex(bytes[1..]);
      HexIsHex(bytes[..1]);
      HexIsNormal(Hex(bytes[..1]));
      NormalisedAppend(Hex(bytes[..1]) + ":", Colons(bytes[1..]));
      NormalisedAppend(Hex(bytes[..1]), ":");
      assert Hex(bytes[..1]) == [Digit(bytes[0] as int / 16), Digit(bytes[0] as int % 16)] by {
        assert bytes[..1][1..] == [];
      }
    }
  }

  /** What the configuration check demands of a pinned fingerprint. */
  predicate PinAllowed(pin: string) {
    |Normalised(pin)| == 64 && AllHex(Normalised(pin))
  }

  /** What the relay client makes of the configured pin. */
  function ParsePinned(pin: Option<string>): Result<Option<Bytes>, Error> {
    if pin.None? then Ok(None)
    else
      var s := Normalised(pin.value);
      if s == "" then Err(Empty)
      else
        var bytes := Decode(s);
        if bytes.None? then Err(BadHex)
        else if |bytes.value| != 32 then Err(WrongLength)
        else Ok(Some(bytes.value))
  }

  /** The configuration check accepts exactly the pins that decode, and those decode to 32 bytes. */
  lemma PinAllowedIffItParses(pin: string)
    ensures PinAllowed(pin) <==> ParsePinned(Some(pin)).Ok?
    ensures PinAllowed(pin) ==> ParsePinned(Some(pin)).value.Some? && |ParsePinned(Some(pin)).value.value| == 32
    ensures PinAllowed(pin) ==> Hex(ParsePinned(Some(pin)).value.value) == Lower(Normalised(pin))
  {
    var s := Normalised(pin);
    DecodeIff(s);
    if Decode(s).Some? {
      HexIsHex(Decode(s).value);
    }
  }

  /** However a digest is spaced out with colons and blanks, the pin is that digest, if it has 32 bytes. */
  lemma PinnedDigest(bytes: Bytes, pin: string)
    requires Normalised(pin) == Hex(bytes)
    ensures |bytes| == 32 ==> ParsePinned(Some(pin)) == Ok(Some(bytes))
    ensures |bytes| != 32 ==> ParsePinned(Some(pin)).Err?
  {
    HexIsHex(bytes);
    DecodeHex(bytes);
  }

  /** A digest of 32 bytes with colons between them is allowed as a pin, and is that digest. */
  lemma ColonFormIsAllowed(bytes: Bytes)
    requires |bytes| == 32
    ensures PinAllowed(Colons(bytes)) && ParsePinned(Some(Colons(bytes))) == Ok(Some(bytes))
  {
    ColonsAreHex(bytes);
    HexIsHex(bytes);
    PinnedDigest(bytes, Colons(bytes));
  }
}
