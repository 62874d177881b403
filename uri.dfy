/** `decodeURIComponent`: the Decode operation of ECMAScript (ECMA-262,
    section 19.2.6.5) with an empty reserved set. Escapes `%XX` are read as
    octets of UTF-8 sequences; a malformed escape, a bad continuation octet or
    an octet sequence that is not the UTF-8 encoding of a Unicode scalar value
    raises URIError. */
module Uri {
  import opened Wrappers

  const UriError: string := "URIError: URI malformed"

  predicate IsHex(c: char) {
    '0' <= c <= '9' || 'a' <= c <= 'f' || 'A' <= c <= 'F'
  }

  function HexValue(c: char): (v: nat)
    requires IsHex(c)
    ensures v < 16
  {
    if '0' <= c <= '9' then c as int - '0' as int
    else if 'a' <= c <= 'f' then c as int - 'a' as int + 10
    else c as int - 'A' as int + 10
  }

  /** The octet the escape `%XX` starting at `s[k]` denotes, if one starts there. */
  function EscapedOctet(s: string, k: nat): (r: Option<nat>)
    ensures r.Some? ==> r.value < 256 && k + 3 <= |s| && s[k] == '%' && IsHex(s[k + 2])
  {
    if k + 3 <= |s| && s[k] == '%' && IsHex(s[k + 1]) && IsHex(s[k + 2])
    then Some(16 * HexValue(s[k + 1]) + HexValue(s[k + 2]))
    else None
  }

  /** The payload bits of a continuation octet `10xxxxxx` escaped at `s[k]`. */
  function ContinuationBits(s: string, k: nat): (r: Option<nat>)
    ensures r.Some? ==> r.value < 64 && k + 3 <= |s| && IsHex(s[k + 2])
  {
    match EscapedOctet(s, k)
    case Some(b) => if 0x80 <= b < 0xC0 then Some(b - 0x80) else None
    case None => None
  }

  /** The number of leading 1 bits of a lead octet, as the length of its
      sequence: 1 for ASCII, 2 to 4 for a multi-octet lead, 0 for an octet
      that cannot lead (a continuation octet or `11111xxx`). */
  function SequenceLength(b: nat): (n: nat)
    ensures n <= 4
  {
    if b < 0x80 then 1
    else if 0xC0 <= b < 0xE0 then 2
    else if 0xE0 <= b < 0xF0 then 3
    else if 0xF0 <= b < 0xF8 then 4
    else 0
  }

  predicate IsScalar(cp: nat) {
    cp < 0xD800 || 0xE000 <= cp < 0x11_0000
  }

  /** The code point of the `n`-octet sequence whose lead octet `lead` is
      escaped at `s[k]`, if its continuation octets follow and it is a valid
      (shortest-form, non-surrogate, in-range) UTF-8 encoding. */
  function CodePoint(s: string, k: nat, lead: nat, n: nat): (r: Option<nat>)
    requires 1 <= n <= 4 && k + 3 <= |s| && IsHex(s[k + 2])
    ensures r.Some? ==> IsScalar(r.value) && k + 3 * n <= |s| && IsHex(s[k + 3 * n - 1])
  {
    if n == 1 then (if lead < 0x80 then Some(lead) else None)
    else
      match ContinuationBits(s, k + 3)
      case None => None
      case Some(b1) =>
        if n == 2 then
          var cp := (lead - 0xC0) * 64 + b1;
          if lead >= 0xC0 && 0x80 <= cp < 0x800 then Some(cp) else None
        else
          match ContinuationBits(s, k + 6)
          case None => None
          case Some(b2) =>
            if n == 3 then
              var cp := (lead - 0xE0) * 4096 + b1 * 64 + b2;
              if lead >= 0xE0 && 0x800 <= cp < 0x1_0000 && IsScalar(cp) then Some(cp) else None
            else
              match ContinuationBits(s, k + 9)
              case None => None
              case Some(b3) =>
                var cp := (lead - 0xF0) * 262144 + b1 * 4096 + b2 * 64 + b3;
                if lead >= 0xF0 && 0x1_0000 <= cp < 0x11_0000 then Some(cp) else None
  }

  /** Decoding of `s[k..]`. */
  function DecodeFrom(s: string, k: nat): Result<string, string>
    requires k <= |s|
    decreases |s| - k
  {
    if k == |s| then Success("")
    else if s[k] != '%' then
      match DecodeFrom(s, k + 1)
      case Success(t) => Success([s[k]] + t)
      case Failure(e) => Failure(e)
    else
      match EscapedOctet(s, k)
      case None => Failure(UriError)
      case Some(lead) =>
        var n := SequenceLength(lead);
        if n == 0 then Failure(UriError)
        else
          match CodePoint(s, k, lead, n)
          case None => Failure(UriError)
          case Some(cp) =>
            match DecodeFrom(s, k + 3 * n)
            case Success(t) => Success([cp as char] + t)
            case Failure(e) => Failure(e)
  }

  /** `decodeURIComponent(s)`, `Failure` standing for a thrown URIError. */
  function DecodeUriComponent(s: string): Result<string, string> {
    DecodeFrom(s, 0)
  }

  /** Text without `%` decodes to itself. */
  lemma {:induction false} DecodePlain(s: string, k: nat)
    requires k <= |s|
    requires forall i :: k <= i < |s| ==> s[i] != '%'
    ensures DecodeFrom(s, k) == Success(s[k..])
    decreases |s| - k
  {
    if k < |s| {
      DecodePlain(s, k + 1);
      assert s[k..] == [s[k]] + s[k + 1..];
    }
  }

  /** The only error is URIError. */
  lemma {:induction false} DecodeErrorIsUriError(s: string, k: nat)
    requires k <= |s|
    ensures DecodeFrom(s, k).Failure? ==> DecodeFrom(s, k).error == UriError
    decreases |s| - k
  {
    if k < |s| {
      if s[k] != '%' {
        DecodeErrorIsUriError(s, k + 1);
      } else if EscapedOctet(s, k).Some? {
        var lead := EscapedOctet(s, k).value;
        var n := SequenceLength(lead);
        if n != 0 && CodePoint(s, k, lead, n).Some? {
          DecodeErrorIsUriError(s, k + 3 * n);
        }
      }
    }
  }

  /** A `%` at the very end can never start a complete escape, so decoding fails. */
  lemma {:induction false} TrailingPercentFails(s: string, k: nat)
    requires k < |s| && s[|s| - 1] == '%'
    ensures DecodeFrom(s, k).Failure?
    decreases |s| - k
  {
    if s[k] != '%' {
      TrailingPercentFails(s, k + 1);
    } else if EscapedOctet(s, k).Some? {
      var lead := EscapedOctet(s, k).value;
      var n := SequenceLength(lead);
      if n != 0 && CodePoint(s, k, lead, n).Some? {
        TrailingPercentFails(s, k + 3 * n);
      }
    }
  }

  /** An ASCII escape and a two-octet Cyrillic letter decode as expected. */
  lemma DecodeExamples()
    ensures DecodeUriComponent("%41") == Success("A")
    ensures DecodeUriComponent("%D0%90") == Success("\U{0410}")
  {
    assert EscapedOctet("%41", 0) == Some(0x41);
    assert SequenceLength(0x41) == 1;
    assert CodePoint("%41", 0, 0x41, 1) == Some(0x41);
    assert DecodeFrom("%41", 3) == Success("");
    assert [0x41 as char] + "" == "A";
    var t := "%D0%90";
    assert EscapedOctet(t, 0) == Some(0xD0);
    assert SequenceLength(0xD0) == 2;
    assert ContinuationBits(t, 3) == Some(0x10);
    assert CodePoint(t, 0, 0xD0, 2) == Some(0x410);
    assert DecodeFrom(t, 6) == Success("");
    assert [0x410 as char] + "" == "\U{0410}";
  }

  /** A lone continuation octet and a surrogate code point are rejected. */
  lemma DecodeRejects()
    ensures DecodeUriComponent("%80").Failure?
    ensures DecodeUriComponent("%ED%A0%80").Failure?
  {
    assert EscapedOctet("%80", 0) == Some(0x80);
    assert SequenceLength(0x80) == 0;
    var t := "%ED%A0%80";
    assert EscapedOctet(t, 0) == Some(0xED);
    assert SequenceLength(0xED) == 3;
    assert ContinuationBits(t, 3) == Some(0x20);
    assert ContinuationBits(t, 6) == Some(0);
    assert CodePoint(t, 0, 0xED, 3).None?;
  }
}
