/** `btoa` and `atob`: Base64 with the alphabet and padding of section 4 of
    RFC 4648, over "binary strings" (one character per byte). `atob` is the
    forgiving decoder browsers implement: it ignores ASCII white space,
    accepts missing padding and discards leftover bits. */
module Base64 {
  import opened Wrappers

  type Byte = b: int | 0 <= b < 256
  type Sextet = x: int | 0 <= x < 64

  /** The 64-character alphabet of section 4 of RFC 4648. */
  function SextetChar(x: Sextet): (c: char)
    ensures IsAlphabetChar(c) && c != '='
  {
    if x < 26 then ('A' as int + x) as char
    else if x < 52 then ('a' as int + (x - 26)) as char
    else if x < 62 then ('0' as int + (x - 52)) as char
    else if x == 62 then '+'
    else '/'
  }

  predicate IsAlphabetChar(c: char) {
    ('A' <= c <= 'Z') || ('a' <= c <= 'z') || ('0' <= c <= '9') || c == '+' || c == '/'
  }

  /** The value of an alphabet character: the inverse of the table. */
  function CharSextet(c: char): (x: Sextet)
    requires IsAlphabetChar(c)
    ensures SextetChar(x) == c
  {
    if 'A' <= c <= 'Z' then c as int - 'A' as int
    else if 'a' <= c <= 'z' then c as int - 'a' as int + 26
    else if '0' <= c <= '9' then c as int - '0' as int + 52
    else if c == '+' then 62
    else 63
  }

  lemma SextetCharInverse(x: Sextet)
    ensures CharSextet(SextetChar(x)) == x
  {
  }

  /** The four sextets of a three-byte group, most significant bits first. */
  function Hi(b0: Byte): Sextet { b0 / 4 }
  function MidHi(b0: Byte, b1: Byte): Sextet { (b0 % 4) * 16 + b1 / 16 }
  function MidLo(b1: Byte, b2: Byte): Sextet { (b1 % 16) * 4 + b2 / 64 }
  function Lo(b2: Byte): Sextet { b2 % 64 }

  /** The three bytes of a four-sextet group. */
  function First(x0: Sextet, x1: Sextet): Byte { x0 * 4 + x1 / 16 }
  function Second(x1: Sextet, x2: Sextet): Byte { (x1 % 16) * 16 + x2 / 4 }
  function Third(x2: Sextet, x3: Sextet): Byte { (x2 % 4) * 64 + x3 }

  /** Each byte is recovered from the two sextets that carry its bits, and a
      zero byte after it only fills the discarded bits. */
  lemma GroupInverse(b0: Byte, b1: Byte, b2: Byte)
    ensures First(Hi(b0), MidHi(b0, b1)) == b0
    ensures Second(MidHi(b0, b1), MidLo(b1, b2)) == b1
    ensures Third(MidLo(b1, b2), Lo(b2)) == b2
  {
    assert (b0 / 4) * 4 + b0 % 4 == b0;
    assert (b1 / 16) * 16 + b1 % 16 == b1;
    assert (b2 / 64) * 64 + b2 % 64 == b2;
    assert MidHi(b0, b1) / 16 == b0 % 4;
    assert MidHi(b0, b1) % 16 == b1 / 16;
    assert MidLo(b1, b2) / 4 == b1 % 16;
    assert MidLo(b1, b2) % 4 == b2 / 64;
  }

  /** The sextets that encode `bs`, before padding: four per three bytes,
      two for a final single byte, three for a final pair (the missing bytes
      count as zero). */
  function Sextets(bs: seq<Byte>): seq<Sextet> {
    if |bs| == 0 then []
    else if |bs| == 1 then [Hi(bs[0]), MidHi(bs[0], 0)]
    else if |bs| == 2 then [Hi(bs[0]), MidHi(bs[0], bs[1]), MidLo(bs[1], 0)]
    else [Hi(bs[0]), MidHi(bs[0], bs[1]), MidLo(bs[1], bs[2]), Lo(bs[2])] + Sextets(bs[3..])
  }

  /** The bytes a run of sextets decodes to; a final group of two or three
      sextets yields one or two bytes and its leftover bits are dropped. */
  function Bytes(xs: seq<Sextet>): seq<Byte>
    requires |xs| % 4 != 1
  {
    if |xs| == 0 then []
    else if |xs| == 2 then [First(xs[0], xs[1])]
    else if |xs| == 3 then [First(xs[0], xs[1]), Second(xs[1], xs[2])]
    else [First(xs[0], xs[1]), Second(xs[1], xs[2]), Third(xs[2], xs[3])] + Bytes(xs[4..])
  }

  /** Full groups give four sextets; a final byte gives two, a final pair three. */
  lemma {:induction false} SextetsLength(bs: seq<Byte>)
    ensures |Sextets(bs)| % 4 == if |bs| % 3 == 0 then 0 else |bs| % 3 + 1
  {
    if |bs| == 1 {
      assert |Sextets(bs)| == 2;
    } else if |bs| == 2 {
      assert |Sextets(bs)| == 3;
    } else if |bs| >= 3 {
      SextetsLength(bs[3..]);
      assert |Sextets(bs)| == |Sextets(bs[3..])| + 4;
      GroupRemainders(|Sextets(bs[3..])|, |bs| - 3);
    }
  }

  /** One more group leaves both remainders unchanged. */
  lemma GroupRemainders(n: nat, m: nat)
    ensures (n + 4) % 4 == n % 4 && (m + 3) % 3 == m % 3
  {
  }

  lemma {:induction false} BytesOfSextets(bs: seq<Byte>)
    ensures |Sextets(bs)| % 4 != 1
    ensures Bytes(Sextets(bs)) == bs
  {
    if |bs| == 1 {
      LastByte(bs[0]);
      assert bs == [bs[0]];
    } else if |bs| == 2 {
      LastPair(bs[0], bs[1]);
      assert bs == [bs[0], bs[1]];
    } else if |bs| >= 3 {
      var rest := Sextets(bs[3..]);
      BytesOfSextets(bs[3..]);
      BytesOfGroup(Hi(bs[0]), MidHi(bs[0], bs[1]), MidLo(bs[1], bs[2]), Lo(bs[2]), rest);
      GroupInverse(bs[0], bs[1], bs[2]);
      assert bs == [bs[0], bs[1], bs[2]] + bs[3..];
    }
  }

  lemma BytesOfGroup(x0: Sextet, x1: Sextet, x2: Sextet, x3: Sextet, rest: seq<Sextet>)
    requires |rest| % 4 != 1
    ensures |[x0, x1, x2, x3] + rest| % 4 != 1
    ensures Bytes([x0, x1, x2, x3] + rest) == [First(x0, x1), Second(x1, x2), Third(x2, x3)] + Bytes(rest)
  {
    var xs := [x0, x1, x2, x3] + rest;
    assert xs[4..] == rest;
  }

  lemma LastByte(b0: Byte)
    ensures Sextets([b0]) == [Hi(b0), MidHi(b0, 0)]
    ensures Bytes([Hi(b0), MidHi(b0, 0)]) == [b0]
  {
    var xs := [Hi(b0), MidHi(b0, 0)];
    assert Bytes(xs) == [First(xs[0], xs[1])];
    GroupInverse(b0, 0, 0);
  }

  lemma LastPair(b0: Byte, b1: Byte)
    ensures Sextets([b0, b1]) == [Hi(b0), MidHi(b0, b1), MidLo(b1, 0)]
    ensures Bytes([Hi(b0), MidHi(b0, b1), MidLo(b1, 0)]) == [b0, b1]
  {
    var xs := [Hi(b0), MidHi(b0, b1), MidLo(b1, 0)];
    assert Bytes(xs) == [First(xs[0], xs[1]), Second(xs[1], xs[2])];
    GroupInverse(b0, b1, 0);
  }

  function Chars(xs: seq<Sextet>): (s: string)
    ensures |s| == |xs|
    ensures forall i :: 0 <= i < |s| ==> IsAlphabetChar(s[i]) && s[i] != '='
  {
    seq(|xs|, i requires 0 <= i < |xs| => SextetChar(xs[i]))
  }

  function Values(s: string): (xs: seq<Sextet>)
    requires forall i :: 0 <= i < |s| ==> IsAlphabetChar(s[i])
    ensures |xs| == |s|
  {
    seq(|s|, i requires 0 <= i < |s| => CharSextet(s[i]))
  }

  lemma ValuesOfChars(xs: seq<Sextet>)
    ensures Values(Chars(xs)) == xs
  {
    forall i | 0 <= i < |xs| ensures Values(Chars(xs))[i] == xs[i] {
      SextetCharInverse(xs[i]);
    }
  }

  /** Base64 encoding of section 4 of RFC 4648, with `=` padding to a
      multiple of four characters. */
  function Encode(bs: seq<Byte>): (s: string)
    ensures |s| % 4 == 0
  {
    SextetsLength(bs);
    var body := Chars(Sextets(bs));
    var pad := if |bs| % 3 == 1 then "==" else if |bs| % 3 == 2 then "=" else "";
    PaddingCompletesGroup(|body|, |bs| % 3, |pad|);
    body + pad
  }

  /** Two `=` after a group of two sextets, one after a group of three. */
  lemma PaddingCompletesGroup(n: nat, k: nat, p: nat)
    requires k < 3 && n % 4 == (if k == 0 then 0 else k + 1)
    requires p == if k == 1 then 2 else if k == 2 then 1 else 0
    ensures (n + p) % 4 == 0
  {
  }

  /** The ASCII white space the forgiving decoder skips: TAB, LF, FF, CR, SPACE. */
  predicate IsAsciiWhitespace(c: char) {
    c == '\t' || c == '\n' || c == '\U{000C}' || c == '\r' || c == ' '
  }

  function RemoveAsciiWhitespace(s: string): (r: string)
    ensures |r| <= |s|
    ensures (forall i :: 0 <= i < |s| ==> !IsAsciiWhitespace(s[i])) ==> r == s
  {
    if s == [] then []
    else (if IsAsciiWhitespace(s[0]) then [] else [s[0]]) + RemoveAsciiWhitespace(s[1..])
  }

  /** One or two trailing `=` removed, as the decoder does for input whose
      length is a multiple of four. */
  function StripPadding(t: string): (r: string)
    ensures |r| <= |t|
  {
    if |t| >= 2 && t[|t| - 2] == '=' && t[|t| - 1] == '=' then t[..|t| - 2]
    else if |t| >= 1 && t[|t| - 1] == '=' then t[..|t| - 1]
    else t
  }

  /** The forgiving Base64 decoder: `None` where `atob` throws. */
  function Decode(s: string): Option<seq<Byte>> {
    var t := RemoveAsciiWhitespace(s);
    var u := if |t| % 4 == 0 then StripPadding(t) else t;
    if |u| % 4 == 1 then None
    else if exists i :: 0 <= i < |u| && !IsAlphabetChar(u[i]) then None
    else Some(Bytes(Values(u)))
  }

  /** Stripping drops exactly the padding after a body with no `=` in it. */
  lemma StripPaddingOf(body: string, pad: string)
    requires forall i :: 0 <= i < |body| ==> body[i] != '='
    requires pad == "" || pad == "=" || pad == "=="
    ensures StripPadding(body + pad) == body
  {
    var s := body + pad;
    if pad == "" {
      assert s == body;
      assert |s| >= 1 ==> s[|s| - 1] == body[|body| - 1];
    } else if pad == "=" {
      assert s[..|s| - 1] == body;
      assert |s| >= 2 ==> s[|s| - 2] == body[|body| - 1];
    } else {
      assert s[..|s| - 2] == body;
    }
  }

  lemma EncodePadding(bs: seq<Byte>)
    ensures RemoveAsciiWhitespace(Encode(bs)) == Encode(bs)
    ensures StripPadding(Encode(bs)) == Chars(Sextets(bs))
  {
    var body := Chars(Sextets(bs));
    var pad := if |bs| % 3 == 1 then "==" else if |bs| % 3 == 2 then "=" else "";
    var s := body + pad;
    assert Encode(bs) == s;
    assert forall i :: 0 <= i < |s| ==> !IsAsciiWhitespace(s[i]) by {
      forall i | 0 <= i < |s| ensures !IsAsciiWhitespace(s[i]) {
        if i < |body| { assert s[i] == body[i]; } else { assert s[i] == pad[i - |body|]; }
      }
    }
    StripPaddingOf(body, pad);
  }

  /** Decoding undoes encoding for every byte string. */
  lemma DecodeEncode(bs: seq<Byte>)
    ensures Decode(Encode(bs)) == Some(bs)
  {
    EncodePadding(bs);
    BytesOfSextets(bs);
    ValuesOfChars(Sextets(bs));
  }

  /** A "binary string": every character is below U+0100. */
  predicate IsBinaryString(s: string) {
    forall i :: 0 <= i < |s| ==> s[i] as int < 256
  }

  function ToBytes(s: string): (bs: seq<Byte>)
    requires IsBinaryString(s)
    ensures |bs| == |s|
  {
    seq(|s|, i requires 0 <= i < |s| => s[i] as int)
  }

  function FromBytes(bs: seq<Byte>): (s: string)
    ensures IsBinaryString(s) && |s| == |bs|
  {
    seq(|bs|, i requires 0 <= i < |bs| => bs[i] as char)
  }

  /** `btoa(s)`: `None` where it throws, because some character is above U+00FF. */
  function Btoa(s: string): (r: Option<string>)
    ensures r.Some? <==> IsBinaryString(s)
  {
    if IsBinaryString(s) then Some(Encode(ToBytes(s))) else None
  }

  /** `atob(s)`: the decoded binary string, or `None` where it throws. */
  function Atob(s: string): (r: Option<string>)
    ensures r.Some? ==> IsBinaryString(r.value)
  {
    match Decode(s)
    case None => None
    case Some(bs) => Some(FromBytes(bs))
  }

  /** `atob(btoa(s)) == s` for every string `btoa` accepts. */
  lemma AtobBtoa(s: string)
    requires IsBinaryString(s)
    ensures Btoa(s).Some? && Atob(Btoa(s).value) == Some(s)
  {
    DecodeEncode(ToBytes(s));
    assert FromBytes(ToBytes(s)) == s;
  }
}
