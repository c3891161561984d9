/**
 * `btoa` and `atob`, which lib/storage-utils.ts uses for its "compression" and "encryption":
 * standard base64 (RFC 4648, section 4) of a string whose characters are all below U+0100, each
 * character standing for one byte. `btoa` throws for any other character, which the model writes
 * as `None`.
 */
module Base64 {
  import opened Wrappers

  /** The base64 alphabet: `A`-`Z`, `a`-`z`, `0`-`9`, `+`, `/`. */
  function Alphabet(i: nat): char
    requires i < 64
  {
    if i < 26 then ('A' as int + i) as char
    else if i < 52 then ('a' as int + i - 26) as char
    else if i < 62 then ('0' as int + i - 52) as char
    else if i == 62 then '+'
    else '/'
  }

  /** The six-bit value of an alphabet character; `None` for any other character, `=` included. */
  function SextetOf(c: char): (r: Option<nat>)
    ensures r.Some? ==> r.value < 64
  {
    if 'A' <= c <= 'Z' then Some(c as int - 'A' as int)
    else if 'a' <= c <= 'z' then Some(c as int - 'a' as int + 26)
    else if '0' <= c <= '9' then Some(c as int - '0' as int + 52)
    else if c == '+' then Some(62)
    else if c == '/' then Some(63)
    else None
  }

  lemma SextetOfAlphabet(i: nat)
    requires i < 64
    ensures SextetOf(Alphabet(i)) == Some(i)
  {
  }

  /** Every character stands for one byte. */
  predicate IsLatin1(s: string)
  {
    forall i :: 0 <= i < |s| ==> (s[i] as int) < 256
  }

  /** Three bytes as four alphabet characters. */
  function Quad(a: nat, b: nat, c: nat): string
    requires a < 256 && b < 256 && c < 256
  {
    [Alphabet(a / 4), Alphabet(a % 4 * 16 + b / 16), Alphabet(b % 16 * 4 + c / 64), Alphabet(c % 64)]
  }

  /** The base64 text of a byte string, padded with `=` to a multiple of four characters. */
  function Encode(s: string): (r: string)
    requires IsLatin1(s)
    ensures |r| == 4 * ((|s| + 2) / 3)
  {
    if s == [] then []
    else if |s| == 1 then
      var a := s[0] as int;
      [Alphabet(a / 4), Alphabet(a % 4 * 16), '=', '=']
    else if |s| == 2 then
      var a, b := s[0] as int, s[1] as int;
      [Alphabet(a / 4), Alphabet(a % 4 * 16 + b / 16), Alphabet(b % 16 * 4), '=']
    else
      Quad(s[0] as int, s[1] as int, s[2] as int) + Encode(s[3..])
  }

  /** `btoa(s)`; `None` where it throws because a character is above U+00FF. */
  function Btoa(s: string): (r: Option<string>)
    ensures r.Some? <==> IsLatin1(s)
  {
    if IsLatin1(s) then Some(Encode(s)) else None
  }

  function PrependBytes(bytes: string, r: Option<string>): (p: Option<string>)
    ensures p.Some? <==> r.Some?
    ensures p.Some? ==> p.value == bytes + r.value
  {
    match r
    case None => None
    case Some(s) => Some(bytes + s)
  }

  /** The bytes one group of four characters stands for: three, or fewer when the group is the
      last one and ends in padding. */
  function Group(q: string, last: bool): (r: Option<string>)
    requires |q| == 4
    ensures r.Some? ==> 1 <= |r.value| <= 3 && IsLatin1(r.value)
    ensures r.Some? && |r.value| < 3 ==> last
  {
    var w, x, y, z := SextetOf(q[0]), SextetOf(q[1]), SextetOf(q[2]), SextetOf(q[3]);
    if w.None? || x.None? then None
    else
      var b0 := (w.value * 4 + x.value / 16) as char;
      if last && q[2] == '=' && q[3] == '=' then Some([b0])
      else if y.None? then None
      else
        var b1 := (x.value % 16 * 16 + y.value / 4) as char;
        if last && q[3] == '=' then Some([b0, b1])
        else if z.None? then None
        else Some([b0, b1, (y.value % 4 * 64 + z.value) as char])
  }

  /** `atob(t)` on padded base64 text; `None` where it throws because the text is not base64. */
  function Atob(t: string): (r: Option<string>)
    ensures r.Some? ==> IsLatin1(r.value)
  {
    if t == [] then Some([])
    else if |t| < 4 then None
    else
      match Group(t[..4], |t| == 4)
      case None => None
      case Some(bytes) => if |bytes| < 3 then Some(bytes) else PrependBytes(bytes, Atob(t[4..]))
  }

  lemma QuadDecodes(a: nat, b: nat, c: nat)
    requires a < 256 && b < 256 && c < 256
    ensures var w, x, y, z := a / 4, a % 4 * 16 + b / 16, b % 16 * 4 + c / 64, c % 64;
      w * 4 + x / 16 == a && x % 16 * 16 + y / 4 == b && y % 4 * 64 + z == c
  {
  }

  lemma GroupOfQuad(a: nat, b: nat, c: nat, last: bool)
    requires a < 256 && b < 256 && c < 256
    ensures Group(Quad(a, b, c), last) == Some([a as char, b as char, c as char])
  {
    SextetOfAlphabet(a / 4);
    SextetOfAlphabet(a % 4 * 16 + b / 16);
    SextetOfAlphabet(b % 16 * 4 + c / 64);
    SextetOfAlphabet(c % 64);
    QuadDecodes(a, b, c);
  }

  lemma GroupOfOne(a: nat)
    requires a < 256
    ensures Group([Alphabet(a / 4), Alphabet(a % 4 * 16), '=', '='], true) == Some([a as char])
  {
    SextetOfAlphabet(a / 4);
    SextetOfAlphabet(a % 4 * 16);
    QuadDecodes(a, 0, 0);
  }

  lemma GroupOfTwo(a: nat, b: nat)
    requires a < 256 && b < 256
    ensures Group([Alphabet(a / 4), Alphabet(a % 4 * 16 + b / 16), Alphabet(b % 16 * 4), '='], true)
         == Some([a as char, b as char])
  {
    SextetOfAlphabet(a / 4);
    SextetOfAlphabet(a % 4 * 16 + b / 16);
    SextetOfAlphabet(b % 16 * 4);
    QuadDecodes(a, b, 0);
  }

  /** `atob(btoa(s)) == s` whenever `btoa(s)` does not throw. */
  lemma {:induction false} AtobBtoa(s: string)
    requires IsLatin1(s)
    ensures Atob(Encode(s)) == Some(s)
    decreases |s|
  {
    if s == [] {
    } else if |s| == 1 {
      AtobOne(s);
    } else if |s| == 2 {
      AtobTwo(s);
    } else {
      AtobBtoa(s[3..]);
      AtobStep(s);
    }
  }

  lemma AtobOne(s: string)
    requires IsLatin1(s) && |s| == 1
    ensures Atob(Encode(s)) == Some(s)
  {
    var t := Encode(s);
    GroupOfOne(s[0] as int);
    assert [s[0] as int as char] == s;
    AtobLast(t, s);
  }

  lemma AtobTwo(s: string)
    requires IsLatin1(s) && |s| == 2
    ensures Atob(Encode(s)) == Some(s)
  {
    var t := Encode(s);
    GroupOfTwo(s[0] as int, s[1] as int);
    assert [s[0] as int as char, s[1] as int as char] == s;
    AtobLast(t, s);
  }

  /** A last group decodes to its bytes. */
  lemma AtobLast(t: string, bytes: string)
    requires |t| == 4 && Group(t, true) == Some(bytes) && |bytes| < 3
    ensures Atob(t) == Some(bytes)
  {
    assert t[..4] == t;
  }

  lemma AtobStep(s: string)
    requires IsLatin1(s) && |s| >= 3
    requires Atob(Encode(s[3..])) == Some(s[3..])
    ensures Atob(Encode(s)) == Some(s)
  {
    var q, rest := Quad(s[0] as int, s[1] as int, s[2] as int), Encode(s[3..]);
    assert Encode(s) == q + rest;
    GroupOfFirstThree(s, rest == []);
    AtobCons(q, rest, s[..3]);
    assert s[..3] + s[3..] == s;
  }

  lemma GroupOfFirstThree(s: string, last: bool)
    requires IsLatin1(s) && |s| >= 3
    ensures Group(Quad(s[0] as int, s[1] as int, s[2] as int), last) == Some(s[..3])
  {
    GroupOfQuad(s[0] as int, s[1] as int, s[2] as int, last);
    assert [s[0] as int as char, s[1] as int as char, s[2] as int as char] == s[..3];
  }

  /** A full group in front of the rest decodes to its three bytes in front of the rest's. */
  lemma AtobCons(q: string, rest: string, bytes: string)
    requires |q| == 4 && |bytes| == 3 && Group(q, rest == []) == Some(bytes)
    ensures Atob(q + rest) == PrependBytes(bytes, Atob(rest))
  {
    var t := q + rest;
    assert t[..4] == q && t[4..] == rest;
  }

  /** Every character of `btoa`'s output is in the alphabet or is the padding `=`. */
  lemma {:induction false} EncodeAlphabet(s: string)
    requires IsLatin1(s)
    ensures forall i :: 0 <= i < |Encode(s)| ==> SextetOf(Encode(s)[i]).Some? || Encode(s)[i] == '='
    decreases |s|
  {
    if |s| >= 3 {
      var a, b, c := s[0] as int, s[1] as int, s[2] as int;
      SextetOfAlphabet(a / 4);
      SextetOfAlphabet(a % 4 * 16 + b / 16);
      SextetOfAlphabet(b % 16 * 4 + c / 64);
      SextetOfAlphabet(c % 64);
      EncodeAlphabet(s[3..]);
    } else if |s| == 2 {
      SextetOfAlphabet(s[0] as int / 4);
      SextetOfAlphabet(s[0] as int % 4 * 16 + s[1] as int / 16);
      SextetOfAlphabet(s[1] as int % 16 * 4);
    } else if |s| == 1 {
      SextetOfAlphabet(s[0] as int / 4);
      SextetOfAlphabet(s[0] as int % 4 * 16);
    }
  }
}
