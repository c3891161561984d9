/**
 * The JavaScript string operations the core relies on, stated over `seq<char>`.
 * One `char` is one Unicode scalar value, while JavaScript counts a supplementary-plane character
 * as two UTF-16 code units.
 * `toLowerCase` is modelled on ASCII letters only.
 */
module Text {
  import opened Wrappers

  /** The characters JavaScript's `trim()` removes and the regular-expression class `\s` matches. */
  predicate IsSpace(c: char)
  {
    || c == '\t' || c == '\n' || c == '\U{B}' || c == '\U{C}' || c == '\r' || c == ' '
    || c == '\U{A0}' || c == '\U{1680}' || ('\U{2000}' <= c <= '\U{200A}')
    || c == '\U{2028}' || c == '\U{2029}' || c == '\U{202F}' || c == '\U{205F}'
    || c == '\U{3000}' || c == '\U{FEFF}'
  }

  /** The characters the regular-expression `.` does not match. */
  predicate IsLineTerminator(c: char)
  {
    c == '\n' || c == '\r' || c == '\U{2028}' || c == '\U{2029}'
  }

  predicate AllSpace(s: string)
  {
    forall i :: 0 <= i < |s| ==> IsSpace(s[i])
  }

  /** `s.trimStart()` */
  function TrimStart(s: string): string
    decreases |s|
  {
    if s != [] && IsSpace(s[0]) then TrimStart(s[1..]) else s
  }

  /** `s.trimEnd()` */
  function TrimEnd(s: string): string
    decreases |s|
  {
    if s != [] && IsSpace(s[|s| - 1]) then TrimEnd(s[..|s| - 1]) else s
  }

  /** `trimStart` removes exactly the leading run of whitespace: what is left is a suffix of `s`
      that does not start with whitespace, and everything before it is whitespace. */
  lemma {:induction false} TrimStartShape(s: string)
    ensures |TrimStart(s)| <= |s| && TrimStart(s) == s[|s| - |TrimStart(s)|..]
    ensures TrimStart(s) == [] || !IsSpace(TrimStart(s)[0])
    ensures forall i :: 0 <= i < |s| - |TrimStart(s)| ==> IsSpace(s[i])
    decreases |s|
  {
    if s != [] && IsSpace(s[0]) {
      TrimStartShape(s[1..]);
    }
  }

  /** `trimEnd` removes exactly the trailing run of whitespace. */
  lemma {:induction false} TrimEndShape(s: string)
    ensures |TrimEnd(s)| <= |s| && TrimEnd(s) == s[..|TrimEnd(s)|]
    ensures TrimEnd(s) == [] || !IsSpace(TrimEnd(s)[|TrimEnd(s)| - 1])
    ensures forall i :: |TrimEnd(s)| <= i < |s| ==> IsSpace(s[i])
    decreases |s|
  {
    if s != [] && IsSpace(s[|s| - 1]) {
      TrimEndShape(s[..|s| - 1]);
    }
  }

  /** `s.trim()` */
  function Trim(s: string): string
  {
    TrimEnd(TrimStart(s))
  }

  /** The line is empty or whitespace only; `BlankIffTrimEmpty` shows this is `s.trim() === ''`. */
  predicate IsBlank(s: string)
  {
    AllSpace(s)
  }

  lemma {:induction false} TrimStartAllSpace(s: string)
    requires AllSpace(s)
    ensures TrimStart(s) == []
    decreases |s|
  {
    if s != [] {
      TrimStartAllSpace(s[1..]);
    }
  }

  lemma BlankIffTrimEmpty(s: string)
    ensures IsBlank(s) <==> Trim(s) == []
  {
    if AllSpace(s) {
      TrimStartAllSpace(s);
    }
    if Trim(s) == [] {
      var t := TrimStart(s);
      TrimStartShape(s);
      TrimEndShape(t);
      assert t == [];
    }
  }

  /** `s !== s.trimEnd()`: the string ends in whitespace. */
  lemma TrimEndChanges(s: string)
    ensures TrimEnd(s) != s <==> (s != [] && IsSpace(s[|s| - 1]))
  {
    if s != [] && IsSpace(s[|s| - 1]) {
      TrimEndShape(s[..|s| - 1]);
    }
  }

  /** `s.startsWith(p)` */
  predicate StartsWith(s: string, p: string)
  {
    |p| <= |s| && s[..|p|] == p
  }

  /** `p` occurs in `s` starting at index `j`. */
  predicate OccursAt(s: string, p: string, j: nat)
  {
    j + |p| <= |s| && s[j..j + |p|] == p
  }

  /** `s.indexOf(p, from)`, with `None` for -1. */
  function Find(s: string, p: string, from: nat): (r: Option<nat>)
    ensures r.Some? ==> from <= r.value && r.value + |p| <= |s|
    decreases |s| - from
  {
    if from + |p| > |s| then None
    else if s[from..from + |p|] == p then Some(from)
    else Find(s, p, from + 1)
  }

  /** `indexOf` finds the first occurrence at or after `from`, and reports -1 only when there is none. */
  lemma {:induction false} FindSpec(s: string, p: string, from: nat)
    ensures Find(s, p, from).Some? ==> OccursAt(s, p, Find(s, p, from).value)
    ensures Find(s, p, from).Some? ==> forall j :: from <= j < Find(s, p, from).value ==> !OccursAt(s, p, j)
    ensures Find(s, p, from).None? ==> forall j :: from <= j ==> !OccursAt(s, p, j)
    decreases |s| - from
  {
    if from + |p| <= |s| && s[from..from + |p|] != p {
      FindSpec(s, p, from + 1);
    }
  }

  /** `s.includes(p)` */
  predicate Contains(s: string, p: string)
  {
    Find(s, p, 0).Some?
  }

  lemma ContainsIff(s: string, p: string)
    ensures Contains(s, p) <==> exists j :: OccursAt(s, p, j)
  {
    FindSpec(s, p, 0);
  }

  lemma StartsWithContains(s: string, p: string)
    requires StartsWith(s, p)
    ensures Contains(s, p)
  {
    assert OccursAt(s, p, 0);
    FindSpec(s, p, 0);
  }

  /** `s.split(sep)` for a non-empty separator string. */
  function Split(s: string, sep: string): (r: seq<string>)
    requires sep != []
    ensures |r| >= 1
    decreases |s|
  {
    match Find(s, sep, 0)
    case None => [s]
    case Some(i) => [s[..i]] + Split(s[i + |sep|..], sep)
  }

  /** `s.split('\n')` */
  function Lines(s: string): (r: seq<string>)
    ensures |r| >= 1
  {
    Split(s, "\n")
  }

  /** `parts.join(sep)` */
  function Join(parts: seq<string>, sep: string): string
  {
    if |parts| == 0 then []
    else if |parts| == 1 then parts[0]
    else parts[0] + sep + Join(parts[1..], sep)
  }

  /** Splitting and joining again with the same separator gives back the original text. */
  lemma {:induction false} JoinSplit(s: string, sep: string)
    requires sep != []
    ensures Join(Split(s, sep), sep) == s
    decreases |s|
  {
    var f := Find(s, sep, 0);
    FindSpec(s, sep, 0);
    if f.Some? {
      var i := f.value;
      var rest := s[i + |sep|..];
      var tail := Split(rest, sep);
      JoinSplit(rest, sep);
      assert Split(s, sep) == [s[..i]] + tail;
      assert Join([s[..i]] + tail, sep) == s[..i] + sep + Join(tail, sep) by {
        assert ([s[..i]] + tail)[1..] == tail;
      }
      assert s == s[..i] + s[i..i + |sep|] + rest;
    }
  }

  /** The index of the first whitespace character at or after `from`. */
  function FirstSpace(s: string, from: nat): (r: Option<nat>)
    ensures r.Some? ==> from <= r.value < |s| && IsSpace(s[r.value])
    ensures r.Some? ==> forall j :: from <= j < r.value ==> !IsSpace(s[j])
    ensures r.None? ==> forall j :: from <= j < |s| ==> !IsSpace(s[j])
    decreases |s| - from
  {
    if from >= |s| then None
    else if IsSpace(s[from]) then Some(from)
    else FirstSpace(s, from + 1)
  }

  /** The end of the run of whitespace starting at `from`. */
  function SkipSpaces(s: string, from: nat): (r: nat)
    requires from <= |s|
    ensures from <= r <= |s|
    ensures forall j :: from <= j < r ==> IsSpace(s[j])
    ensures r == |s| || !IsSpace(s[r])
    decreases |s| - from
  {
    if from < |s| && IsSpace(s[from]) then SkipSpaces(s, from + 1) else from
  }

  /** `s.split(/\s+/)` */
  function SplitWs(s: string): (r: seq<string>)
    ensures |r| >= 1
    decreases |s|
  {
    match FirstSpace(s, 0)
    case None => [s]
    case Some(i) => [s[..i]] + SplitWs(s[SkipSpaces(s, i)..])
  }

  function LowerChar(c: char): char
  {
    if 'A' <= c <= 'Z' then (c as int + 32) as char else c
  }

  /** `s.toLowerCase()` on ASCII letters. */
  function ToLower(s: string): (r: string)
    ensures |r| == |s|
    ensures forall i :: 0 <= i < |s| ==> r[i] == LowerChar(s[i])
  {
    seq(|s|, i requires 0 <= i < |s| => LowerChar(s[i]))
  }

  /** The class `[a-z0-9]`. */
  predicate IsLowerAlnum(c: char)
  {
    'a' <= c <= 'z' || '0' <= c <= '9'
  }

  /** Drops the leading characters outside `[a-z0-9]`. */
  function DropNonAlnum(s: string): (r: string)
    ensures |r| <= |s|
    ensures r == [] || IsLowerAlnum(r[0])
    decreases |s|
  {
    if s != [] && !IsLowerAlnum(s[0]) then DropNonAlnum(s[1..]) else s
  }

  /** `s.replace(/[^a-z0-9]+/g, '-')`: every maximal run outside `[a-z0-9]` becomes one dash. */
  function Dashify(s: string): string
    decreases |s|
  {
    if s == [] then []
    else if IsLowerAlnum(s[0]) then [s[0]] + Dashify(s[1..])
    else "-" + Dashify(DropNonAlnum(s[1..]))
  }

  /** The anchor the table of contents and the sitemap derive from a heading. */
  function Anchor(s: string): string
  {
    Dashify(ToLower(s))
  }

  /** Only `[a-z0-9]` and `-`. */
  predicate DashChars(s: string)
  {
    forall i :: 0 <= i < |s| ==> IsLowerAlnum(s[i]) || s[i] == '-'
  }

  /** No two dashes next to each other. */
  predicate NoDoubleDash(s: string)
  {
    forall i :: 0 <= i < |s| - 1 ==> !(s[i] == '-' && s[i + 1] == '-')
  }

  /** A dashified text uses only `[a-z0-9-]`, has no `--`, and starts with a dash only if the input
      starts outside `[a-z0-9]`. */
  lemma {:induction false} DashifyShape(s: string)
    ensures DashChars(Dashify(s)) && NoDoubleDash(Dashify(s))
    ensures Dashify(s) != [] ==> (Dashify(s)[0] == '-' <==> !IsLowerAlnum(s[0]))
    ensures Dashify(s) == [] <==> s == []
    decreases |s|
  {
    if s == [] {
    } else if IsLowerAlnum(s[0]) {
      DashifyShape(s[1..]);
    } else {
      var t := DropNonAlnum(s[1..]);
      DashifyShape(t);
      var d := Dashify(t);
      assert Dashify(s) == "-" + d;
      if d != [] {
        assert d[0] != '-';
      }
    }
  }

  /** A text already in dashified form is left unchanged. */
  lemma {:induction false} DashifyFixpoint(s: string)
    requires DashChars(s) && NoDoubleDash(s)
    ensures Dashify(s) == s
    decreases |s|
  {
    if s != [] {
      assert DashChars(s[1..]) && NoDoubleDash(s[1..]) by {
        forall i | 0 <= i < |s[1..]| - 1 ensures !(s[1..][i] == '-' && s[1..][i + 1] == '-') {
          assert s[1..][i] == s[i + 1] && s[1..][i + 1] == s[i + 2];
        }
      }
      DashifyFixpoint(s[1..]);
      if !IsLowerAlnum(s[0]) {
        assert s[1..] == [] || IsLowerAlnum(s[1]);
        assert DropNonAlnum(s[1..]) == s[1..];
      }
    }
  }

  /** The `[a-z0-9]` characters of a text, in order. */
  function Alnums(s: string): (r: string)
    ensures |r| <= |s|
  {
    if s == [] then [] else (if IsLowerAlnum(s[0]) then [s[0]] else []) + Alnums(s[1..])
  }

  lemma {:induction false} AlnumsAppend(a: string, b: string)
    ensures Alnums(a + b) == Alnums(a) + Alnums(b)
    decreases |a|
  {
    if a != [] {
      assert (a + b)[0] == a[0] && (a + b)[1..] == a[1..] + b;
      AlnumsAppend(a[1..], b);
      var h := if IsLowerAlnum(a[0]) then [a[0]] else [];
      assert Alnums(a + b) == h + (Alnums(a[1..]) + Alnums(b));
    } else {
      assert a + b == b;
    }
  }

  lemma {:induction false} DropNonAlnumAlnums(s: string)
    ensures Alnums(DropNonAlnum(s)) == Alnums(s)
    decreases |s|
  {
    if s != [] && !IsLowerAlnum(s[0]) {
      DropNonAlnumAlnums(s[1..]);
    }
  }

  /** Dashifying replaces only characters outside `[a-z0-9]`: it keeps every `[a-z0-9]` character,
      in order, and adds none. */
  lemma {:induction false} DashifyKeepsAlnums(s: string)
    ensures Alnums(Dashify(s)) == Alnums(s)
    decreases |s|
  {
    if s != [] {
      if IsLowerAlnum(s[0]) {
        DashifyKeepsAlnums(s[1..]);
        AlnumsAppend([s[0]], Dashify(s[1..]));
      } else {
        var t := DropNonAlnum(s[1..]);
        DashifyKeepsAlnums(t);
        DropNonAlnumAlnums(s[1..]);
        AlnumsAppend("-", Dashify(t));
      }
    }
  }

  /** Lower-casing leaves a text of `[a-z0-9-]` unchanged. */
  lemma ToLowerFixpoint(s: string)
    requires DashChars(s)
    ensures ToLower(s) == s
  {
  }

  /** Number of non-overlapping occurrences of `p`, scanning left to right from `i`
      (the length of `s.match(/p/g)`, or 0 for `null`). */
  function CountFrom(s: string, p: string, i: nat): nat
    requires p != []
    decreases |s| - i
  {
    if i + |p| > |s| then 0
    else if s[i..i + |p|] == p then 1 + CountFrom(s, p, i + |p|)
    else CountFrom(s, p, i + 1)
  }

  function Count(s: string, p: string): nat
    requires p != []
  {
    CountFrom(s, p, 0)
  }

  function DigitChar(d: nat): char
    requires d < 10
  {
    ('0' as int + d) as char
  }

  /** The decimal text of a natural number, as template literals print it. */
  function NatToString(n: nat): string
    decreases n
  {
    if n < 10 then [DigitChar(n)] else NatToString(n / 10) + [DigitChar(n % 10)]
  }

  /** `s.substring(0, n)` */
  function Prefix(s: string, n: nat): (r: string)
    ensures |r| <= n && |r| <= |s| && r == s[..|r|]
    ensures |s| <= n ==> r == s
  {
    if |s| <= n then s else s[..n]
  }

  /** A string value that JavaScript treats as true: present and not empty. */
  predicate Present(o: Option<string>)
  {
    o.Some? && o.value != []
  }

  /** The names of the properties every object literal inherits from `Object.prototype`, which
      an index such as `obj[key]` finds even though the literal does not list them. */
  predicate InheritedName(id: string)
  {
    id in {"constructor", "hasOwnProperty", "isPrototypeOf", "propertyIsEnumerable", "toString",
           "toLocaleString", "valueOf", "__proto__", "__defineGetter__", "__defineSetter__",
           "__lookupGetter__", "__lookupSetter__"}
  }
}
