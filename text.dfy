/**
 * The string operations of Python's `str` that rio-color relies on:
 * `lower`, `upper`, `strip`, `replace(c, "")`, `split(sep)`, `sep.join`,
 * `re.split("[...]+", s)` with the empty pieces filtered out, and decimal
 * rendering of integers as `%i` does it.
 */
module Text {

  /** ASCII case mapping; Python maps other letters too (not modelled). */
  function LowerChar(c: char): char
  {
    if 'A' <= c <= 'Z' then (c as int + 32) as char else c
  }

  function UpperChar(c: char): char
  {
    if 'a' <= c <= 'z' then (c as int - 32) as char else c
  }

  function Lower(s: string): (r: string)
    ensures |r| == |s|
    ensures forall i :: 0 <= i < |s| ==> r[i] == LowerChar(s[i])
  {
    seq(|s|, i requires 0 <= i < |s| => LowerChar(s[i]))
  }

  /** Equal once both are lower-cased: the same text in any ASCII case. */
  predicate SameIgnoringCase(a: string, b: string)
  {
    |a| == |b| && forall i :: 0 <= i < |a| ==> LowerChar(a[i]) == LowerChar(b[i])
  }

  /** Lower-casing is the one case-insensitive copy without upper-case letters. */
  lemma LowerIgnoringCase(t: string, u: string)
    requires Lower(u) == u
    ensures Lower(t) == u <==> SameIgnoringCase(t, u)
  {
    if SameIgnoringCase(t, u) {
      assert forall i :: 0 <= i < |t| ==> Lower(t)[i] == LowerChar(u[i]) == Lower(u)[i];
    }
  }

  function Upper(s: string): (r: string)
    ensures |r| == |s|
    ensures forall i :: 0 <= i < |s| ==> r[i] == UpperChar(s[i])
  {
    seq(|s|, i requires 0 <= i < |s| => UpperChar(s[i]))
  }

  /** Python's `str.isspace`, the characters `str.strip()` removes: the ASCII
      controls 9-13 and 28-31, the space, NEL, no-break space, the ogham space
      mark, the en quad to the hair space, the line and paragraph separators,
      the narrow no-break, medium mathematical and ideographic spaces. */
  predicate IsSpace(c: char)
  {
    var n := c as int;
    9 <= n <= 13 || 28 <= n <= 32 || n == 0x85 || n == 0xA0 || n == 0x1680
    || 0x2000 <= n <= 0x200A || n == 0x2028 || n == 0x2029 || n == 0x202F
    || n == 0x205F || n == 0x3000
  }

  predicate NoSpace(s: string)
  {
    forall i :: 0 <= i < |s| ==> !IsSpace(s[i])
  }

  /** Printable ASCII other than the space: `!` to `~`. */
  predicate Visible(s: string)
  {
    forall i :: 0 <= i < |s| ==> '!' <= s[i] <= '~'
  }

  lemma VisibleNoSpace(s: string)
    requires Visible(s)
    ensures NoSpace(s)
  {
  }

  function StripLeft(s: string): (r: string)
    ensures |r| <= |s| && r == s[|s| - |r|..]
    ensures r == [] || !IsSpace(r[0])
    ensures s != [] && !IsSpace(s[0]) ==> r == s
  {
    if s != [] && IsSpace(s[0]) then StripLeft(s[1..]) else s
  }

  function StripRight(s: string): (r: string)
    ensures |r| <= |s| && r == s[..|r|]
    ensures r == [] || !IsSpace(r[|r| - 1])
    ensures s != [] && !IsSpace(s[|s| - 1]) ==> r == s
  {
    if s != [] && IsSpace(s[|s| - 1]) then StripRight(s[..|s| - 1]) else s
  }

  /** `s.strip()`: leading and trailing whitespace removed. */
  function Strip(s: string): (r: string)
    ensures r == [] || (!IsSpace(r[0]) && !IsSpace(r[|r| - 1]))
    ensures NoSpace(s) ==> r == s
  {
    StripRight(StripLeft(s))
  }

  /** Neither begins nor ends with whitespace. */
  predicate Stripped(s: string)
  {
    s == [] || (!IsSpace(s[0]) && !IsSpace(s[|s| - 1]))
  }

  lemma StripAll(pieces: seq<string>)
    ensures forall i :: 0 <= i < |pieces| ==> Stripped(Strip(pieces[i]))
  {
  }

  /** Trailing whitespace after a word is stripped and nothing else. */
  lemma {:induction false} StripTrailing(s: string, t: string)
    requires s != [] && !IsSpace(s[0]) && !IsSpace(s[|s| - 1])
    requires forall i :: 0 <= i < |t| ==> IsSpace(t[i])
    ensures Strip(s + t) == s
  {
    assert (s + t)[0] == s[0];
    StripRightSpaces(s, t);
  }

  lemma {:induction false} StripRightSpaces(s: string, t: string)
    requires s != [] && !IsSpace(s[|s| - 1])
    requires forall i :: 0 <= i < |t| ==> IsSpace(t[i])
    ensures StripRight(s + t) == s
  {
    if t == [] {
      assert s + t == s;
    } else {
      assert (s + t)[..|s + t| - 1] == s + t[..|t| - 1];
      StripRightSpaces(s, t[..|t| - 1]);
    }
  }

  /** `s.replace(c, "")`. */
  function Remove(s: string, c: char): string
  {
    if s == [] then [] else (if s[0] == c then [] else [s[0]]) + Remove(s[1..], c)
  }

  /** What is left holds no `c`, and a string without `c` is left as it is. */
  lemma {:induction false} RemoveSpec(s: string, c: char)
    ensures c !in Remove(s, c)
    ensures c !in s ==> Remove(s, c) == s
    ensures |Remove(s, c)| <= |s|
  {
    if s != [] {
      RemoveSpec(s[1..], c);
      if c !in s {
        assert s == [s[0]] + s[1..];
      }
    }
  }

  lemma {:induction false} RemoveConcat(a: string, b: string, c: char)
    ensures Remove(a + b, c) == Remove(a, c) + Remove(b, c)
  {
    if a == [] {
      assert a + b == b;
    } else {
      assert (a + b)[1..] == a[1..] + b;
      RemoveConcat(a[1..], b, c);
    }
  }

  /** `s.replace(c, "")` on each piece. */
  function RemoveEach(parts: seq<string>, c: char): (r: seq<string>)
    ensures |r| == |parts| && forall i :: 0 <= i < |parts| ==> r[i] == Remove(parts[i], c)
  {
    seq(|parts|, i requires 0 <= i < |parts| => Remove(parts[i], c))
  }

  /** Dropping characters keeps a string free of whitespace. */
  lemma {:induction false} NoSpaceRemove(s: string, c: char)
    requires NoSpace(s)
    ensures NoSpace(Remove(s, c))
  {
    if s != [] {
      NoSpaceRemove(s[1..], c);
      assert forall i :: 0 < i < |s| ==> s[i] == s[1..][i - 1];
    }
  }

  /** `sep.join(parts)`. */
  function Join(parts: seq<string>, sep: char): string
  {
    if parts == [] then []
    else if |parts| == 1 then parts[0]
    else Join(parts[..|parts| - 1], sep) + [sep] + parts[|parts| - 1]
  }

  lemma JoinSnoc(init: seq<string>, p: string, sep: char)
    requires init != []
    ensures Join(init + [p], sep) == Join(init, sep) + [sep] + p
  {
    assert (init + [p])[..|init|] == init;
  }

  /** Dropping a character other than the separator commutes with joining. */
  lemma {:induction false} RemoveJoin(parts: seq<string>, sep: char, c: char)
    requires sep != c
    ensures Remove(Join(parts, sep), c) == Join(RemoveEach(parts, c), sep)
  {
    var n := |parts|;
    if n > 1 {
      var init := parts[..n - 1];
      RemoveJoin(init, sep, c);
      RemoveConcat(Join(init, sep) + [sep], parts[n - 1], c);
      RemoveConcat(Join(init, sep), [sep], c);
      assert Remove([sep], c) == [sep] by {
        assert [sep][1..] == [];
      }
      assert RemoveEach(parts, c)[..n - 1] == RemoveEach(init, c);
    }
  }

  /** A join of non-empty pieces starts with the first piece's first character
      and ends with the last piece's last character. */
  lemma {:induction false} JoinEnds(parts: seq<string>, sep: char)
    requires |parts| >= 1 && forall i :: 0 <= i < |parts| ==> parts[i] != []
    ensures Join(parts, sep) != []
    ensures Join(parts, sep)[0] == parts[0][0]
    ensures Join(parts, sep)[|Join(parts, sep)| - 1] == parts[|parts| - 1][|parts[|parts| - 1]| - 1]
  {
    if |parts| > 1 {
      JoinEnds(parts[..|parts| - 1], sep);
    }
  }

  /** `s.split(sep)` with an explicit one-character separator: the text
      between consecutive separators, empty pieces included. */
  function Split(s: string, sep: char): (r: seq<string>)
    ensures |r| >= 1
    ensures forall i :: 0 <= i < |r| ==> sep !in r[i]
  {
    if s == [] then [[]]
    else
      var rest := Split(s[1..], sep);
      if s[0] == sep then [[]] + rest
      else [[s[0]] + rest[0]] + rest[1..]
  }

  /** Splitting a join gives the pieces back. */
  lemma {:induction false} SplitJoin(parts: seq<string>, sep: char)
    requires |parts| >= 1
    requires forall i :: 0 <= i < |parts| ==> sep !in parts[i]
    ensures Split(Join(parts, sep), sep) == parts
  {
    if |parts| == 1 {
      SplitNoSep(parts[0], sep);
    } else {
      var init := parts[..|parts| - 1];
      SplitJoin(init, sep);
      SplitSuffix(Join(init, sep), parts[|parts| - 1], sep);
      assert init + [parts[|parts| - 1]] == parts;
    }
  }

  lemma {:induction false} SplitNoSep(s: string, sep: char)
    requires sep !in s
    ensures Split(s, sep) == [s]
  {
    if s != [] {
      SplitNoSep(s[1..], sep);
      assert [s[0]] + s[1..] == s;
    }
  }

  /** A separator followed by separator-free text adds that text as the last piece. */
  lemma {:induction false} SplitSuffix(a: string, b: string, sep: char)
    requires sep !in b
    ensures Split(a + [sep] + b, sep) == Split(a, sep) + [b]
  {
    if a == [] {
      assert a + [sep] + b == [sep] + b;
      assert ([sep] + b)[1..] == b;
      SplitNoSep(b, sep);
    } else {
      assert (a + [sep] + b)[1..] == a[1..] + [sep] + b;
      SplitSuffix(a[1..], b, sep);
      var r := Split(a[1..], sep);
      if a[0] != sep {
        assert (r + [b])[1..] == r[1..] + [b];
      }
    }
  }

  /** Characters separated into fields: `list(filter(None, re.split("[seps]+", s)))`. */
  function Fields(s: string, seps: set<char>): (r: seq<string>)
    ensures forall i :: 0 <= i < |r| ==> r[i] != [] && forall j :: 0 <= j < |r[i]| ==> r[i][j] !in seps
    ensures s != [] && s[0] !in seps ==> r != [] && r[0][0] == s[0]
  {
    if s == [] then []
    else
      var rest := Fields(s[1..], seps);
      if s[0] in seps then rest
      else if |s| > 1 && s[1] !in seps then [[s[0]] + rest[0]] + rest[1..]
      else [[s[0]]] + rest
  }

  /** A separator-free, non-empty run is a single field. */
  lemma {:induction false} FieldsOne(a: string, seps: set<char>)
    requires a != [] && forall j :: 0 <= j < |a| ==> a[j] !in seps
    ensures Fields(a, seps) == [a]
  {
    if |a| > 1 {
      FieldsOne(a[1..], seps);
      assert [a[0]] + a[1..] == a;
      assert [a[1..]][1..] == [];
    } else {
      assert a[1..] == [] && Fields(a[1..], seps) == [];
      assert [a[0]] == a;
    }
  }

  /** A separator ends the field in front of it. */
  lemma {:induction false} FieldsSeparated(a: string, c: char, b: string, seps: set<char>)
    requires a != [] && forall j :: 0 <= j < |a| ==> a[j] !in seps
    requires c in seps
    ensures Fields(a + [c] + b, seps) == [a] + Fields(b, seps)
  {
    var s := a + [c] + b;
    if |a| == 1 {
      assert s[1..] == [c] + b && ([c] + b)[1..] == b;
      assert Fields(s[1..], seps) == Fields(b, seps);
      assert [a[0]] == a;
    } else {
      assert s[1..] == a[1..] + [c] + b;
      FieldsSeparated(a[1..], c, b, seps);
      assert [a[0]] + a[1..] == a;
    }
  }

  /** The pieces one after another. */
  function Concat<T>(parts: seq<seq<T>>): seq<T>
  {
    if parts == [] then [] else parts[0] + Concat(parts[1..])
  }

  /** All the characters not in `seps`, in order. */
  function Keep(s: string, seps: set<char>): string
  {
    if s == [] then [] else (if s[0] in seps then [] else [s[0]]) + Keep(s[1..], seps)
  }

  /** The fields hold exactly the non-separator characters, in order. */
  lemma {:induction false} FieldsKeep(s: string, seps: set<char>)
    ensures Concat(Fields(s, seps)) == Keep(s, seps)
  {
    if s != [] {
      FieldsKeep(s[1..], seps);
      var rest := Fields(s[1..], seps);
      if s[0] !in seps && |s| > 1 && s[1] !in seps {
        assert Concat([[s[0]] + rest[0]] + rest[1..]) == [s[0]] + rest[0] + Concat(rest[1..]);
        assert Concat(rest) == rest[0] + Concat(rest[1..]);
      } else if s[0] !in seps {
        assert Concat([[s[0]]] + rest) == [s[0]] + Concat(rest);
      }
    }
  }

  predicate IsDigit(c: char)
  {
    '0' <= c <= '9'
  }

  function DigitChar(d: int): (c: char)
    requires 0 <= d < 10
    ensures IsDigit(c)
  {
    ('0' as int + d) as char
  }

  function DigitValue(c: char): (d: int)
    requires IsDigit(c)
    ensures 0 <= d < 10 && DigitChar(d) == c
  {
    c as int - '0' as int
  }

  predicate AllDigits(s: string)
  {
    forall i :: 0 <= i < |s| ==> IsDigit(s[i])
  }

  /** `str(n)` for a natural number. */
  function Digits(n: nat): (r: string)
    ensures |r| >= 1 && AllDigits(r)
    ensures n >= 10 ==> r[0] != '0'
  {
    if n < 10 then [DigitChar(n)] else Digits(n / 10) + [DigitChar(n % 10)]
  }

  /** The number a string of decimal digits denotes. */
  function DigitsValue(s: string): nat
    requires AllDigits(s)
  {
    if s == [] then 0 else DigitsValue(s[..|s| - 1]) * 10 + DigitValue(s[|s| - 1])
  }

  lemma {:induction false} DigitsRoundTrip(n: nat)
    ensures DigitsValue(Digits(n)) == n
  {
    if n >= 10 {
      DigitsRoundTrip(n / 10);
      var r := Digits(n);
      assert r[..|r| - 1] == Digits(n / 10);
    }
  }

  /** Leading zeros do not change the value of a digit string. */
  lemma {:induction false} LeadingZeros(k: nat, s: string)
    requires AllDigits(s)
    ensures AllDigits(seq(k, _ => '0') + s)
    ensures DigitsValue(seq(k, _ => '0') + s) == DigitsValue(s)
  {
    var z := seq(k, _ => '0');
    assert AllDigits(z + s);
    if s == [] {
      assert z + s == z;
      ZerosValue(k);
    } else {
      assert (z + s)[..|z + s| - 1] == z + s[..|s| - 1];
      LeadingZeros(k, s[..|s| - 1]);
    }
  }

  lemma {:induction false} ZerosValue(k: nat)
    ensures AllDigits(seq(k, _ => '0'))
    ensures DigitsValue(seq(k, _ => '0')) == 0
  {
    if k > 0 {
      assert seq(k, _ => '0')[..k - 1] == seq(k - 1, _ => '0');
      ZerosValue(k - 1);
    }
  }

  /** `%<width>i` padding: `c` repeated on the left up to `width` characters. */
  function PadLeft(s: string, width: nat, c: char): (r: string)
    ensures |r| == if |s| < width then width else |s|
    ensures r == seq(|r| - |s|, _ => c) + s
  {
    if |s| < width then seq(width - |s|, _ => c) + s else s
  }

  /** `"%i" % n`: an optional minus sign and the digits of |n|. */
  function SignedDigits(n: int): string
  {
    if n < 0 then "-" + Digits(-n) else Digits(n)
  }
}
