/** The JavaScript string operations the core relies on: the whitespace set of `\s`,
    `trim`, `startsWith`, `includes`, `split(' ')`, `length` in UTF-16 code units,
    `parseInt` and the decimal rendering of integers. A Dafny `string` holds Unicode
    scalar values; where JavaScript counts UTF-16 code units this module says so. */
module Text {
  import opened Json

  /** `!field` is false for a string field: it is present and not empty. */
  predicate Given(v: Option<string>) {
    v.Some? && v.value != ""
  }

  /** ECMAScript WhiteSpace and LineTerminator code points: what `\s` matches and what
      `trim` and `parseInt` skip. */
  predicate IsSpace(c: char) {
    || c == '\t' || c == '\n' || c == '\U{B}' || c == '\U{C}' || c == '\r' || c == ' '
    || c == '\U{A0}' || c == '\U{1680}' || ('\U{2000}' <= c <= '\U{200A}')
    || c == '\U{2028}' || c == '\U{2029}' || c == '\U{202F}' || c == '\U{205F}'
    || c == '\U{3000}' || c == '\U{FEFF}'
  }

  predicate NoSpace(s: string) {
    forall i :: 0 <= i < |s| ==> !IsSpace(s[i])
  }

  predicate AllSpace(s: string) {
    forall i :: 0 <= i < |s| ==> IsSpace(s[i])
  }

  /** `s.trimStart()`: the longest suffix of `s` that does not begin with whitespace. */
  function TrimStart(s: string): (r: string)
    ensures |r| <= |s| && r == s[|s| - |r|..]
    ensures AllSpace(s[..|s| - |r|])
    ensures r == [] || !IsSpace(r[0])
  {
    if s != [] && IsSpace(s[0]) then TrimStart(s[1..]) else s
  }

  /** `s.trimEnd()`: the longest prefix of `s` that does not end with whitespace. */
  function TrimEnd(s: string): (r: string)
    ensures |r| <= |s| && r == s[..|r|]
    ensures AllSpace(s[|r|..])
    ensures r == [] || !IsSpace(r[|r| - 1])
  {
    if s != [] && IsSpace(s[|s| - 1]) then TrimEnd(s[..|s| - 1]) else s
  }

  /** `s.trim()`. */
  function Trim(s: string): (r: string)
    ensures |r| <= |s|
  {
    TrimEnd(TrimStart(s))
  }

  /** The result of `trim` neither begins nor ends with whitespace (what it removed is
      whitespace by the contracts of TrimStart and TrimEnd). */
  lemma TrimEndsOnNonSpace(s: string)
    ensures var r := Trim(s); r == [] || (!IsSpace(r[0]) && !IsSpace(r[|r| - 1]))
  {
    var t := TrimStart(s);
    var r := TrimEnd(t);
    assert r != [] ==> r[0] == t[0];
  }

  /** Trimming twice is trimming once. */
  lemma TrimIdempotent(s: string)
    ensures Trim(Trim(s)) == Trim(s)
  {
    var r := Trim(s);
    assert TrimStart(r) == r;
    assert TrimEnd(r) == r;
  }

  /** The character `c` does not occur in `s`. */
  predicate Lacks(s: string, c: char) {
    forall i :: 0 <= i < |s| ==> s[i] != c
  }

  lemma LacksConcat(a: string, b: string, c: char)
    requires Lacks(a, c) && Lacks(b, c)
    ensures Lacks(a + b, c)
  {
  }

  /** `s.indexOf(c)`, None for -1: the first position holding `c`. */
  function IndexOf(s: string, c: char): (r: Option<nat>)
    ensures r.Some? ==> r.value < |s| && s[r.value] == c && Lacks(s[..r.value], c)
    ensures r.None? <==> Lacks(s, c)
  {
    if s == [] then None
    else if s[0] == c then Some(0)
    else match IndexOf(s[1..], c)
      case None => None
      case Some(k) => assert s[..k + 1] == [s[0]] + s[1..][..k]; Some(k + 1)
  }

  /** `indexOf` finds the first occurrence: a position holding `c` with no `c` before
      it is the answer. */
  lemma {:induction false} IndexOfFirst(s: string, c: char, i: nat)
    requires i < |s| && s[i] == c && Lacks(s[..i], c)
    ensures IndexOf(s, c) == Some(i)
  {
    if i > 0 {
      assert s[..i][0] == s[0];
      assert s[1..][..i - 1] == s[..i][1..];
      IndexOfFirst(s[1..], c, i - 1);
    }
  }

  /** `s.lastIndexOf(c)`, None for -1: the last position holding `c`. */
  function LastIndexOf(s: string, c: char): (r: Option<nat>)
    ensures r.Some? ==> r.value < |s| && s[r.value] == c && Lacks(s[r.value + 1..], c)
    ensures r.None? <==> Lacks(s, c)
  {
    if s == [] then None
    else if s[|s| - 1] == c then Some(|s| - 1)
    else
      var p := s[..|s| - 1];
      assert s == p + [s[|s| - 1]];
      match LastIndexOf(p, c)
      case None => None
      case Some(k) => assert s[k + 1..] == p[k + 1..] + [s[|s| - 1]]; Some(k)
  }

  /** A position holding `c` with no `c` after it is what `lastIndexOf` finds. */
  lemma {:induction false} LastIndexOfLast(s: string, c: char, i: nat)
    requires i < |s| && s[i] == c && Lacks(s[i + 1..], c)
    ensures LastIndexOf(s, c) == Some(i)
  {
    if i < |s| - 1 {
      assert s[i + 1..][|s| - 2 - i] == s[|s| - 1];
      assert s[..|s| - 1][i + 1..] == s[i + 1..][..|s| - 2 - i];
      LastIndexOfLast(s[..|s| - 1], c, i);
    }
  }

  predicate StartsWith(s: string, prefix: string) {
    |prefix| <= |s| && s[..|prefix|] == prefix
  }

  /** `s.includes(sub)`. */
  predicate Contains(s: string, sub: string)
    decreases |s|
  {
    StartsWith(s, sub) || (s != [] && Contains(s[1..], sub))
  }

  /** `sub` occurring at position `i` of `s` makes `s.includes(sub)` true. */
  lemma {:induction false} ContainsAt(s: string, sub: string, i: nat)
    requires i + |sub| <= |s| && s[i..i + |sub|] == sub
    ensures Contains(s, sub)
    decreases i
  {
    if i > 0 {
      assert s[1..][i - 1..i - 1 + |sub|] == sub;
      ContainsAt(s[1..], sub, i - 1);
    }
  }

  /** Where `s.includes(sub)` finds `sub`. */
  lemma {:induction false} ContainsWitness(s: string, sub: string) returns (i: nat)
    requires Contains(s, sub)
    ensures i + |sub| <= |s| && s[i..i + |sub|] == sub
    decreases |s|
  {
    if StartsWith(s, sub) {
      i := 0;
    } else {
      var j := ContainsWitness(s[1..], sub);
      assert s[1..][j..j + |sub|] == s[j + 1..j + 1 + |sub|];
      i := j + 1;
    }
  }

  /** The `t`-th character of an occurrence of `sub` found at `j`. */
  lemma OccurrenceAt(s: string, sub: string, j: nat, t: nat)
    requires j + |sub| <= |s| && s[j..j + |sub|] == sub && t < |sub|
    ensures s[j + t] == sub[t]
  {
    assert s[j..j + |sub|][t] == s[j + t];
  }

  /** Text wrapped between a prefix without the first character of `sub` and a suffix
      that begins with no character of `sub` after the first includes `sub` exactly
      when the wrapped text does. */
  lemma IncludesThroughFrame(pre: string, mid: string, post: string, sub: string)
    requires |sub| >= 1 && post != []
    requires forall i :: 0 <= i < |pre| ==> pre[i] != sub[0]
    requires forall i :: 0 <= i < |post| ==> post[i] != sub[0]
    requires forall k :: 1 <= k < |sub| ==> sub[k] != post[0]
    ensures Contains(pre + mid + post, sub) <==> Contains(mid, sub)
  {
    var s := pre + mid + post;
    if Contains(mid, sub) {
      var i := ContainsWitness(mid, sub);
      assert s[|pre| + i..|pre| + i + |sub|] == mid[i..i + |sub|];
      ContainsAt(s, sub, |pre| + i);
    }
    if Contains(s, sub) {
      var j := ContainsWitness(s, sub);
      var b := |pre| + |mid|;
      OccurrenceAt(s, sub, j, 0);
      assert forall i :: 0 <= i < |pre| ==> s[i] == pre[i];
      assert forall i :: b <= i < |s| ==> s[i] == post[i - b];
      assert |pre| <= j < b;
      assert j + |sub| <= b by {
        if j + |sub| > b {
          OccurrenceAt(s, sub, j, b - j);
        }
      }
      var m := j - |pre|;
      forall t | 0 <= t < |sub| ensures mid[m..m + |sub|][t] == sub[t] {
        OccurrenceAt(s, sub, j, t);
        assert s[j + t] == mid[m + t];
      }
      assert mid[m..m + |sub|] == sub;
      ContainsAt(mid, sub, m);
    }
  }

  /** A string without the character `c` does not include any text holding `c`. */
  lemma {:induction false} ContainsNeedsChar(s: string, sub: string, k: nat)
    requires k < |sub| && forall i :: 0 <= i < |s| ==> s[i] != sub[k]
    ensures !Contains(s, sub)
    decreases |s|
  {
    if |sub| <= |s| {
      assert s[..|sub|][k] != sub[k];
    }
    if s != [] {
      ContainsNeedsChar(s[1..], sub, k);
    }
  }

  /** `s.split(sep)` for a one-character separator: the pieces between the separators,
      `[""]` for the empty string. */
  function SplitOn(s: string, sep: char): (parts: seq<string>)
    ensures |parts| >= 1
    ensures forall p, i :: p in parts && 0 <= i < |p| ==> p[i] != sep
  {
    if s == [] then [""]
    else
      var rest := SplitOn(s[1..], sep);
      if s[0] == sep then [""] + rest else [[s[0]] + rest[0]] + rest[1..]
  }

  /** `parts.join(sep)`. */
  function JoinWith(parts: seq<string>, sep: char): string
    requires |parts| >= 1
  {
    if |parts| == 1 then parts[0] else parts[0] + [sep] + JoinWith(parts[1..], sep)
  }

  /** Joining the pieces with the separator gives back the string: nothing is lost. */
  lemma {:induction false} SplitJoin(s: string, sep: char)
    ensures JoinWith(SplitOn(s, sep), sep) == s
  {
    if s != [] {
      var rest := SplitOn(s[1..], sep);
      SplitJoin(s[1..], sep);
      if s[0] == sep {
        assert SplitOn(s, sep)[1..] == rest;
      } else {
        var parts := SplitOn(s, sep);
        if |rest| == 1 {
          assert parts == [[s[0]] + rest[0]];
        } else {
          assert parts[1..] == rest[1..];
          assert JoinWith(rest, sep) == rest[0] + [sep] + JoinWith(rest[1..], sep);
        }
      }
    }
  }

  /** Splitting `p + [sep] + t` where `p` holds no separator gives `p` followed by the
      pieces of `t`. */
  lemma {:induction false} SplitAfterFirst(p: string, sep: char, t: string)
    requires forall i :: 0 <= i < |p| ==> p[i] != sep
    ensures SplitOn(p + [sep] + t, sep) == [p] + SplitOn(t, sep)
  {
    if p == [] {
      assert p + [sep] + t == [sep] + t;
      assert ([sep] + t)[1..] == t;
    } else {
      var s := p + [sep] + t;
      assert s[1..] == p[1..] + [sep] + t;
      SplitAfterFirst(p[1..], sep, t);
      assert [p[0]] + p[1..] == p;
    }
  }

  /** A string without the separator splits into itself alone. */
  lemma {:induction false} SplitWithoutSeparator(s: string, sep: char)
    requires forall i :: 0 <= i < |s| ==> s[i] != sep
    ensures SplitOn(s, sep) == [s]
  {
    if s != [] {
      SplitWithoutSeparator(s[1..], sep);
      assert [s[0]] + s[1..] == s;
    }
  }

  /** `s.length`: JavaScript counts UTF-16 code units, so a character outside the
      Basic Multilingual Plane counts twice. */
  function Utf16Length(s: string): nat {
    if s == [] then 0 else (if s[0] as int >= 0x10000 then 2 else 1) + Utf16Length(s[1..])
  }

  /** `s.substring(0, n)` measured in UTF-16 code units: None when the cut falls between
      the two halves of a surrogate pair (the half-character that JavaScript would keep
      is not representable here, and `encodeURIComponent` rejects it). */
  function Utf16Prefix(s: string, n: nat): (r: Option<string>)
    ensures r.Some? ==> StartsWith(s, r.value) && Utf16Length(r.value) <= n
    ensures r.Some? && Utf16Length(s) <= n ==> r.value == s
  {
    if s == [] || n == 0 then Some([])
    else
      var w := if s[0] as int >= 0x10000 then 2 else 1;
      if w > n then None
      else match Utf16Prefix(s[1..], n - w)
        case None => None
        case Some(p) => Some([s[0]] + p)
  }

  function DigitChar(d: nat): char
    requires d < 10
  {
    ('0' as int + d) as char
  }

  /** The decimal digits of `n`, as `String(n)` writes a non-negative integer. */
  function NatToString(n: nat): (s: string)
    ensures |s| >= 1 && forall i :: 0 <= i < |s| ==> '0' <= s[i] <= '9'
    decreases n
  {
    if n < 10 then [DigitChar(n)] else NatToString(n / 10) + [DigitChar(n % 10)]
  }

  /** `String(i)` / `i.toString()` for an integer. */
  function IntToString(i: int): string {
    if i < 0 then "-" + NatToString(-i) else NatToString(i)
  }

  /** The value of a character as a digit in radices up to 36, and 36 for anything else. */
  function DigitValue(c: char): nat {
    if '0' <= c <= '9' then c as int - '0' as int
    else if 'a' <= c <= 'z' then c as int - 'a' as int + 10
    else if 'A' <= c <= 'Z' then c as int - 'A' as int + 10
    else 36
  }

  /** The longest prefix of `s` made of digits of the radix. */
  function DigitPrefix(s: string, radix: nat): (d: string)
    ensures |d| <= |s| && d == s[..|d|]
    ensures forall i :: 0 <= i < |d| ==> DigitValue(d[i]) < radix
    ensures |d| == |s| || DigitValue(s[|d|]) >= radix
  {
    if s != [] && DigitValue(s[0]) < radix then [s[0]] + DigitPrefix(s[1..], radix) else []
  }

  /** The number a digit string denotes in the radix, most significant digit first. */
  function ValueOf(d: string, radix: nat): nat {
    if d == [] then 0 else ValueOf(d[..|d| - 1], radix) * radix + DigitValue(d[|d| - 1])
  }

  /** `parseInt(s, radix)`, with radix 0 for an omitted radix. Leading whitespace and
      one sign are skipped, then the magnitude is read. None stands for NaN. */
  function ParseInt(s: string, radix: nat): (r: Option<int>)
    ensures radix != 0 && (radix < 2 || radix > 36) ==> r.None?
    ensures TrimStart(s) == [] ==> r.None?
    ensures r.Some? && r.value < 0 ==> TrimStart(s)[0] == '-'
  {
    var t := TrimStart(s);
    var sign := if t != [] && t[0] == '-' then -1 else 1;
    var u := if t != [] && (t[0] == '-' || t[0] == '+') then t[1..] else t;
    match ParseMagnitude(u, radix)
    case None => None
    case Some(m) => Some(sign * m)
  }

  /** The unsigned part of `parseInt`: with radix 0 or 16 a `0x`/`0X` prefix selects
      radix 16, radix 0 otherwise means 10; the longest run of digits is read and the
      rest ignored. None (NaN) when there is no digit or the radix is outside 2..36. */
  function ParseMagnitude(u: string, radix: nat): Option<nat> {
    if radix != 0 && (radix < 2 || radix > 36) then None
    else
      var hex := (radix == 0 || radix == 16) && |u| >= 2 && u[0] == '0' && (u[1] == 'x' || u[1] == 'X');
      var r := if hex then 16 else if radix == 0 then 10 else radix;
      var d := DigitPrefix(if hex then u[2..] else u, r);
      if d == [] then None else Some(ValueOf(d, r))
  }

  lemma {:induction false} ValueOfDecimal(n: nat)
    ensures ValueOf(NatToString(n), 10) == n
    ensures DigitPrefix(NatToString(n), 10) == NatToString(n)
    decreases n
  {
    var s := NatToString(n);
    if n >= 10 {
      var q, r := n / 10, n % 10;
      ValueOfDecimal(q);
      assert s == NatToString(q) + [DigitChar(r)];
      assert s[..|s| - 1] == NatToString(q);
      assert DigitValue(DigitChar(r)) == r;
      assert ValueOf(s, 10) == q * 10 + r;
    }
    DigitsArePrefix(s);
  }

  lemma {:induction false} DigitsArePrefix(s: string)
    requires forall i :: 0 <= i < |s| ==> '0' <= s[i] <= '9'
    ensures DigitPrefix(s, 10) == s
  {
    if s != [] {
      DigitsArePrefix(s[1..]);
    }
  }

  /** `parseInt` reads back what `String` wrote: the decimal text of an integer parses
      to that integer, with or without an explicit radix of 10. */
  lemma ParseIntOfDecimal(n: int, radix: nat)
    requires radix == 0 || radix == 10
    ensures ParseInt(IntToString(n), radix) == Some(n)
  {
    if n < 0 {
      var m: nat := -n;
      assert IntToString(n) == "-" + NatToString(m);
      ParseIntOfNegative(m, radix);
    } else {
      assert IntToString(n) == NatToString(n);
      ParseIntOfNatural(n, radix);
    }
  }

  lemma ParseIntOfNegative(m: nat, radix: nat)
    requires radix == 0 || radix == 10
    ensures ParseInt("-" + NatToString(m), radix) == Some(-(m as int))
  {
    var s := "-" + NatToString(m);
    DecimalHasNoLeadingSpace(s);
    assert s[1..] == NatToString(m);
    MagnitudeOfDecimal(m, radix);
    ParseIntOfMinus(s, radix);
  }

  lemma ParseIntOfNatural(m: nat, radix: nat)
    requires radix == 0 || radix == 10
    ensures ParseInt(NatToString(m), radix) == Some(m as int)
  {
    var s := NatToString(m);
    DecimalHasNoLeadingSpace(s);
    MagnitudeOfDecimal(m, radix);
    ParseIntOfUnsigned(s, radix);
  }

  /** `parseInt` of text that starts with a minus sign is the negated magnitude of the rest. */
  lemma ParseIntOfMinus(s: string, radix: nat)
    requires s != [] && s[0] == '-' && TrimStart(s) == s
    ensures ParseInt(s, radix) == match ParseMagnitude(s[1..], radix)
      case None => None
      case Some(m) => Some(-(m as int))
  {
  }

  /** `parseInt` of text that starts with a digit is its magnitude. */
  lemma ParseIntOfUnsigned(s: string, radix: nat)
    requires s != [] && '0' <= s[0] <= '9' && TrimStart(s) == s
    ensures ParseInt(s, radix) == match ParseMagnitude(s, radix)
      case None => None
      case Some(m) => Some(m as int)
  {
  }

  lemma DecimalHasNoLeadingSpace(s: string)
    requires s != [] && (s[0] == '-' || '0' <= s[0] <= '9')
    ensures TrimStart(s) == s
  {
  }

  lemma MagnitudeOfDecimal(m: nat, radix: nat)
    requires radix == 0 || radix == 10
    ensures ParseMagnitude(NatToString(m), radix) == Some(m)
  {
    var digits := NatToString(m);
    ValueOfDecimal(m);
    assert |digits| >= 2 ==> digits[1] != 'x' && digits[1] != 'X';
  }
}
