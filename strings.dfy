/**
 * The JavaScript string built-ins the core calls: `trim`, the `\s` character class,
 * `toLowerCase`/`toUpperCase` (restricted to ASCII letters), `includes`, `substring`,
 * decimal printing of integers, `parseInt`, and the default ordering `Array.prototype.sort`
 * uses for strings.
 */
module Strings {
  import opened Wrappers
  import Sequences

  // ---------------------------------------------------------------- Whitespace

  /**
   * ECMAScript's WhiteSpace and LineTerminator code points: the set `String.prototype.trim`
   * strips and the regular-expression class `\s` matches.
   */
  predicate IsWhitespace(c: char)
  {
    || c == ' ' || c == '\t' || c == '\n' || c == '\U{000B}' || c == '\U{000C}' || c == '\r'
    || c == '\U{00A0}' || c == '\U{1680}' || ('\U{2000}' <= c <= '\U{200A}')
    || c == '\U{2028}' || c == '\U{2029}' || c == '\U{202F}' || c == '\U{205F}'
    || c == '\U{3000}' || c == '\U{FEFF}'
  }

  predicate AllWhitespace(s: string)
  {
    forall i :: 0 <= i < |s| ==> IsWhitespace(s[i])
  }

  /** `s.trimStart()`: the suffix left after dropping leading whitespace. */
  function TrimStart(s: string): (r: string)
    ensures |r| <= |s| && r == s[|s| - |r|..]
    ensures forall i :: 0 <= i < |s| - |r| ==> IsWhitespace(s[i])
    ensures r == [] || !IsWhitespace(r[0])
  {
    if |s| > 0 && IsWhitespace(s[0]) then TrimStart(s[1..]) else s
  }

  /** `s.trimEnd()`: the prefix left after dropping trailing whitespace. */
  function TrimEnd(s: string): (r: string)
    ensures |r| <= |s| && r == s[..|r|]
    ensures forall i :: |r| <= i < |s| ==> IsWhitespace(s[i])
    ensures r == [] || !IsWhitespace(r[|r| - 1])
  {
    if |s| > 0 && IsWhitespace(s[|s| - 1]) then TrimEnd(s[..|s| - 1]) else s
  }

  /** `s.trim()`. */
  function Trim(s: string): string
  {
    TrimEnd(TrimStart(s))
  }

  /** `s.trim() === ''` holds exactly when every character of `s` is whitespace. */
  lemma TrimEmptyIffBlank(s: string)
    ensures Trim(s) == "" <==> AllWhitespace(s)
  {
    if Trim(s) == "" {
      assert TrimStart(s) == "";
    }
  }

  /** `replace(/\s+/g, '')`: every whitespace character removed, the others kept in order. */
  function RemoveWhitespace(s: string): string
  {
    Sequences.Filter(s, c => !IsWhitespace(c))
  }

  // ---------------------------------------------------------------- Case

  /** `toLowerCase` on one character, for the ASCII letters. */
  function LowerChar(c: char): char
  {
    if 'A' <= c <= 'Z' then (c as int + 32) as char else c
  }

  /** `toUpperCase` on one character, for the ASCII letters. */
  function UpperChar(c: char): char
  {
    if 'a' <= c <= 'z' then (c as int - 32) as char else c
  }

  function ToLower(s: string): string
  {
    seq(|s|, i requires 0 <= i < |s| => LowerChar(s[i]))
  }

  /** A lower-cased string has no upper-case ASCII letter, and lower-casing it again changes nothing. */
  lemma ToLowerIsLower(s: string)
    ensures forall i :: 0 <= i < |ToLower(s)| ==> !('A' <= ToLower(s)[i] <= 'Z')
    ensures ToLower(ToLower(s)) == ToLower(s)
  {
  }

  /** Case mapping neither creates nor removes whitespace. */
  lemma LowerCharKeepsWhitespace(c: char)
    ensures IsWhitespace(LowerChar(c)) == IsWhitespace(c)
  {
  }

  lemma ToLowerKeepsBlank(s: string)
    ensures AllWhitespace(ToLower(s)) == AllWhitespace(s)
  {
    forall i | 0 <= i < |s| ensures IsWhitespace(ToLower(s)[i]) == IsWhitespace(s[i]) {
      LowerCharKeepsWhitespace(s[i]);
    }
  }

  // ---------------------------------------------------------------- Substrings

  predicate StartsWith(s: string, prefix: string)
  {
    |prefix| <= |s| && s[..|prefix|] == prefix
  }

  /** `s.includes(sub)`: `sub` occurs in `s` at some offset. */
  predicate Contains(s: string, sub: string)
  {
    exists i :: 0 <= i <= |s| - |sub| && StartsWith(s[i..], sub)
  }

  /** Every string contains itself. */
  lemma ContainsSelf(s: string)
    ensures Contains(s, s)
  {
    assert StartsWith(s[0..], s);
  }

  /** A string that lacks one of the characters of `sub` does not contain `sub`. */
  lemma MissingCharacter(s: string, sub: string, k: nat)
    requires k < |sub| && sub[k] !in s
    ensures !Contains(s, sub)
  {
    forall i | 0 <= i <= |s| - |sub| ensures !StartsWith(s[i..], sub) {
      assert s[i + k] in s;
      assert s[i..][..|sub|][k] == s[i + k];
    }
  }

  /** `s.substring(0, n)`: the first `n` characters, or all of `s` when it is shorter. */
  function Substring0(s: string, n: nat): (r: string)
    ensures |r| == if |s| < n then |s| else n
    ensures StartsWith(s, r)
  {
    if |s| <= n then s else s[..n]
  }

  // ---------------------------------------------------------------- Integers as text

  function DigitChar(d: nat): (c: char)
    requires d < 10
    ensures '0' <= c <= '9'
  {
    ('0' as int + d) as char
  }

  /** The decimal numeral of `n`, as a template literal `${n}` prints it: no sign, no leading zero. */
  function NatToString(n: nat): (r: string)
    ensures |r| >= 1
    ensures forall i :: 0 <= i < |r| ==> '0' <= r[i] <= '9'
    ensures r[0] == '0' <==> n == 0
    ensures n < 10 <==> |r| == 1
    decreases n
  {
    if n < 10 then [DigitChar(n)] else NatToString(n / 10) + [DigitChar(n % 10)]
  }

  /** The decimal text of `n`, which is JavaScript's `n.toString()` for |n| <= 2^53. */
  function IntToString(n: int): string
  {
    if n < 0 then "-" + NatToString(-n) else NatToString(n)
  }

  /** The value of `c` as a digit of any radix up to 36, or 36 when `c` is no digit. */
  function DigitValue(c: char): (v: nat)
    ensures v <= 36
    ensures '0' <= c <= '9' ==> v == c as int - '0' as int
  {
    if '0' <= c <= '9' then c as int - '0' as int
    else if 'a' <= c <= 'z' then c as int - 'a' as int + 10
    else if 'A' <= c <= 'Z' then c as int - 'A' as int + 10
    else 36
  }

  /** The longest prefix of `s` made of digits of `radix`. */
  function DigitPrefix(s: string, radix: nat): (r: string)
    ensures |r| <= |s| && r == s[..|r|]
    ensures forall i :: 0 <= i < |r| ==> DigitValue(r[i]) < radix
    ensures |r| == |s| || DigitValue(s[|r|]) >= radix
  {
    if s != [] && DigitValue(s[0]) < radix then [s[0]] + DigitPrefix(s[1..], radix) else []
  }

  /** The number a string of digits denotes in `radix`, most significant digit first. */
  function DigitsValue(ds: string, radix: nat): nat
  {
    if ds == [] then 0 else DigitsValue(ds[..|ds| - 1], radix) * radix + DigitValue(ds[|ds| - 1])
  }

  /** What `parseInt` reads after skipping leading whitespace and one optional `+` or `-`. */
  function Unsigned(s: string): (u: string)
    ensures |u| <= |s|
  {
    var t := TrimStart(s);
    if |t| > 0 && (t[0] == '-' || t[0] == '+') then t[1..] else t
  }

  /** The first character after the leading whitespace is a minus sign. */
  predicate Negative(s: string)
  {
    var t := TrimStart(s);
    |t| > 0 && t[0] == '-'
  }

  /** `u` starts with a decimal digit that is not the `0` of a `0x`/`0X` prefix. */
  predicate DecimalHead(u: string)
  {
    && |u| > 0 && '0' <= u[0] <= '9'
    && !(|u| >= 2 && u[0] == '0' && (u[1] == 'x' || u[1] == 'X'))
  }

  /**
   * `parseInt(s)` with no radix argument (ECMAScript section 19.2.5): leading whitespace is
   * skipped, one `+` or `-` is read, a `0x`/`0X` prefix selects radix 16 (else 10), and the
   * longest run of digits that follows is converted; `None` stands for `NaN`, the result
   * when that run is empty. Precision loss beyond 2^53 is not modelled.
   */
  function ParseInt(s: string): (r: Option<int>)
    ensures Unsigned(s) == "" || !('0' <= Unsigned(s)[0] <= '9') ==> r.None?
    ensures DecimalHead(Unsigned(s)) ==> r.Some?
    ensures r.Some? && !Negative(s) ==> r.value >= 0
    ensures r.Some? && Negative(s) ==> r.value <= 0
  {
    match ParseMagnitude(Unsigned(s))
    case None => None
    case Some(v) => Some(if Negative(s) then -v else v)
  }

  /** The unsigned part of `parseInt`: an optional `0x`/`0X` prefix, then the longest run of digits. */
  function ParseMagnitude(u: string): (r: Option<int>)
    ensures r.Some? ==> r.value >= 0
    ensures u == "" || !('0' <= u[0] <= '9') ==> r.None?
    ensures DecimalHead(u) ==> r.Some?
  {
    var hex := |u| >= 2 && u[0] == '0' && (u[1] == 'x' || u[1] == 'X');
    var radix := if hex then 16 else 10;
    var digits := DigitPrefix(if hex then u[2..] else u, radix);
    if digits == [] then None else Some(DigitsValue(digits, radix))
  }

  lemma {:induction false} DigitsValueOfNatToString(n: nat)
    ensures DigitsValue(NatToString(n), 10) == n
    decreases n
  {
    var r := NatToString(n);
    if n >= 10 {
      DigitsValueOfNatToString(n / 10);
      assert r[..|r| - 1] == NatToString(n / 10);
    }
  }

  lemma DigitPrefixOfDecimal(s: string)
    requires forall i :: 0 <= i < |s| ==> '0' <= s[i] <= '9'
    ensures DigitPrefix(s, 10) == s
  {
  }

  lemma ParseMagnitudeOfNatToString(n: nat)
    ensures ParseMagnitude(NatToString(n)) == Some(n)
  {
    var r := NatToString(n);
    assert !(|r| >= 2 && r[0] == '0');
    DigitPrefixOfDecimal(r);
    DigitsValueOfNatToString(n);
  }

  /** A string that starts with a digit is read without sign or leading whitespace. */
  lemma ParseIntOfDigitHead(s: string)
    requires |s| > 0 && '0' <= s[0] <= '9'
    ensures ParseInt(s) == ParseMagnitude(s)
  {
    assert !IsWhitespace(s[0]);
    assert TrimStart(s) == s;
    assert Unsigned(s) == s && !Negative(s);
  }

  /** Reading back the decimal numeral of a natural number gives that number. */
  lemma ParseIntOfNatToString(n: nat)
    ensures ParseInt(NatToString(n)) == Some(n)
  {
    ParseIntOfDigitHead(NatToString(n));
    ParseMagnitudeOfNatToString(n);
  }

  /** The model's decimal text of every integer reads back to that integer. */
  lemma ParseIntOfIntToString(n: int)
    ensures ParseInt(IntToString(n)) == Some(n)
  {
    if n < 0 {
      var t := "-" + NatToString(-n);
      assert TrimStart(t) == t;
      assert Unsigned(t) == t[1..] == NatToString(-n) && Negative(t);
      ParseMagnitudeOfNatToString(-n);
    } else {
      ParseIntOfNatToString(n);
    }
  }

  /** Distinct numbers print differently. */
  lemma NatToStringInjective(a: nat, b: nat)
    ensures NatToString(a) == NatToString(b) ==> a == b
  {
    ParseIntOfNatToString(a);
    ParseIntOfNatToString(b);
  }

  /** `${prefix}${n}`: a prefix followed by the decimal numeral of `n`. */
  function Numbered(prefix: string, n: nat): string
  {
    prefix + NatToString(n)
  }

  /** Strings numbered after a common prefix are equal only for equal numbers. */
  lemma NumberedInjective(prefix: string)
    ensures forall a: nat, b: nat :: Numbered(prefix, a) == Numbered(prefix, b) ==> a == b
  {
    forall a: nat, b: nat | Numbered(prefix, a) == Numbered(prefix, b) ensures a == b {
      assert NatToString(a) == Numbered(prefix, a)[|prefix|..];
      assert NatToString(b) == Numbered(prefix, b)[|prefix|..];
      NatToStringInjective(a, b);
    }
  }

  // ---------------------------------------------------------------- Ordering

  /** `a < b` on strings: lexicographic by character, a proper prefix first. */
  predicate Less(a: string, b: string)
  {
    if a == [] then b != []
    else if b == [] then false
    else if a[0] != b[0] then a[0] < b[0]
    else Less(a[1..], b[1..])
  }

  predicate LessEq(a: string, b: string)
  {
    a == b || Less(a, b)
  }

  lemma {:induction false} LessIrreflexive(a: string)
    ensures !Less(a, a)
  {
    if a != [] {
      LessIrreflexive(a[1..]);
    }
  }

  lemma {:induction false} LessTotal(a: string, b: string)
    ensures a == b || Less(a, b) || Less(b, a)
  {
    if a != [] && b != [] && a[0] == b[0] {
      LessTotal(a[1..], b[1..]);
      if a[1..] == b[1..] {
        assert a == [a[0]] + a[1..] && b == [b[0]] + b[1..];
      }
    }
  }

  lemma {:induction false} LessTransitive(a: string, b: string, c: string)
    requires Less(a, b) && Less(b, c)
    ensures Less(a, c)
  {
    if a != [] && a[0] == b[0] && b[0] == c[0] {
      LessTransitive(a[1..], b[1..], c[1..]);
    }
  }

  predicate Sorted(s: seq<string>)
  {
    forall i, j :: 0 <= i < j < |s| ==> LessEq(s[i], s[j])
  }

  predicate StrictlySorted(s: seq<string>)
  {
    forall i, j :: 0 <= i < j < |s| ==> Less(s[i], s[j])
  }

  /** `x` placed before the first element of `s` it does not exceed. */
  function Insert(x: string, s: seq<string>): (r: seq<string>)
    ensures multiset(r) == multiset(s) + multiset{x}
  {
    if s == [] then [x]
    else if LessEq(x, s[0]) then [x] + s
    else assert s == [s[0]] + s[1..]; [s[0]] + Insert(x, s[1..])
  }

  /** The strings of `s` in ascending order: JavaScript's default `sort` on strings. */
  function Sort(s: seq<string>): (r: seq<string>)
    ensures multiset(r) == multiset(s)
  {
    if s == [] then [] else assert s == [s[0]] + s[1..]; Insert(s[0], Sort(s[1..]))
  }

  lemma {:induction false} InsertSorted(x: string, s: seq<string>)
    requires Sorted(s)
    ensures Sorted(Insert(x, s))
  {
    if s != [] {
      if LessEq(x, s[0]) {
        forall j | 0 <= j < |s| ensures LessEq(x, s[j]) {
          if x != s[0] && s[0] != s[j] {
            LessTransitive(x, s[0], s[j]);
          }
        }
      } else {
        InsertSorted(x, s[1..]);
        var r := Insert(x, s[1..]);
        LessTotal(x, s[0]);
        forall j | 0 <= j < |r| ensures LessEq(s[0], r[j]) {
          assert r[j] in multiset(r);
          assert r[j] == x || r[j] in s[1..];
        }
      }
    }
  }

  lemma {:induction false} SortSorted(s: seq<string>)
    ensures Sorted(Sort(s))
  {
    if s != [] {
      SortSorted(s[1..]);
      InsertSorted(s[0], Sort(s[1..]));
    }
  }

  /** Sorting strings that are pairwise distinct yields a strictly ascending sequence of the same strings. */
  lemma SortDistinct(s: seq<string>)
    requires Sequences.NoDuplicates(s)
    ensures StrictlySorted(Sort(s))
    ensures forall x :: x in Sort(s) <==> x in s
    ensures |Sort(s)| == |s|
  {
    var r := Sort(s);
    SortSorted(s);
    assert forall x :: x in r <==> x in multiset(r);
    assert |r| == |multiset(r)| == |multiset(s)| == |s|;
    forall i, j | 0 <= i < j < |r| ensures Less(r[i], r[j]) {
      if r[i] == r[j] {
        DuplicateCounted(s, r[i]);
        MultiplicityAtLeastTwo(r, i, j);
      }
    }
  }

  lemma {:induction false} DuplicateCounted(s: seq<string>, x: string)
    requires Sequences.NoDuplicates(s)
    ensures multiset(s)[x] <= 1
  {
    if s != [] {
      DuplicateCounted(s[1..], x);
      assert s == [s[0]] + s[1..];
      if s[0] == x {
        assert x !in s[1..];
      }
    }
  }

  lemma MultiplicityAtLeastTwo(r: seq<string>, i: nat, j: nat)
    requires i < j < |r| && r[i] == r[j]
    ensures multiset(r)[r[i]] >= 2
  {
    assert r == r[..i] + [r[i]] + r[i + 1..j] + [r[j]] + r[j + 1..];
  }
}
