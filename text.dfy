/**
 * The JavaScript string operations the modelled code relies on: truthiness,
 * `trim`, `toLowerCase`, `split`, `join`, `filter(Boolean)`, `indexOf` /
 * `replace` with a string pattern, `lastIndexOf`, and the decimal rendering
 * of integers. A JavaScript string is modelled as a sequence of characters.
 */
module Text {
  import opened Wrappers

  type String = seq<char>

  /** JavaScript truthiness of an optional string: `undefined`, `null` and "" are falsy. */
  predicate Truthy(v: Option<String>) {
    v.Some? && v.value != []
  }

  /** `a || b` for optional strings. */
  function Or(a: Option<String>, b: Option<String>): Option<String> {
    if Truthy(a) then a else b
  }

  // ---------------------------------------------------------------------------
  // trim

  /** The ECMAScript WhiteSpace and LineTerminator code points that `trim` removes. */
  predicate IsWhitespace(c: char) {
    || c == '\t' || c == '\n' || c == '\U{B}' || c == '\U{C}' || c == '\r' || c == ' '
    || c == '\U{A0}' || c == '\U{1680}' || ('\U{2000}' <= c <= '\U{200A}')
    || c == '\U{2028}' || c == '\U{2029}' || c == '\U{202F}' || c == '\U{205F}'
    || c == '\U{3000}' || c == '\U{FEFF}'
  }

  function TrimStart(s: String): (r: String)
    ensures |r| <= |s| && r == s[|s| - |r|..]
    ensures forall i :: 0 <= i < |s| - |r| ==> IsWhitespace(s[i])
    ensures r == [] || !IsWhitespace(r[0])
  {
    if s != [] && IsWhitespace(s[0]) then
      var r := TrimStart(s[1..]);
      assert forall i :: 1 <= i < |s| - |r| ==> s[i] == s[1..][i - 1];
      r
    else s
  }

  function TrimEnd(s: String): (r: String)
    ensures |r| <= |s| && r == s[..|r|]
    ensures forall i :: |r| <= i < |s| ==> IsWhitespace(s[i])
    ensures r == [] || !IsWhitespace(r[|r| - 1])
  {
    if s != [] && IsWhitespace(s[|s| - 1]) then TrimEnd(s[..|s| - 1]) else s
  }

  /** `String.prototype.trim`. */
  function Trim(s: String): String {
    TrimEnd(TrimStart(s))
  }

  /** Trim keeps one contiguous slice of its input and drops only white space around it. */
  lemma TrimSlice(s: String) returns (lo: nat, hi: nat)
    ensures lo <= hi <= |s| && Trim(s) == s[lo..hi]
    ensures forall i :: 0 <= i < lo ==> IsWhitespace(s[i])
    ensures forall i :: hi <= i < |s| ==> IsWhitespace(s[i])
  {
    var t := TrimStart(s);
    var e := TrimEnd(t);
    assert Trim(s) == e;
    lo := |s| - |t|;
    hi := lo + |e|;
    TrimDroppedHead(s, t, lo);
    TrimStartSuffix(s, t, lo);
    TrimEndPrefix(t, e);
    SliceOfAgreeing(s, t, e, lo);
    TrimDroppedTail(s, t, e, lo);
    assert e == s[lo..hi];
  }

  /** The part TrimStart keeps is a suffix of its input. */
  lemma TrimStartSuffix(s: String, t: String, lo: nat)
    requires t == TrimStart(s) && lo == |s| - |t|
    ensures forall k :: 0 <= k < |t| ==> t[k] == s[lo + k]
  {
    forall k | 0 <= k < |t| ensures t[k] == s[lo + k] {
      assert t == s[lo..];
    }
  }

  /** The part TrimEnd keeps is a prefix of its input. */
  lemma TrimEndPrefix(t: String, e: String)
    requires e == TrimEnd(t)
    ensures |e| <= |t| && forall k :: 0 <= k < |e| ==> e[k] == t[k]
  {
    assert e == t[..|e|];
  }

  /** A sequence that agrees element by element with a window of `s` is that slice of `s`. */
  lemma SliceOfAgreeing(s: String, t: String, e: String, lo: nat)
    requires lo + |t| == |s| && forall k :: 0 <= k < |t| ==> t[k] == s[lo + k]
    requires |e| <= |t| && forall k :: 0 <= k < |e| ==> e[k] == t[k]
    ensures lo + |e| <= |s| && e == s[lo..lo + |e|]
  {
    var w := s[lo..lo + |e|];
    forall k | 0 <= k < |e| ensures e[k] == w[k] {
      assert w[k] == s[lo + k];
      assert e[k] == t[k];
    }
  }

  lemma TrimDroppedHead(s: String, t: String, lo: nat)
    requires t == TrimStart(s) && lo == |s| - |t|
    ensures forall i :: 0 <= i < lo ==> IsWhitespace(s[i])
  {
  }

  lemma TrimDroppedTail(s: String, t: String, e: String, lo: nat)
    requires t == TrimStart(s) && e == TrimEnd(t) && lo == |s| - |t|
    ensures forall i :: lo + |e| <= i < |s| ==> IsWhitespace(s[i])
  {
    TrimStartSuffix(s, t, lo);
    forall i | lo + |e| <= i < |s| ensures IsWhitespace(s[i]) {
      assert s[i] == t[i - lo];
    }
  }

  /** A trimmed string neither starts nor ends with white space. */
  lemma TrimEnds(s: String)
    ensures Trim(s) == [] || (!IsWhitespace(Trim(s)[0]) && !IsWhitespace(Trim(s)[|Trim(s)| - 1]))
  {
    TrimKeptEnds(TrimStart(s), Trim(s));
  }

  lemma TrimKeptEnds(t: String, e: String)
    requires (t == [] || !IsWhitespace(t[0])) && e == TrimEnd(t)
    ensures e == [] || (!IsWhitespace(e[0]) && !IsWhitespace(e[|e| - 1]))
  {
    if e != [] {
      TrimEndPrefix(t, e);
      assert e[0] == t[0];
    }
  }

  lemma TrimStartNoop(s: String)
    requires s == [] || !IsWhitespace(s[0])
    ensures TrimStart(s) == s
  {
  }

  lemma TrimEndNoop(s: String)
    requires s == [] || !IsWhitespace(s[|s| - 1])
    ensures TrimEnd(s) == s
  {
  }

  lemma {:induction false} TrimStartOfTrimEnd(s: String)
    requires s == [] || !IsWhitespace(s[0])
    ensures TrimEnd(s) == [] || !IsWhitespace(TrimEnd(s)[0])
  {
    if TrimEnd(s) != [] {
      assert TrimEnd(s)[0] == s[0];
    }
  }

  /** Trimming twice is trimming once. */
  lemma TrimIdempotent(s: String)
    ensures Trim(Trim(s)) == Trim(s)
  {
    var t := TrimStart(s);
    TrimStartOfTrimEnd(t);
    TrimStartNoop(TrimEnd(t));
    TrimEndNoop(TrimEnd(t));
  }

  /** A string trims to "" exactly when it is white space only. */
  lemma TrimEmptyIff(s: String)
    ensures Trim(s) == [] <==> forall i :: 0 <= i < |s| ==> IsWhitespace(s[i])
  {
    var lo, hi := TrimSlice(s);
    TrimEnds(s);
    if Trim(s) == [] {
      forall i | 0 <= i < |s| ensures IsWhitespace(s[i]) {
        assert i < lo || hi <= i;
      }
    } else {
      assert !IsWhitespace(s[lo]) by { assert Trim(s)[0] == s[lo]; }
    }
  }

  // ---------------------------------------------------------------------------
  // toLowerCase (ASCII letters)

  function LowerChar(c: char): char {
    if 'A' <= c <= 'Z' then (c as int + 32) as char else c
  }

  /** `String.prototype.toLowerCase`, restricted to the ASCII letters. */
  function ToLower(s: String): (r: String)
    ensures |r| == |s|
    ensures forall i :: 0 <= i < |s| ==> r[i] == LowerChar(s[i])
  {
    if s == [] then [] else [LowerChar(s[0])] + ToLower(s[1..])
  }

  predicate IsLower(s: String) {
    forall i :: 0 <= i < |s| ==> !('A' <= s[i] <= 'Z')
  }

  lemma ToLowerIsLower(s: String)
    ensures IsLower(ToLower(s))
    ensures IsLower(s) ==> ToLower(s) == s
  {
  }

  /** Lower-casing never turns white space into something else or the reverse. */
  lemma LowerKeepsWhitespace(c: char)
    ensures IsWhitespace(LowerChar(c)) == IsWhitespace(c)
  {
  }

  /** Lower-casing a trimmed string leaves it trimmed. */
  lemma TrimOfLowerTrimmed(s: String)
    ensures Trim(ToLower(Trim(s))) == ToLower(Trim(s))
  {
    var t := Trim(s);
    var lt := ToLower(t);
    TrimEnds(s);
    if t != [] {
      LowerKeepsWhitespace(t[0]);
      LowerKeepsWhitespace(t[|t| - 1]);
    }
    TrimStartNoop(lt);
    TrimEndNoop(lt);
  }

  // ---------------------------------------------------------------------------
  // split and join

  /** `String.prototype.split` with a one-character separator; "" splits into [""]. */
  function Split(s: String, sep: char): (r: seq<String>)
    ensures |r| >= 1
  {
    if s == [] then [[]]
    else
      var rest := Split(s[1..], sep);
      if s[0] == sep then [[]] + rest else [[s[0]] + rest[0]] + rest[1..]
  }

  /** `Array.prototype.join`. */
  function Join(parts: seq<String>, sep: String): String {
    if |parts| == 0 then []
    else if |parts| == 1 then parts[0]
    else parts[0] + sep + Join(parts[1..], sep)
  }

  lemma {:induction false} SplitNoSeparator(a: String, sep: char)
    requires sep !in a
    ensures Split(a, sep) == [a]
  {
    if a != [] {
      SplitNoSeparator(a[1..], sep);
      assert [a[0]] + a[1..] == a;
    }
  }

  lemma {:induction false} SplitAfterFirst(a: String, sep: char, b: String)
    requires sep !in a
    ensures Split(a + [sep] + b, sep) == [a] + Split(b, sep)
  {
    var s := a + [sep] + b;
    if a == [] {
      assert s[1..] == b;
    } else {
      assert s[1..] == a[1..] + [sep] + b;
      SplitAfterFirst(a[1..], sep, b);
      assert [a[0]] + a[1..] == a;
    }
  }

  /** Splitting on the separator recovers the parts joined with it, when no part contains it. */
  lemma {:induction false} SplitJoin(parts: seq<String>, sep: char)
    requires |parts| >= 1
    requires forall p :: p in parts ==> sep !in p
    ensures Split(Join(parts, [sep]), sep) == parts
  {
    if |parts| == 1 {
      SplitNoSeparator(parts[0], sep);
    } else {
      SplitAfterFirst(parts[0], sep, Join(parts[1..], [sep]));
      SplitJoin(parts[1..], sep);
    }
  }

  /** Every part appears, in full, inside the joined string. */
  lemma {:induction false} JoinContains(parts: seq<String>, sep: String, k: nat) returns (pre: String, post: String)
    requires k < |parts|
    ensures Join(parts, sep) == pre + parts[k] + post
  {
    if |parts| == 1 {
      pre, post := [], [];
    } else if k == 0 {
      pre, post := [], sep + Join(parts[1..], sep);
    } else {
      var p, q := JoinContains(parts[1..], sep, k - 1);
      pre, post := parts[0] + sep + p, q;
    }
  }

  /** `parts.filter(Boolean)` on optional strings: keeps the truthy ones, in order. */
  function FilterTruthy(parts: seq<Option<String>>): (r: seq<String>)
    ensures |r| <= |parts|
    ensures forall x :: x in r <==> x != [] && Some(x) in parts
  {
    if parts == [] then []
    else
      var rest := FilterTruthy(parts[1..]);
      assert forall x :: Some(x) in parts <==> parts[0] == Some(x) || Some(x) in parts[1..];
      if Truthy(parts[0]) then [parts[0].value] + rest else rest
  }

  /** `parts.filter(Boolean).join(sep)`. */
  function JoinTruthy(parts: seq<Option<String>>, sep: String): String {
    Join(FilterTruthy(parts), sep)
  }

  /** The lines of `parts.filter(Boolean).join("\n")` are exactly the truthy parts, when no part spans lines. */
  lemma LinesOfJoinTruthy(parts: seq<Option<String>>)
    requires exists i :: 0 <= i < |parts| && Truthy(parts[i])
    requires forall i :: 0 <= i < |parts| && parts[i].Some? ==> '\n' !in parts[i].value
    ensures Split(JoinTruthy(parts, "\n"), '\n') == FilterTruthy(parts)
  {
    var i :| 0 <= i < |parts| && Truthy(parts[i]);
    assert parts[i].value in FilterTruthy(parts);
    forall p | p in FilterTruthy(parts) ensures '\n' !in p {
      var j :| 0 <= j < |parts| && parts[j] == Some(p);
    }
    SplitJoin(FilterTruthy(parts), '\n');
  }

  /** A truthy part appears, in full, inside `parts.filter(Boolean).join(sep)`. */
  lemma JoinTruthyContains(parts: seq<Option<String>>, sep: String, k: nat) returns (pre: String, post: String)
    requires k < |parts| && Truthy(parts[k])
    ensures JoinTruthy(parts, sep) == pre + parts[k].value + post
  {
    var f := FilterTruthy(parts);
    assert parts[k].value in f;
    var j :| 0 <= j < |f| && f[j] == parts[k].value;
    pre, post := JoinContains(f, sep, j);
  }

  /** A falsy last part adds nothing to `parts.filter(Boolean)`. */
  lemma {:induction false} FilterTruthyFalsyLast(parts: seq<Option<String>>, x: Option<String>)
    requires !Truthy(x)
    ensures FilterTruthy(parts + [x]) == FilterTruthy(parts)
  {
    if parts != [] {
      assert (parts + [x])[1..] == parts[1..] + [x];
      FilterTruthyFalsyLast(parts[1..], x);
    }
  }

  // ---------------------------------------------------------------------------
  // indexOf and replace with a string pattern

  predicate OccursAt(s: String, pat: String, i: int) {
    0 <= i && i + |pat| <= |s| && s[i..i + |pat|] == pat
  }

  /** `s.indexOf(pat)`: the first position where `pat` occurs, if any. */
  function IndexOf(s: String, pat: String): (r: Option<nat>)
    ensures r.Some? ==> OccursAt(s, pat, r.value)
    ensures r.Some? ==> forall j :: 0 <= j < r.value ==> !OccursAt(s, pat, j)
    ensures r.None? ==> forall j :: !OccursAt(s, pat, j)
    decreases |s|
  {
    if |s| < |pat| then None
    else if s[..|pat|] == pat then Some(0)
    else
      var rest := IndexOf(s[1..], pat);
      assert forall j :: 1 <= j ==> (OccursAt(s, pat, j) <==> OccursAt(s[1..], pat, j - 1)) by {
        forall j | 1 <= j ensures OccursAt(s, pat, j) <==> OccursAt(s[1..], pat, j - 1) {
          OccursShift(s, pat, j);
        }
      }
      match rest
      case None => None
      case Some(k) => Some(k + 1)
  }

  lemma OccursShift(s: String, pat: String, j: int)
    requires 1 <= j && s != []
    ensures OccursAt(s, pat, j) <==> OccursAt(s[1..], pat, j - 1)
  {
    if j + |pat| <= |s| {
      var a, b := s[j..j + |pat|], s[1..][j - 1..j - 1 + |pat|];
      forall k | 0 <= k < |pat| ensures a[k] == b[k] {
        assert a[k] == s[j + k];
        assert b[k] == s[1..][j - 1 + k];
      }
      assert a == b;
    }
  }

  /** `s.replace(pat, rep)` with a string pattern: only the first occurrence is replaced. */
  function ReplaceFirst(s: String, pat: String, rep: String): String {
    match IndexOf(s, pat)
    case None => s
    case Some(i) => s[..i] + rep + s[i + |pat|..]
  }

  /** Replacing a prefix occurrence removes exactly that prefix. */
  lemma ReplacePrefix(pat: String, t: String)
    ensures ReplaceFirst(pat + t, pat, []) == t
  {
    assert OccursAt(pat + t, pat, 0);
  }

  /** `s.replace(/^@/, '')`: removes one leading "@", if any. */
  function StripLeadingAt(s: String): (r: String) {
    if s != [] && s[0] == '@' then s[1..] else s
  }

  // ---------------------------------------------------------------------------
  // lastIndexOf

  /** `s.lastIndexOf(c)`: the last position of `c`, or -1. */
  function LastIndexOf(s: String, c: char): (r: int)
    ensures -1 <= r < |s|
    ensures r >= 0 ==> s[r] == c
    ensures forall j :: r < j < |s| ==> s[j] != c
  {
    if s == [] then -1
    else if s[|s| - 1] == c then |s| - 1
    else LastIndexOf(s[..|s| - 1], c)
  }

  /** Appending characters other than `c` does not move the last `c`. */
  lemma {:induction false} LastIndexOfAppend(s: String, t: String, c: char)
    requires c !in t
    ensures LastIndexOf(s + t, c) == LastIndexOf(s, c)
  {
    if t != [] {
      var t' := t[..|t| - 1];
      assert (s + t)[|s + t| - 1] == t[|t| - 1] != c;
      assert (s + t)[..|s + t| - 1] == s + t';
      assert c !in t' by {
        assert forall x :: x in t' ==> x in t;
      }
      LastIndexOfAppend(s, t', c);
    } else {
      assert s + t == s;
    }
  }

  /** Lower-casing moves no occurrence of a character that is not a letter. */
  lemma {:induction false} LastIndexOfLower(s: String, c: char)
    requires !('A' <= c <= 'Z') && !('a' <= c <= 'z')
    ensures LastIndexOf(ToLower(s), c) == LastIndexOf(s, c)
  {
    if s != [] {
      var t := ToLower(s);
      assert t[..|t| - 1] == ToLower(s[..|s| - 1]);
      LastIndexOfLower(s[..|s| - 1], c);
    }
  }

  // ---------------------------------------------------------------------------
  // decimal rendering (`${n}`, `BigInt(x).toString()`)

  predicate IsDigit(c: char) {
    '0' <= c <= '9'
  }

  function DigitChar(d: nat): (c: char)
    requires d < 10
  {
    ('0' as int + d) as char
  }

  function DigitValue(c: char): nat {
    if IsDigit(c) then c as int - '0' as int else 0
  }

  /** The decimal digits of `n`, without leading zeros. */
  function Decimal(n: nat): (r: String)
    ensures r != [] && forall i :: 0 <= i < |r| ==> IsDigit(r[i])
    ensures r[0] == '0' ==> n == 0
  {
    if n < 10 then [DigitChar(n)] else Decimal(n / 10) + [DigitChar(n % 10)]
  }

  /** Reads a string of decimal digits back into a number. */
  function ParseDecimal(s: String): nat {
    if s == [] then 0 else ParseDecimal(s[..|s| - 1]) * 10 + DigitValue(s[|s| - 1])
  }

  /** Rendering a number in decimal and reading it back gives the number. */
  lemma {:induction false} DecimalRoundTrip(n: nat)
    ensures ParseDecimal(Decimal(n)) == n
  {
    if n >= 10 {
      var d := Decimal(n);
      assert d[..|d| - 1] == Decimal(n / 10);
      DecimalRoundTrip(n / 10);
    }
  }

  /** Decimal rendering is injective: different numbers have different renderings. */
  lemma DecimalInjective(m: nat, n: nat)
    requires Decimal(m) == Decimal(n)
    ensures m == n
  {
    DecimalRoundTrip(m);
    DecimalRoundTrip(n);
  }

  predicate IsHexDigit(c: char) {
    IsDigit(c) || 'a' <= c <= 'f' || 'A' <= c <= 'F'
  }

  function HexDigitValue(c: char): nat {
    if IsDigit(c) then DigitValue(c)
    else if 'a' <= c <= 'f' then c as int - 'a' as int + 10
    else if 'A' <= c <= 'F' then c as int - 'A' as int + 10
    else 0
  }

  /** Reads a string of hexadecimal digits (either case) as a number. */
  function ParseHex(s: String): nat {
    if s == [] then 0 else ParseHex(s[..|s| - 1]) * 16 + HexDigitValue(s[|s| - 1])
  }

  /** `${i}` for an integer (millisecond timestamps). */
  function IntToString(i: int): String {
    if i < 0 then "-" + Decimal(-i) else Decimal(i)
  }
}
