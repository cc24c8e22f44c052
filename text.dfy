/** A failure-compatible optional value, used for JavaScript's `null`/`undefined` and for `NaN`. */
module Optional {
  datatype Option<+T> = None | Some(value: T) {
    function GetOr(default: T): T {
      match this
      case Some(v) => v
      case None => default
    }
  }
}

/**
 * The string operations of the JavaScript runtime that the fuel tracker relies on:
 * trim, split, join, includes, replace, `length` and the ordering used by `sort`/`localeCompare`
 * on the ASCII dates and station names.
 */
module Text {

  /** The code points removed by String.prototype.trim (WhiteSpace and LineTerminator). */
  predicate IsSpace(c: char) {
    || c == ' ' || c == '\t' || c == '\n' || c == '\r' || c == '\U{000B}' || c == '\U{000C}'
    || c == '\U{00A0}' || c == '\U{1680}' || ('\U{2000}' <= c <= '\U{200A}')
    || c == '\U{2028}' || c == '\U{2029}' || c == '\U{202F}' || c == '\U{205F}'
    || c == '\U{3000}' || c == '\U{FEFF}'
  }

  function TrimStart(s: string): (r: string)
    ensures |r| <= |s| && r == s[|s| - |r|..]
    ensures r == [] || !IsSpace(r[0])
    ensures forall i :: 0 <= i < |s| - |r| ==> IsSpace(s[i])
  {
    if s != [] && IsSpace(s[0]) then
      var r := TrimStart(s[1..]);
      assert forall i :: 1 <= i < |s| ==> s[i] == s[1..][i - 1];
      r
    else s
  }

  function TrimEnd(s: string): (r: string)
    ensures |r| <= |s| && r == s[..|r|]
    ensures r == [] || !IsSpace(r[|r| - 1])
    ensures forall i :: |r| <= i < |s| ==> IsSpace(s[i])
  {
    if s != [] && IsSpace(s[|s| - 1]) then
      var r := TrimEnd(s[..|s| - 1]);
      assert forall i :: 0 <= i < |s| - 1 ==> s[i] == s[..|s| - 1][i];
      r
    else s
  }

  /** String.prototype.trim: the longest infix with no white space at either end. */
  function Trim(s: string): (r: string)
    ensures |r| <= |s|
    ensures r == [] || (!IsSpace(r[0]) && !IsSpace(r[|r| - 1]))
  {
    TrimEnd(TrimStart(s))
  }

  /** Trimming adds no character. */
  lemma TrimAvoids(s: string, c: char)
    requires c !in s
    ensures c !in Trim(s)
  {
    var t := TrimStart(s);
    assert c !in t by { assert t == s[|s| - |t|..]; }
    assert Trim(s) == t[..|Trim(s)|];
  }

  /** Index of the first occurrence of `c`. */
  function IndexOf(s: string, c: char): (i: nat)
    requires c in s
    ensures i < |s| && s[i] == c && c !in s[..i]
  {
    if s[0] == c then 0 else 1 + IndexOf(s[1..], c)
  }

  lemma {:induction false} IndexOfAt(s: string, c: char, k: nat)
    requires k < |s| && s[k] == c && c !in s[..k]
    ensures IndexOf(s, c) == k
  {
    if k > 0 {
      assert s[0] in s[..k];
      assert s[1..][..k - 1] == s[1..k];
      IndexOfAt(s[1..], c, k - 1);
    }
  }

  /** String.prototype.split with a one-character separator: never empty, pieces free of `sep`. */
  function Split(s: string, sep: char): (parts: seq<string>)
    ensures |parts| >= 1
    ensures forall i :: 0 <= i < |parts| ==> sep !in parts[i]
    decreases |s|
  {
    if sep !in s then [s]
    else
      var i := IndexOf(s, sep);
      [s[..i]] + Split(s[i + 1..], sep)
  }

  /** How many times `c` occurs in `s`. */
  function Occurrences(s: string, c: char): nat {
    if s == [] then 0 else (if s[0] == c then 1 else 0) + Occurrences(s[1..], c)
  }

  lemma {:induction false} OccurrencesAppend(a: string, b: string, c: char)
    ensures Occurrences(a + b, c) == Occurrences(a, c) + Occurrences(b, c)
  {
    if a == [] {
      assert a + b == b;
    } else {
      assert (a + b)[0] == a[0] && (a + b)[1..] == a[1..] + b;
      OccurrencesAppend(a[1..], b, c);
    }
  }

  lemma {:induction false} OccurrencesNone(s: string, c: char)
    requires c !in s
    ensures Occurrences(s, c) == 0
  {
    if s != [] { OccurrencesNone(s[1..], c); }
  }

  /** A split yields one piece more than there are separators. */
  lemma {:induction false} SplitCount(s: string, sep: char)
    ensures |Split(s, sep)| == Occurrences(s, sep) + 1
    decreases |s|
  {
    if sep in s {
      var i := IndexOf(s, sep);
      assert s == s[..i] + [sep] + s[i + 1..];
      OccurrencesAppend(s[..i] + [sep], s[i + 1..], sep);
      OccurrencesAppend(s[..i], [sep], sep);
      OccurrencesNone(s[..i], sep);
      SplitCount(s[i + 1..], sep);
    } else {
      OccurrencesNone(s, sep);
    }
  }

  /** Array.prototype.join with a one-character separator. */
  function Join(parts: seq<string>, sep: char): string {
    if parts == [] then ""
    else if |parts| == 1 then parts[0]
    else parts[0] + [sep] + Join(parts[1..], sep)
  }

  /** Joining the pieces of a split restores the string. */
  lemma {:induction false} JoinSplit(s: string, sep: char)
    ensures Join(Split(s, sep), sep) == s
    decreases |s|
  {
    if sep in s {
      var i := IndexOf(s, sep);
      JoinSplit(s[i + 1..], sep);
      JoinCons(s[..i], Split(s[i + 1..], sep), sep);
      assert s == s[..i] + [sep] + s[i + 1..];
    }
  }

  lemma JoinCons(a: string, parts: seq<string>, sep: char)
    requires |parts| >= 1
    ensures Join([a] + parts, sep) == a + [sep] + Join(parts, sep)
  {
    assert ([a] + parts)[1..] == parts;
  }

  /** Splitting a join of separator-free pieces gives the pieces back. */
  lemma {:induction false} SplitJoin(parts: seq<string>, sep: char)
    requires |parts| >= 1
    requires forall i :: 0 <= i < |parts| ==> sep !in parts[i]
    ensures Split(Join(parts, sep), sep) == parts
  {
    if |parts| > 1 {
      var rest := Join(parts[1..], sep);
      SplitJoin(parts[1..], sep);
      SplitCons(parts[0], rest, sep);
      assert parts == [parts[0]] + parts[1..];
    }
  }

  /** A character that is neither the separator nor in any piece is not in the join. */
  lemma {:induction false} JoinAvoids(parts: seq<string>, sep: char, c: char)
    requires c != sep && forall i :: 0 <= i < |parts| ==> c !in parts[i]
    ensures c !in Join(parts, sep)
  {
    if |parts| > 1 {
      JoinAvoids(parts[1..], sep, c);
    }
  }

  /** Splitting `a + [sep] + b` with `a` free of `sep` yields `a` and then the pieces of `b`. */
  lemma SplitCons(a: string, b: string, sep: char)
    requires sep !in a
    ensures Split(a + [sep] + b, sep) == [a] + Split(b, sep)
  {
    var s := a + [sep] + b;
    assert s[..|a|] == a;
    IndexOfAt(s, sep, |a|);
    assert s[|a| + 1..] == b;
  }

  predicate StartsWith(s: string, p: string) {
    |p| <= |s| && s[..|p|] == p
  }

  /** String.prototype.includes. */
  predicate Contains(s: string, p: string) {
    StartsWith(s, p) || (s != [] && Contains(s[1..], p))
  }

  /** A string contains each of its infixes. */
  lemma {:induction false} ContainsInfix(s: string, i: nat, p: string)
    requires i + |p| <= |s| && s[i..i + |p|] == p
    ensures Contains(s, p)
  {
    if i > 0 {
      assert s[1..][i - 1..i - 1 + |p|] == p;
      ContainsInfix(s[1..], i - 1, p);
    }
  }

  /** A string with no white space at either end is its own trim. */
  lemma TrimmedAlready(s: string)
    requires s == [] || (!IsSpace(s[0]) && !IsSpace(s[|s| - 1]))
    ensures Trim(s) == s
  {
  }

  /** The string with every character of `cs` removed (a global regular-expression replace by ''). */
  function Without(s: string, cs: set<char>): (r: string)
    ensures |r| <= |s|
    ensures forall i :: 0 <= i < |r| ==> r[i] !in cs
  {
    if s == [] then []
    else if s[0] in cs then Without(s[1..], cs)
    else [s[0]] + Without(s[1..], cs)
  }

  /** Removing characters adds none. */
  lemma {:induction false} WithoutAvoids(s: string, cs: set<char>, c: char)
    requires c !in s
    ensures c !in Without(s, cs)
  {
    if s != [] { WithoutAvoids(s[1..], cs, c); }
  }

  lemma {:induction false} WithoutAppend(a: string, b: string, cs: set<char>)
    ensures Without(a + b, cs) == Without(a, cs) + Without(b, cs)
  {
    if a == [] {
      assert a + b == b;
    } else {
      assert (a + b)[0] == a[0] && (a + b)[1..] == a[1..] + b;
      WithoutAppend(a[1..], b, cs);
    }
  }

  /** A string without any character of `cs` is unchanged by removing them. */
  lemma {:induction false} WithoutNone(s: string, cs: set<char>)
    requires forall i :: 0 <= i < |s| ==> s[i] !in cs
    ensures Without(s, cs) == s
  {
    if s != [] {
      WithoutNone(s[1..], cs);
    }
  }

  /** String.prototype.replace with a one-character pattern: only the first occurrence changes. */
  function ReplaceFirst(s: string, c: char, with: string): string {
    if c in s then var i := IndexOf(s, c); s[..i] + with + s[i + 1..] else s
  }

  /** String.prototype.substring(0, n). */
  function Prefix(s: string, n: nat): (r: string)
    ensures |r| <= n && StartsWith(s, r)
  {
    if |s| <= n then s else s[..n]
  }

  // ---------------------------------------------------------------------------------------------
  // UTF-16. A JavaScript string is a sequence of 16-bit code units: `length` counts them and the
  // default order of Array.prototype.sort compares them. A character of the model is a Unicode
  // scalar value, stored as one unit below U+10000 and as a surrogate pair above.

  /** The UTF-16 code units of one character. */
  function CodeUnits(c: char): (u: seq<int>)
    ensures |u| == (if c as int < 0x10000 then 1 else 2)
    ensures |u| == 1 ==> u[0] == c as int && !(0xD800 <= u[0] < 0xE000)
    ensures |u| == 2 ==> 0xD800 <= u[0] < 0xDC00 && 0xDC00 <= u[1] < 0xE000
    ensures |u| == 2 ==> c as int == 0x10000 + (u[0] - 0xD800) * 0x400 + (u[1] - 0xDC00)
  {
    var n := c as int;
    if n < 0x10000 then [n] else [0xD800 + (n - 0x10000) / 0x400, 0xDC00 + (n - 0x10000) % 0x400]
  }

  /** The code units of a string, character after character. */
  function Utf16(s: string): seq<int> {
    if s == [] then [] else CodeUnits(s[0]) + Utf16(s[1..])
  }

  /** String.prototype.length: one unit per character, two for a character beyond U+FFFF. */
  function Length(s: string): (n: nat)
    ensures |s| <= n <= 2 * |s|
    ensures n == |s| <==> forall i :: 0 <= i < |s| ==> s[i] as int < 0x10000
    ensures n == 2 * |s| <==> forall i :: 0 <= i < |s| ==> s[i] as int >= 0x10000
  {
    if s == [] then 0
    else
      var n := |CodeUnits(s[0])| + Length(s[1..]);
      assert forall i :: 1 <= i < |s| ==> s[i] == s[1..][i - 1];
      n
  }

  /** `length` is the number of code units of the string. */
  lemma {:induction false} LengthCountsUnits(s: string)
    ensures Length(s) == |Utf16(s)|
  {
    if s != [] { LengthCountsUnits(s[1..]); }
  }

  /** Lexicographic order on sequences of code units, a prefix first. */
  predicate UnitsLe(a: seq<int>, b: seq<int>) {
    a == [] || (b != [] && (a[0] < b[0] || (a[0] == b[0] && UnitsLe(a[1..], b[1..]))))
  }

  /** The first code unit of a character. */
  function LeadUnit(c: char): int {
    CodeUnits(c)[0]
  }

  /**
   * `c` has smaller code units than `d`: a smaller first unit, or the same high surrogate and a
   * smaller low one, which for two characters beyond U+FFFF is the smaller code point.
   */
  predicate UnitBefore(c: char, d: char) {
    LeadUnit(c) < LeadUnit(d) || (LeadUnit(c) == LeadUnit(d) && c < d)
  }

  /**
   * The order of Array.prototype.sort without a comparator: lexicographic on code units, as
   * `LexLeIsCodeUnitOrder` shows. For the ASCII `YYYY-MM-DD` dates this is also what
   * localeCompare decides.
   */
  predicate LexLe(a: string, b: string) {
    a == [] || (b != [] && (UnitBefore(a[0], b[0]) || (a[0] == b[0] && LexLe(a[1..], b[1..]))))
  }

  lemma {:induction false} UnitsLeCommonPrefix(x: seq<int>, p: seq<int>, q: seq<int>)
    ensures UnitsLe(x + p, x + q) <==> UnitsLe(p, q)
  {
    if x != [] {
      assert (x + p)[1..] == x[1..] + p && (x + q)[1..] == x[1..] + q;
      UnitsLeCommonPrefix(x[1..], p, q);
    } else {
      assert x + p == p && x + q == q;
    }
  }

  /** Two different characters are ordered by their own code units, whatever follows them. */
  lemma UnitsLeFirstCharacter(c: char, d: char, p: seq<int>, q: seq<int>)
    requires c != d
    ensures UnitsLe(CodeUnits(c) + p, CodeUnits(d) + q) <==> UnitBefore(c, d)
  {
    var u, v := CodeUnits(c) + p, CodeUnits(d) + q;
    assert u[0] == LeadUnit(c) && v[0] == LeadUnit(d);
    if LeadUnit(c) == LeadUnit(d) {
      assert |CodeUnits(c)| == 2 && |CodeUnits(d)| == 2;
      assert u[1] == CodeUnits(c)[1] && v[1] == CodeUnits(d)[1];
      assert u[1..][0] == u[1] && v[1..][0] == v[1];
    }
  }

  /** LexLe is exactly the lexicographic order of the strings' UTF-16 code units. */
  lemma {:induction false} LexLeIsCodeUnitOrder(a: string, b: string)
    ensures LexLe(a, b) <==> UnitsLe(Utf16(a), Utf16(b))
  {
    if a != [] && b != [] {
      if a[0] == b[0] {
        UnitsLeCommonPrefix(CodeUnits(a[0]), Utf16(a[1..]), Utf16(b[1..]));
        LexLeIsCodeUnitOrder(a[1..], b[1..]);
      } else {
        UnitsLeFirstCharacter(a[0], b[0], Utf16(a[1..]), Utf16(b[1..]));
      }
    }
  }

  /**
   * Code-unit order differs from code-point order beyond U+FFFF: U+1F600 is stored as the
   * surrogates D83D DE00 and so sorts before U+FF25 (a full-width E), whose single unit is larger.
   */
  lemma SupplementaryBeforeFullWidth()
    ensures LexLe("\U{1F600}", "\U{FF25}\U{FF2E}") && !LexLe("\U{FF25}\U{FF2E}", "\U{1F600}")
    ensures '\U{1F600}' > '\U{FF25}'
  {
    assert LeadUnit('\U{1F600}') == 0xD83D;
  }

  lemma {:induction false} LexLeTotal(a: string, b: string)
    ensures LexLe(a, b) || LexLe(b, a)
  {
    if a != [] && b != [] && a[0] == b[0] { LexLeTotal(a[1..], b[1..]); }
  }

  lemma {:induction false} LexLeTransitive(a: string, b: string, c: string)
    requires LexLe(a, b) && LexLe(b, c)
    ensures LexLe(a, c)
  {
    if a != [] && a[0] == b[0] && b[0] == c[0] { LexLeTransitive(a[1..], b[1..], c[1..]); }
  }

  lemma {:induction false} LexLeAntisymmetric(a: string, b: string)
    requires LexLe(a, b) && LexLe(b, a)
    ensures a == b
  {
    if a != [] {
      LexLeAntisymmetric(a[1..], b[1..]);
      assert a == [a[0]] + a[1..] && b == [b[0]] + b[1..];
    }
  }

  lemma PrefixTail(s: string, n: nat)
    requires s != [] && n > 0
    ensures Prefix(s, n) != [] && Prefix(s, n)[0] == s[0] && Prefix(s, n)[1..] == Prefix(s[1..], n - 1)
  {
    if |s| > n {
      assert s[..n][1..] == s[1..][..n - 1];
    }
  }

  /** Cutting two ordered strings to the same length keeps them ordered (dates to months). */
  lemma {:induction false} LexLePrefix(a: string, b: string, n: nat)
    requires LexLe(a, b)
    ensures LexLe(Prefix(a, n), Prefix(b, n))
  {
    if n > 0 && a != [] && a[0] == b[0] {
      LexLePrefix(a[1..], b[1..], n - 1);
      PrefixTail(a, n);
      PrefixTail(b, n);
    }
  }
}
