/**
 * String operations of the JavaScript and Python runtimes that the modelled
 * code calls: `trim`, `toLowerCase`, `split`, `join`, `replace`, number
 * formatting. Strings are sequences of code points.
 */
module Text {

  /** JavaScript's `WhiteSpace` and `LineTerminator` characters: what `String.prototype.trim` removes. */
  predicate IsSpace(c: char) {
    || c == '\t' || c == '\n' || c == '\U{000B}' || c == '\U{000C}' || c == '\r' || c == ' '
    || c == '\U{00A0}' || c == '\U{1680}' || ('\U{2000}' <= c <= '\U{200A}')
    || c == '\U{2028}' || c == '\U{2029}' || c == '\U{202F}' || c == '\U{205F}'
    || c == '\U{3000}' || c == '\U{FEFF}'
  }

  predicate AllSpace(s: string) {
    forall i :: 0 <= i < |s| ==> IsSpace(s[i])
  }

  /** The number of white-space characters at the start of `s`. */
  function LeadingSpace(s: string): (k: nat)
    ensures k <= |s| && AllSpace(s[..k])
    ensures k < |s| ==> !IsSpace(s[k])
    decreases |s|
  {
    if s != [] && IsSpace(s[0]) then
      var k := LeadingSpace(s[1..]);
      assert s[..k + 1] == [s[0]] + s[1..][..k];
      k + 1
    else 0
  }

  /** The length of `s` without its trailing white space. */
  function ContentEnd(s: string): (k: nat)
    ensures k <= |s| && AllSpace(s[k..])
    ensures k > 0 ==> !IsSpace(s[k - 1])
    decreases |s|
  {
    if s != [] && IsSpace(s[|s| - 1]) then
      var k := ContentEnd(s[..|s| - 1]);
      assert forall m :: k <= m < |s| - 1 ==> s[m] == s[..|s| - 1][k..][m - k];
      k
    else |s|
  }

  /** `String.prototype.trim`: the text without white space at either end. */
  function Trim(s: string): (r: string)
    ensures exists i, j :: 0 <= i <= j <= |s| && r == s[i..j] && AllSpace(s[..i]) && AllSpace(s[j..])
    ensures r != [] ==> !IsSpace(r[0]) && !IsSpace(r[|r| - 1])
  {
    var i := LeadingSpace(s);
    var k := ContentEnd(s[i..]);
    assert s[i..][..k] == s[i..i + k] && s[i..][k..] == s[i + k..];
    s[i..i + k]
  }

  /** Trimming leaves nothing exactly when the text is all white space. */
  lemma TrimEmptyIffAllSpace(s: string)
    ensures Trim(s) == [] <==> AllSpace(s)
  {
    var r := Trim(s);
    var i, j :| 0 <= i <= j <= |s| && r == s[i..j] && AllSpace(s[..i]) && AllSpace(s[j..]);
    if r == [] {
      forall k | 0 <= k < |s| ensures IsSpace(s[k]) {
        if k < i { assert s[k] == s[..i][k]; } else { assert s[k] == s[j..][k - j]; }
      }
    } else {
      assert s[i] == r[0];
    }
  }

  /** White space before a non-space character is exactly the leading white space. */
  lemma {:induction false} LeadingSpacePadded(a: string, t: string)
    requires AllSpace(a) && t != [] && !IsSpace(t[0])
    ensures LeadingSpace(a + t) == |a|
    decreases |a|
  {
    if a == [] {
      assert a + t == t;
    } else {
      assert (a + t)[0] == a[0] && (a + t)[1..] == a[1..] + t;
      LeadingSpacePadded(a[1..], t);
    }
  }

  /** White space after a non-space character is exactly the trailing white space. */
  lemma {:induction false} ContentEndPadded(t: string, b: string)
    requires AllSpace(b) && t != [] && !IsSpace(t[|t| - 1])
    ensures ContentEnd(t + b) == |t|
    decreases |b|
  {
    if b == [] {
      assert t + b == t;
    } else {
      var s := t + b;
      assert s[|s| - 1] == b[|b| - 1] && s[..|s| - 1] == t + b[..|b| - 1];
      ContentEndPadded(t, b[..|b| - 1]);
    }
  }

  /** Trimming white space off both ends of a text with non-space ends gives back that text. */
  lemma TrimPadded(a: string, m: string, b: string)
    requires AllSpace(a) && AllSpace(b)
    requires m != [] && !IsSpace(m[0]) && !IsSpace(m[|m| - 1])
    ensures Trim(a + m + b) == m
  {
    var s := a + m + b;
    assert s == a + (m + b) && (m + b)[0] == m[0];
    LeadingSpacePadded(a, m + b);
    assert s[|a|..] == m + b;
    ContentEndPadded(m, b);
    assert s[|a|..|a| + |m|] == m;
  }

  /** The lower-case form of an ASCII letter; every other character is kept. */
  function LowerChar(c: char): (d: char)
    ensures 'A' <= c <= 'Z' ==> 'a' <= d <= 'z' && d as int - c as int == 32
    ensures !('A' <= c <= 'Z') ==> d == c
  {
    if 'A' <= c <= 'Z' then (c as int + 32) as char else c
  }

  /** `String.prototype.toLowerCase`, restricted to ASCII letters. */
  function ToLower(s: string): (r: string)
    ensures |r| == |s|
    ensures forall i :: 0 <= i < |s| ==> r[i] == LowerChar(s[i])
  {
    seq(|s|, i requires 0 <= i < |s| => LowerChar(s[i]))
  }

  /** A text without upper-case ASCII letters. */
  predicate IsLowerCase(s: string) {
    forall i :: 0 <= i < |s| ==> !('A' <= s[i] <= 'Z')
  }

  /** Lower-casing yields lower-case text and changes nothing in lower-case text. */
  lemma ToLowerLowers(s: string)
    ensures IsLowerCase(ToLower(s))
    ensures IsLowerCase(s) <==> ToLower(s) == s
  {
    if !IsLowerCase(s) {
      var i :| 0 <= i < |s| && 'A' <= s[i] <= 'Z';
      assert ToLower(s)[i] != s[i];
    }
  }

  /** The position of the first `c` in `s`. */
  function IndexOf(s: string, c: char): (k: nat)
    requires c in s
    ensures k < |s| && s[k] == c && c !in s[..k]
  {
    if s[0] == c then 0 else
      var k := IndexOf(s[1..], c);
      assert s[1..][..k] == s[1..k + 1];
      k + 1
  }

  /**
   * `String.prototype.split` with a one-character separator: the pieces between
   * separators, empty ones included, so there is always at least one piece.
   */
  function Split(s: string, sep: char): (parts: seq<string>)
    ensures |parts| >= 1
    ensures forall i :: 0 <= i < |parts| ==> sep !in parts[i]
    decreases |s|
  {
    if sep !in s then [s]
    else
      var k := IndexOf(s, sep);
      [s[..k]] + Split(s[k + 1..], sep)
  }

  /** `Array.prototype.join` and Python's `str.join`: the parts with `sep` between neighbours. */
  function Join(parts: seq<string>, sep: string): string
  {
    if parts == [] then ""
    else if |parts| == 1 then parts[0]
    else parts[0] + sep + Join(parts[1..], sep)
  }

  lemma JoinCons(p: string, rest: seq<string>, sep: string)
    requires rest != []
    ensures Join([p] + rest, sep) == p + sep + Join(rest, sep)
  {
    assert ([p] + rest)[1..] == rest;
  }

  /** Joining the pieces of a split with the separator gives back the text. */
  lemma {:induction false} JoinSplit(s: string, sep: char)
    ensures Join(Split(s, sep), [sep]) == s
    decreases |s|
  {
    if sep in s {
      var k := IndexOf(s, sep);
      var rest := Split(s[k + 1..], sep);
      JoinSplit(s[k + 1..], sep);
      JoinCons(s[..k], rest, [sep]);
      assert s == s[..k] + [sep] + s[k + 1..];
    }
  }

  /** Splitting a join of separator-free parts gives back the parts. */
  lemma {:induction false} SplitJoin(parts: seq<string>, sep: char)
    requires |parts| >= 1
    requires forall i :: 0 <= i < |parts| ==> sep !in parts[i]
    ensures Split(Join(parts, [sep]), sep) == parts
  {
    if |parts| > 1 {
      var rest := Join(parts[1..], [sep]);
      var s := parts[0] + [sep] + rest;
      assert s[|parts[0]|] == sep;
      var k := IndexOf(s, sep);
      assert forall m :: 0 <= m < |parts[0]| ==> s[m] == parts[0][m];
      assert forall m :: 0 <= m < k ==> s[m] != sep by {
        forall m | 0 <= m < k ensures s[m] != sep { assert s[m] == s[..k][m]; }
      }
      assert s[..k] == parts[0] && s[k + 1..] == rest;
      SplitJoin(parts[1..], sep);
    }
  }

  /** The number of times `c` occurs in `s`. */
  function Count(s: string, c: char): nat
  {
    if s == [] then 0 else Count(s[1..], c) + (if s[0] == c then 1 else 0)
  }

  lemma {:induction false} CountAppend(a: string, b: string, c: char)
    ensures Count(a + b, c) == Count(a, c) + Count(b, c)
  {
    if a == [] {
      assert a + b == b;
    } else {
      assert (a + b)[0] == a[0] && (a + b)[1..] == a[1..] + b;
      CountAppend(a[1..], b, c);
    }
  }

  lemma {:induction false} CountAbsent(s: string, c: char)
    requires c !in s
    ensures Count(s, c) == 0
  {
    if s != [] { CountAbsent(s[1..], c); }
  }

  /** Python's `str.replace` for one character by another. */
  function Replace(s: string, old_: char, new_: char): (r: string)
    ensures |r| == |s|
    ensures forall i :: 0 <= i < |s| ==> r[i] == (if s[i] == old_ then new_ else s[i])
    ensures old_ != new_ ==> old_ !in r
  {
    seq(|s|, i requires 0 <= i < |s| => if s[i] == old_ then new_ else s[i])
  }

  /** The decimal digit for `d`. */
  function DigitChar(d: nat): (c: char)
    requires d < 10
    ensures '0' <= c <= '9' && c as int - '0' as int == d
  {
    ('0' as int + d) as char
  }

  /** A number as JavaScript's template literals and `String` render a non-negative integer. */
  function NatToString(n: nat): (s: string)
    ensures |s| >= 1
    ensures forall i :: 0 <= i < |s| ==> '0' <= s[i] <= '9'
    ensures |s| > 1 ==> s[0] != '0'
  {
    if n < 10 then [DigitChar(n)] else NatToString(n / 10) + [DigitChar(n % 10)]
  }

  /** The value of a string of decimal digits. */
  function ParseDigits(s: string): nat
    requires forall i :: 0 <= i < |s| ==> '0' <= s[i] <= '9'
  {
    if s == [] then 0 else ParseDigits(s[..|s| - 1]) * 10 + (s[|s| - 1] as int - '0' as int)
  }

  /** Reading the rendered number back gives the number. */
  lemma {:induction false} ParseNatToString(n: nat)
    ensures ParseDigits(NatToString(n)) == n
  {
    if n >= 10 {
      var s := NatToString(n);
      assert s[..|s| - 1] == NatToString(n / 10);
      ParseNatToString(n / 10);
    }
  }
}
