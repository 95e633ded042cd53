// ASCII text helpers shared by the two command parsers: lowercasing, the
// character classes `\s` and `\d`, substring search (Python's `in`) and
// decimal numerals (Python's `int` on a digit string, and `str` on a
// non-negative integer).

module Text {
  import opened Wrappers

  predicate IsUpper(c: char) {
    'A' <= c <= 'Z'
  }

  function LowerChar(c: char): (r: char)
    ensures !IsUpper(r)
    ensures IsUpper(c) ==> r as int == c as int + 32
    ensures !IsUpper(c) ==> r == c
  {
    if IsUpper(c) then (c as int + 32) as char else c
  }

  /** `str.lower()` on ASCII letters; other characters are kept. */
  function Lower(s: string): (r: string)
    ensures |r| == |s|
    ensures forall i :: 0 <= i < |s| ==> r[i] == LowerChar(s[i])
  {
    if s == [] then [] else [LowerChar(s[0])] + Lower(s[1..])
  }

  /** Lowercasing twice changes nothing more, so parsing lowered text is
      insensitive to case. */
  lemma LowerIdempotent(s: string)
    ensures Lower(Lower(s)) == Lower(s)
  {
  }

  /** `\s` in ASCII: space, tab, line feed, carriage return, form feed and
      vertical tab. */
  predicate IsSpace(c: char) {
    c == ' ' || c == '\t' || c == '\n' || c == '\r' || c as int == 12 || c as int == 11
  }

  /** `\d` in ASCII. */
  predicate IsDigit(c: char) {
    '0' <= c <= '9'
  }

  /** The text after its leading whitespace (what a greedy `\s*` consumes). */
  function SkipSpaces(s: string): (r: string)
    ensures |r| <= |s|
    ensures r == [] || !IsSpace(r[0])
    ensures forall i :: 0 <= i < |s| - |r| ==> IsSpace(s[i])
  {
    if s != [] && IsSpace(s[0]) then SkipSpaces(s[1..]) else s
  }

  /** The number of leading digits (what a greedy `\d+` consumes). */
  function DigitCount(s: string): (n: nat)
    ensures n <= |s|
    ensures forall i :: 0 <= i < n ==> IsDigit(s[i])
    ensures n == |s| || !IsDigit(s[n])
  {
    if s != [] && IsDigit(s[0]) then 1 + DigitCount(s[1..]) else 0
  }

  predicate AllDigits(s: string) {
    forall i :: 0 <= i < |s| ==> IsDigit(s[i])
  }

  /** The value of a decimal digit string (`int(s)`; leading zeros allowed). */
  function NumberValue(ds: string): nat
    requires AllDigits(ds)
  {
    if ds == [] then 0
    else 10 * NumberValue(ds[..|ds| - 1]) + (ds[|ds| - 1] as int - '0' as int)
  }

  /** The decimal numeral of `n` (`str(n)`). */
  function Numeral(n: nat): (r: string)
    ensures r != [] && AllDigits(r)
  {
    if n < 10 then [('0' as int + n) as char]
    else Numeral(n / 10) + [('0' as int + n % 10) as char]
  }

  /** Reading a numeral gives back the number. */
  lemma {:induction false} NumeralRoundTrip(n: nat)
    ensures NumberValue(Numeral(n)) == n
  {
    if n >= 10 {
      NumeralRoundTrip(n / 10);
      var r := Numeral(n);
      assert r[..|r| - 1] == Numeral(n / 10);
    }
  }

  /** `w` occurs in `s` starting at index `i`. */
  predicate OccursAt(s: string, w: string, i: int) {
    0 <= i && i + |w| <= |s| && s[i..i + |w|] == w
  }

  /** Python's `w in s` on strings: a substring test. */
  function Contains(s: string, w: string): (r: bool)
    ensures r <==> exists i :: OccursAt(s, w, i)
  {
    ContainsFrom(s, w, 0)
  }

  function ContainsFrom(s: string, w: string, k: nat): (r: bool)
    ensures r <==> exists i :: k <= i && OccursAt(s, w, i)
    decreases |s| + 1 - k
  {
    if k + |w| > |s| then
      assert forall i :: k <= i ==> !OccursAt(s, w, i);
      false
    else if s[k..k + |w|] == w then
      assert OccursAt(s, w, k);
      true
    else ContainsFrom(s, w, k + 1)
  }

  /** A text holding `a + b` holds `a`. */
  lemma ContainsPrefix(s: string, a: string, b: string)
    requires Contains(s, a + b)
    ensures Contains(s, a)
  {
    var i :| OccursAt(s, a + b, i);
    assert s[i..i + |a|] == s[i..i + |a| + |b|][..|a|];
    assert OccursAt(s, a, i);
  }

  /** Dropping the first part of a three-part sequence leaves the rest. */
  lemma DropFirstOfThree<T>(a: seq<T>, b: seq<T>, c: seq<T>)
    ensures (a + b + c)[|a|..] == b + c
  {
  }

  /** Whatever contains `a + b + c` contains `a`. */
  lemma ContainsFirstOfThree(s: string, a: string, b: string, c: string)
    requires Contains(s, a + b + c)
    ensures Contains(s, a)
  {
    assert a + b + c == a + (b + c);
    ContainsPrefix(s, a, b + c);
  }

  /** `s` starts with `w`. */
  predicate StartsWith(s: string, w: string) {
    |w| <= |s| && s[..|w|] == w
  }

  /** `re.search`: the result at the leftmost position where `at` matches,
      `at` reading the text from that position on. */
  function Search<T>(s: string, at: string -> Option<T>): (r: Option<T>)
    ensures r.None? <==> forall i :: 0 <= i <= |s| ==> at(s[i..]).None?
    ensures r.Some? ==> exists i :: 0 <= i <= |s| && at(s[i..]) == r &&
                                    forall j :: 0 <= j < i ==> at(s[j..]).None?
  {
    SearchFrom(s, at, 0)
  }

  /** A match at the very start is the leftmost one. */
  lemma SearchAtStart<T>(s: string, at: string -> Option<T>)
    requires at(s).Some?
    ensures Search(s, at) == at(s)
  {
    assert s[0..] == s;
  }

  function SearchFrom<T>(s: string, at: string -> Option<T>, k: nat): (r: Option<T>)
    requires k <= |s|
    ensures r.None? <==> forall i :: k <= i <= |s| ==> at(s[i..]).None?
    ensures r.Some? ==> exists i :: k <= i <= |s| && at(s[i..]) == r &&
                                    forall j :: k <= j < i ==> at(s[j..]).None?
    decreases |s| - k
  {
    if at(s[k..]).Some? then at(s[k..])
    else if k == |s| then None
    else SearchFrom(s, at, k + 1)
  }
}
