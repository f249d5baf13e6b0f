/** The string operations the components call: the ASCII character classes
    used by the sanitising regular expressions, `toLowerCase`/`toUpperCase`
    on ASCII letters, `includes`, and the name order used for sorting. */
module Text {
  import opened Common

  predicate IsAsciiLetter(c: char) {
    ('a' <= c <= 'z') || ('A' <= c <= 'Z')
  }

  predicate IsDigit(c: char) {
    '0' <= c <= '9'
  }

  /** The regular-expression class `\w`: `[A-Za-z0-9_]`. */
  predicate IsWordChar(c: char) {
    IsAsciiLetter(c) || IsDigit(c) || c == '_'
  }

  function ToUpperChar(c: char): (u: char)
    ensures 'a' <= c <= 'z' ==> 'A' <= u <= 'Z'
    ensures 'a' <= c <= 'z' ==> u as int == c as int - 32
    ensures !('a' <= c <= 'z') ==> u == c
    ensures IsWordChar(u) <==> IsWordChar(c)
    ensures IsAsciiLetter(u) <==> IsAsciiLetter(c)
  {
    if 'a' <= c <= 'z' then (c as int - 'a' as int + 'A' as int) as char else c
  }

  function ToLowerChar(c: char): (l: char)
    ensures 'A' <= c <= 'Z' ==> 'a' <= l <= 'z'
    ensures 'A' <= c <= 'Z' ==> l as int == c as int + 32
    ensures !('A' <= c <= 'Z') ==> l == c
  {
    if 'A' <= c <= 'Z' then (c as int - 'A' as int + 'a' as int) as char else c
  }

  /** `s.toLowerCase()` on ASCII text. */
  function ToLower(s: string): (r: string)
    ensures |r| == |s|
    ensures forall i :: 0 <= i < |s| ==> r[i] == ToLowerChar(s[i])
  {
    seq(|s|, i requires 0 <= i < |s| => ToLowerChar(s[i]))
  }

  /** `t` occurs in `s` starting at position `i`. */
  predicate OccursAt(s: string, t: string, i: int) {
    0 <= i && i + |t| <= |s| && s[i..i + |t|] == t
  }

  /** `s.includes(t)`: some position of `s` starts an occurrence of `t`. */
  function Contains(s: string, t: string): (b: bool)
    ensures b <==> exists i :: OccursAt(s, t, i)
    decreases |s|
  {
    if t <= s then
      assert OccursAt(s, t, 0);
      true
    else if s == [] then
      assert forall i :: !OccursAt(s, t, i);
      false
    else
      var b := Contains(s[1..], t);
      assert forall i :: OccursAt(s, t, i) ==> i > 0 && OccursAt(s[1..], t, i - 1);
      assert forall j :: OccursAt(s[1..], t, j) ==> OccursAt(s, t, j + 1);
      b
  }

  /** Every string includes the empty string. */
  lemma ContainsEmpty(s: string)
    ensures Contains(s, "")
  {
    assert OccursAt(s, "", 0);
  }

  /** Lexicographic order on character codes: the model of
      `a.localeCompare(b) <= 0`. */
  predicate LexLeq(a: string, b: string)
    ensures LexLeq(a, b) && a != [] ==> b != [] && a[0] <= b[0]
    ensures a <= b ==> LexLeq(a, b)
  {
    if a == [] then true
    else if b == [] then false
    else if a[0] != b[0] then a[0] < b[0]
    else LexLeq(a[1..], b[1..])
  }

  lemma {:induction false} LexLeqRefl(a: string)
    ensures LexLeq(a, a)
  {
    if a != [] {
      LexLeqRefl(a[1..]);
    }
  }

  /** Any two names are ordered one way or the other. */
  lemma {:induction false} LexLeqTotal(a: string, b: string)
    ensures LexLeq(a, b) || LexLeq(b, a)
  {
    if a != [] && b != [] && a[0] == b[0] {
      LexLeqTotal(a[1..], b[1..]);
    }
  }

  lemma {:induction false} LexLeqTrans(a: string, b: string, c: string)
    requires LexLeq(a, b) && LexLeq(b, c)
    ensures LexLeq(a, c)
  {
    if a != [] && b != [] && c != [] && a[0] == b[0] && b[0] == c[0] {
      LexLeqTrans(a[1..], b[1..], c[1..]);
    }
  }

  lemma {:induction false} LexLeqAntisym(a: string, b: string)
    requires LexLeq(a, b) && LexLeq(b, a)
    ensures a == b
  {
    if a != [] && b != [] {
      LexLeqAntisym(a[1..], b[1..]);
      assert a == [a[0]] + a[1..];
      assert b == [b[0]] + b[1..];
    }
  }

  predicate AllDigits(s: string) {
    forall i :: 0 <= i < |s| ==> IsDigit(s[i])
  }

  /** The value of a string of decimal digits. */
  function DigitsValue(s: string): nat
    requires AllDigits(s)
  {
    if s == [] then 0
    else DigitsValue(s[..|s| - 1]) * 10 + (s[|s| - 1] as int - '0' as int)
  }

  /** `parseInt(s)` (and `Number(s)`) on an integer literal: an optional
      minus sign and at least one digit. Anything else reads as NaN (`None`). */
  function ParseInt(s: string): (r: Option<int>)
    ensures r.Some? <==> (s != [] && AllDigits(s)) || (|s| > 1 && s[0] == '-' && AllDigits(s[1..]))
    ensures r.Some? && r.value < 0 ==> s[0] == '-'
    ensures r.Some? && s[0] != '-' ==> r.value == DigitsValue(s)
    ensures r.Some? && s[0] == '-' ==> r.value == 0 - DigitsValue(s[1..])
    ensures r.Some? ==> (r.value <= 0 <==> s[0] == '-' || forall i :: 0 <= i < |s| ==> s[i] == '0')
  {
    if s != [] && AllDigits(s) then DigitsValueZero(s); Some(DigitsValue(s))
    else if |s| > 1 && s[0] == '-' && AllDigits(s[1..]) then Some(0 - DigitsValue(s[1..]) as int)
    else None
  }

  /** A digit string has value zero exactly when every digit is '0'. */
  lemma {:induction false} DigitsValueZero(s: string)
    requires AllDigits(s)
    ensures DigitsValue(s) == 0 <==> forall i :: 0 <= i < |s| ==> s[i] == '0'
  {
    if s != [] {
      var init := s[..|s| - 1];
      assert AllDigits(init);
      DigitsValueZero(init);
      assert forall i :: 0 <= i < |init| ==> init[i] == s[i];
    }
  }
}
