/** Character and substring facts that the URL patterns and the encoding token rely on. */
module Strings {

  /** A character of the regex class [0-9]. */
  predicate IsDigit(c: char) {
    '0' <= c <= '9'
  }

  /** Every character of s is in [0-9] (s may be empty). */
  predicate AllDigits(s: string) {
    forall i :: 0 <= i < |s| ==> IsDigit(s[i])
  }

  /** s is a text matched by [0-9]+: non-empty and all digits. */
  predicate IsDigits(s: string) {
    |s| > 0 && AllDigits(s)
  }

  /** t occurs in s starting at index i. */
  ghost predicate OccursAt(s: string, t: string, i: int) {
    0 <= i && i + |t| <= |s| && s[i..i + |t|] == t
  }

  /** String.contains: t occurs somewhere in s; the empty string occurs everywhere. */
  function Contains(s: string, t: string): bool
    decreases |s|
  {
    if t <= s then true
    else if s == [] then false
    else Contains(s[1..], t)
  }

  /** Contains agrees with the positional definition of an occurrence. */
  lemma {:induction false} ContainsIff(s: string, t: string)
    ensures Contains(s, t) <==> exists i :: OccursAt(s, t, i)
    decreases |s|
  {
    if t <= s {
      assert OccursAt(s, t, 0);
    } else if s != [] {
      ContainsIff(s[1..], t);
      if Contains(s[1..], t) {
        var i :| OccursAt(s[1..], t, i);
        assert s[1..][i..i + |t|] == s[i + 1..i + 1 + |t|];
        assert OccursAt(s, t, i + 1);
      }
      forall i | OccursAt(s, t, i) && i > 0
        ensures OccursAt(s[1..], t, i - 1)
      {
        assert s[1..][i - 1..i - 1 + |t|] == s[i..i + |t|];
      }
    }
  }

  /** An occurrence at a known index makes Contains true. */
  lemma ContainsAt(s: string, t: string, i: int)
    requires OccursAt(s, t, i)
    ensures Contains(s, t)
  {
    ContainsIff(s, t);
  }

  /**
   * The greedy run [0-9]* at the start of s, and what follows it. The run is
   * maximal: the rest is empty or starts with a non-digit.
   */
  function SplitDigits(s: string): (r: (string, string))
    ensures r.0 + r.1 == s
    ensures AllDigits(r.0)
    ensures r.1 == [] || !IsDigit(r.1[0])
    decreases |s|
  {
    if s != [] && IsDigit(s[0]) then
      var (digits, rest) := SplitDigits(s[1..]);
      assert [s[0]] + digits + rest == s;
      ([s[0]] + digits, rest)
    else
      ([], s)
  }

  /** A digit run followed by a non-digit (or nothing) is split back exactly. */
  lemma {:induction false} SplitDigitsOf(digits: string, rest: string)
    requires AllDigits(digits)
    requires rest == [] || !IsDigit(rest[0])
    ensures SplitDigits(digits + rest) == (digits, rest)
    decreases |digits|
  {
    if digits == [] {
      assert digits + rest == rest;
    } else {
      assert (digits + rest)[1..] == digits[1..] + rest;
      assert AllDigits(digits[1..]);
      SplitDigitsOf(digits[1..], rest);
      assert [digits[0]] + digits[1..] == digits;
    }
  }
}
