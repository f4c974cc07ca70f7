/** Character and string helpers: ordinal case-insensitive search (upper-casing ASCII letters)
    and the invariant-culture decimal text of an integer. */
module Text {

  /** Upper-case mapping of one character; only the ASCII letters are mapped. */
  function UpperInvariant(c: char): (u: char)
    ensures 'A' <= u <= 'Z' <==> ('A' <= c <= 'Z' || 'a' <= c <= 'z')
    ensures !('a' <= c <= 'z') ==> u == c
  {
    if 'a' <= c <= 'z' then (c as int - 32) as char else c
  }

  /** `t` matches the first |t| characters of `s`, ignoring case. */
  predicate StartsWithIgnoreCase(s: string, t: string)
  {
    |t| <= |s| && forall i :: 0 <= i < |t| ==> UpperInvariant(s[i]) == UpperInvariant(t[i])
  }

  /** `s` contains `t` somewhere, ignoring case (ordinal comparison). */
  predicate ContainsIgnoreCase(s: string, t: string)
    ensures ContainsIgnoreCase(s, t) <==> exists i :: 0 <= i <= |s| && StartsWithIgnoreCase(s[i..], t)
  {
    if StartsWithIgnoreCase(s, t) then
      assert s[0..] == s;
      true
    else if |s| == 0 then
      false
    else
      var found := ContainsIgnoreCase(s[1..], t);
      assert forall i :: 1 <= i <= |s| ==> s[i..] == s[1..][i - 1..];
      if found then
        var i :| 0 <= i <= |s[1..]| && StartsWithIgnoreCase(s[1..][i..], t);
        assert StartsWithIgnoreCase(s[i + 1..], t);
        true
      else
        false
  }

  /** An occurrence placed at a known position is found. */
  lemma ContainsAt(prefix: string, t: string, suffix: string)
    ensures ContainsIgnoreCase(prefix + t + suffix, t)
  {
    var s := prefix + t + suffix;
    assert s[|prefix|..] == t + suffix;
    assert StartsWithIgnoreCase(s[|prefix|..], t);
  }

  /** No character of `s` upper-cases to `u`. */
  predicate Avoids(s: string, u: char)
  {
    forall c :: c in s ==> UpperInvariant(c) != u
  }

  lemma AvoidsAppend(a: string, b: string, u: char)
    requires Avoids(a, u) && Avoids(b, u)
    ensures Avoids(a + b, u)
  {
  }

  /** The text of an integer holds only digits and '-', so it avoids every upper-case letter. */
  lemma IntTextAvoids(n: int, u: char)
    requires 'A' <= u <= 'Z'
    ensures Avoids(IntText(n), u)
  {
  }

  /** If `t` holds a character that upper-cases to `u` and `s` has none, `s` cannot contain `t`. */
  lemma AvoidsExcludes(s: string, t: string, u: char, j: nat)
    requires Avoids(s, u)
    requires j < |t| && UpperInvariant(t[j]) == u
    ensures !ContainsIgnoreCase(s, t)
  {
    forall i | 0 <= i <= |s|
      ensures !StartsWithIgnoreCase(s[i..], t)
    {
      if j < |s[i..]| {
        assert s[i..][j] in s;
      }
    }
  }

  /** The decimal digit for 0..9. */
  function Digit(d: int): (c: char)
    requires 0 <= d < 10
    ensures c in "0123456789"
  {
    "0123456789"[d]
  }

  /** Decimal text of a natural number, most significant digit first, without leading zeros. */
  function NatText(n: nat): (s: string)
    ensures |s| >= 1
    ensures forall c :: c in s ==> c in "0123456789"
  {
    if n < 10 then [Digit(n)] else NatText(n / 10) + [Digit(n % 10)]
  }

  /** Invariant-culture decimal text of an integer: a leading '-' for negative values. */
  function IntText(n: int): (s: string)
    ensures forall c :: c in s ==> c in "-0123456789"
  {
    if n < 0 then "-" + NatText(-n) else NatText(n)
  }
}
