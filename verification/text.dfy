/**
 * String helpers with the meaning JavaScript gives them in the modelled code:
 * `toLowerCase` (restricted to ASCII letters), `includes`, `Array.join`,
 * `slice` and the regular-expression class `\D` (anything but 0-9), plus a
 * `StartsWith` predicate used to state contracts.
 */
module Text {

  /** ASCII case folding of one character; every other character is kept. */
  function LowerChar(c: char): (d: char)
    ensures 'A' <= c <= 'Z' ==> d as int == c as int + 32
    ensures !('A' <= c <= 'Z') ==> d == c
    ensures !('A' <= d <= 'Z')
  {
    if 'A' <= c <= 'Z' then (c as int + 32) as char else c
  }

  /** `s.toLowerCase()` for ASCII text. */
  function Lower(s: string): (r: string)
    ensures |r| == |s|
    ensures forall i :: 0 <= i < |s| ==> r[i] == LowerChar(s[i])
  {
    seq(|s|, i requires 0 <= i < |s| => LowerChar(s[i]))
  }

  /** A string with no upper-case ASCII letter. */
  predicate IsLower(s: string)
  {
    forall i :: 0 <= i < |s| ==> !('A' <= s[i] <= 'Z')
  }

  /** The result of lower-casing is lower case, and lower-casing is idempotent. */
  lemma LowerIsLower(s: string)
    ensures IsLower(Lower(s))
    ensures Lower(Lower(s)) == Lower(s)
  {
  }

  /** Lower-casing a lower-case string changes nothing. */
  lemma LowerOfLower(s: string)
    requires IsLower(s)
    ensures Lower(s) == s
  {
  }

  /** `s.includes(k)`: `k` occurs in `s` as a contiguous block. */
  predicate Contains(s: string, k: string)
    ensures Contains(s, k) ==> |k| <= |s|
    ensures StartsWith(s, k) ==> Contains(s, k)
  {
    if |s| < |k| then false
    else s[..|k|] == k || Contains(s[1..], k)
  }

  /** The positional reading of `Contains`: some window of `s` equals `k`. */
  ghost predicate OccursAt(s: string, k: string, i: int)
  {
    0 <= i && i + |k| <= |s| && s[i..i + |k|] == k
  }

  /** `Contains` holds exactly when `k` occurs at some position of `s`. */
  lemma {:induction false} ContainsIffOccurs(s: string, k: string)
    ensures Contains(s, k) <==> exists i :: OccursAt(s, k, i)
  {
    if |s| >= |k| && s[..|k|] == k {
      assert OccursAt(s, k, 0);
    } else if |s| >= |k| {
      ContainsIffOccurs(s[1..], k);
      if Contains(s[1..], k) {
        var i :| OccursAt(s[1..], k, i);
        assert s[1..][i..i + |k|] == s[i + 1..i + 1 + |k|];
        assert OccursAt(s, k, i + 1);
      }
      forall i | OccursAt(s, k, i)
        ensures OccursAt(s[1..], k, i - 1)
      {
        assert s[1..][i - 1..i - 1 + |k|] == s[i..i + |k|];
      }
    }
  }

  /** A witness position proves containment. */
  lemma ContainsAt(s: string, k: string, i: int)
    requires OccursAt(s, k, i)
    ensures Contains(s, k)
  {
    ContainsIffOccurs(s, k);
  }

  /** A character of `k` that never appears in `s` rules out containment. */
  lemma MissingCharNotContained(s: string, k: string, c: char)
    requires c in k && c !in s
    ensures !Contains(s, k)
  {
    ContainsIffOccurs(s, k);
    var j :| 0 <= j < |k| && k[j] == c;
    forall i | 0 <= i && i + |k| <= |s|
      ensures !OccursAt(s, k, i)
    {
      assert s[i..i + |k|][j] == s[i + j];
    }
  }

  /** `prefix` is an initial segment of `s`. */
  predicate StartsWith(s: string, prefix: string)
  {
    |prefix| <= |s| && s[..|prefix|] == prefix
  }

  /** `xs.join(sep)`: the items separated by `sep`, and "" for no items. */
  function Join(xs: seq<string>, sep: string): (r: string)
    ensures |xs| > 0 ==> StartsWith(r, xs[0])
  {
    if |xs| == 0 then ""
    else if |xs| == 1 then xs[0]
    else xs[0] + sep + Join(xs[1..], sep)
  }

  /** Every item of a join occurs in the joined text. */
  lemma {:induction false} JoinContainsItem(xs: seq<string>, sep: string, j: int)
    requires 0 <= j < |xs|
    ensures Contains(Join(xs, sep), xs[j])
  {
    var joined := Join(xs, sep);
    if |xs| == 1 {
      ContainsAt(joined, xs[j], 0);
    } else if j == 0 {
      assert joined == xs[0] + (sep + Join(xs[1..], sep));
      assert joined[0..|xs[0]|] == xs[0];
      ContainsAt(joined, xs[0], 0);
    } else {
      JoinContainsItem(xs[1..], sep, j - 1);
      var rest := Join(xs[1..], sep);
      ContainsIffOccurs(rest, xs[j]);
      var i :| OccursAt(rest, xs[j], i);
      var off := |xs[0]| + |sep|;
      assert joined == (xs[0] + sep) + rest;
      assert joined[off + i..off + i + |xs[j]|] == rest[i..i + |xs[j]|];
      ContainsAt(joined, xs[j], off + i);
    }
  }

  /** A decimal digit, the complement of the regular-expression class `\D`. */
  predicate IsDigit(c: char)
  {
    '0' <= c <= '9'
  }

  /** A string made only of decimal digits. */
  predicate AllDigits(s: string)
  {
    forall i :: 0 <= i < |s| ==> IsDigit(s[i])
  }

  /** `s.replace(/\D/g, '')`: the digits of `s`, in their original order. */
  function Digits(s: string): (r: string)
    ensures AllDigits(r)
    ensures |r| <= |s|
  {
    if s == [] then []
    else (if IsDigit(s[0]) then [s[0]] else []) + Digits(s[1..])
  }

  /** Stripping distributes over concatenation: order is kept and nothing moves across the seam. */
  lemma {:induction false} DigitsAppend(a: string, b: string)
    ensures Digits(a + b) == Digits(a) + Digits(b)
  {
    if a != [] {
      var head := if IsDigit(a[0]) then [a[0]] else [];
      assert (a + b)[0] == a[0];
      assert (a + b)[1..] == a[1..] + b;
      DigitsAppend(a[1..], b);
      calc {
        Digits(a + b);
        head + Digits(a[1..] + b);
        head + (Digits(a[1..]) + Digits(b));
        (head + Digits(a[1..])) + Digits(b);
        Digits(a) + Digits(b);
      }
    } else {
      assert a + b == b;
    }
  }

  /** Stripping a string of digits changes nothing. */
  lemma {:induction false} DigitsOfDigits(s: string)
    requires AllDigits(s)
    ensures Digits(s) == s
  {
    if s != [] {
      DigitsOfDigits(s[1..]);
    }
  }

  /** Stripping removes every character that is not a digit. */
  lemma {:induction false} DigitsOfNonDigits(s: string)
    requires forall i :: 0 <= i < |s| ==> !IsDigit(s[i])
    ensures Digits(s) == []
  {
    if s != [] {
      DigitsOfNonDigits(s[1..]);
    }
  }

  /** `s.slice(0, n)`: the first `n` characters, or all of `s` when it is shorter. */
  function Take(s: string, n: nat): (r: string)
    ensures |r| == if |s| <= n then |s| else n
    ensures r == s[..|r|]
  {
    if |s| <= n then s else s[..n]
  }
}
