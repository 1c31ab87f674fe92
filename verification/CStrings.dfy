/** The C library's strings: characters up to a NUL, at an index of a larger buffer. */
module CStrings {
  const NUL := '\0'

  /** `strstr` from index `p`, -1 for NULL. */
  function Find(b: string, p: nat, needle: string): (r: int)
    requires needle != []
    ensures r == -1 || (p <= r && r + |needle| <= |b| && b[r..r + |needle|] == needle)
    decreases |b| - p
  {
    if |b| <= p || b[p] == NUL then -1
    else if p + |needle| <= |b| && b[p..p + |needle|] == needle then p
    else Find(b, p + 1, needle)
  }

  /** The string at index `p`. */
  function Str(b: string, p: nat): (r: string)
    ensures p + |r| <= |b| || (r == [] && |b| <= p)
    ensures NUL !in r
    decreases |b| - p
  {
    if |b| <= p || b[p] == NUL then [] else [b[p]] + Str(b, p + 1)
  }

  /** From `p` to `n` the buffer holds what the text `s` holds, and a NUL after it. */
  predicate Holds(b: string, s: string, p: nat, n: nat) {
    && p <= n < |b| && n <= |s| && b[n] == NUL
    && forall k :: p <= k < n ==> b[k] == s[k]
  }

  /** Searching the buffer finds what searching the text finds, if it lies in the part held. */
  lemma {:induction false} FindHeld(b: string, s: string, p: nat, n: nat, needle: string)
    requires Holds(b, s, p, n) && needle != [] && NUL !in needle
    ensures var i := Find(s, p, needle);
            Find(b, p, needle) == if 0 <= i && i + |needle| <= n then i else -1
    decreases n - p
  {
    var l := |needle|;
    if p < n && b[p] != NUL {
      if p + l <= n {
        assert b[p..p + l] == s[p..p + l];
      } else if p + l <= |b| {
        assert b[p..p + l][n - p] == NUL;
      }
      FindHeld(b, s, p + 1, n, needle);
    }
  }

  lemma {:induction false} StrHeld(b: string, s: string, p: nat, n: nat)
    requires Holds(b, s, p, n)
    ensures Str(b, p) == Str(s[..n], p)
    decreases n - p
  {
    if p < n { StrHeld(b, s, p + 1, n); }
  }

  /** A string without NULs that ends before one. */
  lemma {:induction false} StrOf(b: string, p: nat, n: nat)
    requires p <= n <= |b| && NUL !in b[p..n] && (n < |b| ==> b[n] == NUL)
    ensures Str(b, p) == b[p..n]
    decreases n - p
  {
    if p < n {
      assert b[p] == b[p..n][0];
      assert b[p..n] == [b[p]] + b[p + 1..n];
      StrOf(b, p + 1, n);
    }
  }

  /** The first match: nothing before it matches, and no NUL precedes its end. */
  lemma {:induction false} FindFirst(s: string, p: nat, needle: string, q: nat)
    requires needle != [] && NUL !in needle
    requires p <= q && q + |needle| <= |s| && s[q..q + |needle|] == needle && NUL !in s[p..q]
    ensures p <= Find(s, p, needle) <= q
    decreases q - p
  {
    if p < q {
      assert s[p] == s[p..q][0];
      assert s[p..q][1..] == s[p + 1..q];
      FindFirst(s, p + 1, needle, q);
    } else {
      assert s[p] == s[q..q + |needle|][0] == needle[0];
    }
  }

  /** A match is the first one if at each place before it one of two characters is wrong. */
  lemma {:induction false} FindIs(s: string, p: nat, needle: string, q: nat, j: nat)
    requires p <= q && q + |needle| <= |s| && s[q..q + |needle|] == needle && NUL !in needle && j < |needle|
    requires forall k :: p <= k < q ==> s[k] != NUL && (s[k] != needle[0] || s[k + j] != needle[j])
    ensures Find(s, p, needle) == q
    decreases q - p
  {
    if p < q {
      assert p + |needle| <= |s| ==> s[p..p + |needle|][0] == s[p] && s[p..p + |needle|][j] == s[p + j];
      FindIs(s, p + 1, needle, q, j);
    } else {
      assert s[p] == s[q..q + |needle|][0] == needle[0];
    }
  }

  lemma {:induction false} FindClean(s: string, p: nat, needle: string)
    requires needle != [] && NUL !in needle && Find(s, p, needle) >= 0
    ensures NUL !in s[p..Find(s, p, needle)]
    decreases |s| - p
  {
    var i := Find(s, p, needle);
    if i != p {
      FindClean(s, p + 1, needle);
      assert s[p..i] == [s[p]] + s[p + 1..i];
    }
  }

  /** A match is the needle, character by character. */
  lemma FindAt(s: string, p: nat, needle: string, k: nat)
    requires needle != [] && Find(s, p, needle) >= 0 && k < |needle|
    ensures s[Find(s, p, needle) + k] == needle[k]
  {
    var i := Find(s, p, needle);
    assert s[i..i + |needle|][k] == s[i + k];
  }
}
