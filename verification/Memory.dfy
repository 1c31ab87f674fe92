/** Writing a run of values into a larger one, as `memcpy` does. */
module Memory {
  /** `m` with `q` written from index `p` on. */
  function Put<T>(m: seq<T>, p: nat, q: seq<T>): (r: seq<T>)
    requires p + |q| <= |m|
    ensures |r| == |m|
    ensures forall i :: 0 <= i < |m| ==> r[i] == if p <= i < p + |q| then q[i - p] else m[i]
  {
    m[..p] + q + m[p + |q|..]
  }

  lemma PutPut<T>(m: seq<T>, p: nat, q: seq<T>, r: seq<T>)
    requires p + |q| + |r| <= |m|
    ensures Put(Put(m, p, q), p + |q|, r) == Put(m, p, q + r)
  {
  }

  lemma PutOne<T>(m: seq<T>, p: nat, x: T)
    requires p < |m|
    ensures m[p := x] == Put(m, p, [x])
  {
  }

  lemma PutNone<T>(m: seq<T>, p: nat)
    requires p <= |m|
    ensures Put(m, p, []) == m
  {
  }
}
