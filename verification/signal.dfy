/**
  Mono sample buffers and the element-wise numpy operations the reverberator
  uses on them (np.zeros, scalar multiplication, np.add, np.hstack with a
  zero pad). Samples are exact reals rather than IEEE-754 doubles.
 */
module Signal {

  /** The sample at index i, or 0 before the start and after the end of the
      buffer: the zero initial state of a filter. */
  function At(s: seq<real>, i: int): real
  {
    if 0 <= i < |s| then s[i] else 0.0
  }

  /** np.zeros(n) */
  function Zeros(n: nat): (z: seq<real>)
    ensures |z| == n
    ensures forall i :: 0 <= i < n ==> z[i] == 0.0
  {
    seq(n, _ => 0.0)
  }

  /** Multiplication of a buffer by a scalar. */
  function Scale(c: real, s: seq<real>): (r: seq<real>)
    ensures |r| == |s|
    ensures forall i :: 0 <= i < |s| ==> r[i] == c * s[i]
  {
    seq(|s|, i requires 0 <= i < |s| => c * s[i])
  }

  /** np.add on two buffers of the same length. */
  function Add(s: seq<real>, t: seq<real>): (r: seq<real>)
    requires |s| == |t|
    ensures |r| == |s|
    ensures forall i :: 0 <= i < |s| ==> r[i] == s[i] + t[i]
  {
    seq(|s|, i requires 0 <= i < |s| => s[i] + t[i])
  }

  /** np.hstack((s, np.zeros(n))): the buffer extended on the right by n zeros. */
  function PadRight(s: seq<real>, n: nat): (r: seq<real>)
    ensures |r| == |s| + n
    ensures r[..|s|] == s
    ensures forall i :: |s| <= i < |r| ==> r[i] == 0.0
  {
    s + Zeros(n)
  }

  /** Every sample is zero. */
  predicate Silent(s: seq<real>)
  {
    forall i :: 0 <= i < |s| ==> s[i] == 0.0
  }

  /** Taking a prefix commutes with scaling. */
  lemma ScalePrefix(c: real, s: seq<real>, m: nat)
    requires m <= |s|
    ensures Scale(c, s)[..m] == Scale(c, s[..m])
  {
    assert forall i :: 0 <= i < m ==> Scale(c, s)[..m][i] == c * s[i] == Scale(c, s[..m])[i];
  }

  /** Taking a prefix commutes with sample-wise addition. */
  lemma AddPrefix(s: seq<real>, t: seq<real>, m: nat)
    requires |s| == |t| && m <= |s|
    ensures Add(s, t)[..m] == Add(s[..m], t[..m])
  {
  }

  /** Two gains applied in either order give the same buffer. */
  lemma ScaleCommutes(c: real, d: real, s: seq<real>)
    ensures Scale(c, Scale(d, s)) == Scale(d, Scale(c, s))
  {
    forall i | 0 <= i < |s| ensures Scale(c, Scale(d, s))[i] == Scale(d, Scale(c, s))[i] {
      assert c * (d * s[i]) == d * (c * s[i]);
    }
  }

  /** A gain distributes over sample-wise addition. */
  lemma ScaleAdd(c: real, s: seq<real>, t: seq<real>)
    requires |s| == |t|
    ensures Scale(c, Add(s, t)) == Add(Scale(c, s), Scale(c, t))
  {
    forall i | 0 <= i < |s| ensures Scale(c, Add(s, t))[i] == Add(Scale(c, s), Scale(c, t))[i] {
      assert c * (s[i] + t[i]) == c * s[i] + c * t[i];
    }
  }
}
