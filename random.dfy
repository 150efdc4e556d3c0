/** The standard library's in-place shuffle.  Which permutation it produces is
    left open: every swap partner is chosen nondeterministically, so whatever
    is proved about a caller holds for every order the shuffle can give. */
module Random {

  /** Fisher-Yates from the back, as the library does it: position i swaps
      with some position j in [0, i]. */
  method Shuffle<T>(a: array<T>)
    modifies a
    ensures multiset(a[..]) == multiset(old(a[..]))
  {
    var i := a.Length - 1;
    while i > 0
      invariant -1 <= i < a.Length
      invariant multiset(a[..]) == multiset(old(a[..]))
    {
      var j :| 0 <= j <= i;
      a[i], a[j] := a[j], a[i];
      i := i - 1;
    }
  }
}
