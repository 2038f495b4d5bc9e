/** Powers of two. */
module PowersOfTwo {

  function Power(k: nat): (p: nat)
    ensures 0 < p
  {
    if k == 0 then 1 else 2 * Power(k - 1)
  }

  lemma {:induction false} PowerOfBoth(j: nat, k: nat)
    ensures Power(j + k) == Power(j) * Power(k)
  {
    if j > 0 { PowerOfBoth(j - 1, k); }
  }

  lemma {:induction false} PowerGrows(j: nat, k: nat)
    requires j <= k
    ensures Power(j) <= Power(k)
    decreases k - j
  {
    if j < k { PowerGrows(j + 1, k); }
  }
}
