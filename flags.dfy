/** Counting the flags that are set in a row of on/off indicators: the
    filled stars of a rating, the active dot of the carousel, the
    highlighted category button of the gallery. */
module Flags {

  /** The number of `true` entries of `s`. */
  function CountTrue(s: seq<bool>): (c: nat)
    ensures c <= |s|
    ensures c == 0 <==> forall i :: 0 <= i < |s| ==> !s[i]
  {
    if s == [] then 0
    else (if s[0] then 1 else 0) + CountTrue(s[1..])
  }

  /** `x` clipped to the interval [lo, hi]. */
  function Clamp(x: int, lo: int, hi: int): (r: int)
    requires lo <= hi
    ensures lo <= r <= hi
    ensures lo <= x <= hi ==> r == x
    ensures x < lo ==> r == lo
    ensures hi < x ==> r == hi
  {
    if x < lo then lo else if hi < x then hi else x
  }

  /** A row in which exactly the flag at position k is set counts one. */
  lemma {:induction false} CountTrueSingle(s: seq<bool>, k: nat)
    requires k < |s|
    requires forall i :: 0 <= i < |s| ==> s[i] == (i == k)
    ensures CountTrue(s) == 1
  {
    if k == 0 {
      assert forall i :: 0 <= i < |s[1..]| ==> !s[1..][i] by {
        forall i | 0 <= i < |s[1..]| ensures !s[1..][i] {
          assert s[1..][i] == s[i + 1];
        }
      }
    } else {
      forall i | 0 <= i < |s[1..]| ensures s[1..][i] == (i == k - 1) {
        assert s[1..][i] == s[i + 1];
      }
      CountTrueSingle(s[1..], k - 1);
    }
  }

  /** A row whose flags are set exactly below position k counts k, clipped
      to the length of the row. */
  lemma {:induction false} CountTruePrefix(s: seq<bool>, k: int)
    requires forall i :: 0 <= i < |s| ==> s[i] == (i < k)
    ensures CountTrue(s) == Clamp(k, 0, |s|)
  {
    if s != [] {
      forall i | 0 <= i < |s[1..]| ensures s[1..][i] == (i < k - 1) {
        assert s[1..][i] == s[i + 1];
      }
      CountTruePrefix(s[1..], k - 1);
    }
  }
}
