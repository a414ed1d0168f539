/**
 * Positions on a cyclic list: reduction by whole turns, which is the
 * remainder of Euclidean division.
 */
module Cyclic {

  /** `k` reduced into [0, len) by whole turns round a list of `len` places. */
  function Wrap(k: nat, len: nat): (r: nat)
    requires len > 0
    ensures r < len
    ensures k < len ==> r == k
    decreases k
  {
    if k < len then k else Wrap(k - len, len)
  }

  /** A positive multiple of `len` is at least `len`. */
  lemma {:induction false} MultipleAtLeast(x: int, len: nat)
    requires len > 0 && x > 0
    ensures x * len >= len
    decreases x
  {
    if x > 1 {
      MultipleAtLeast(x - 1, len);
      assert x * len == (x - 1) * len + len;
    }
  }

  /** Euclidean division is unique: a remainder in [0, len) is `k % len`. */
  lemma {:induction false} ModUnique(k: int, len: nat, q: int, r: int)
    requires len > 0 && 0 <= r < len && k == q * len + r
    ensures k % len == r
  {
    var q', r' := k / len, k % len;
    assert k == q' * len + r';
    assert (q - q') * len == r' - r;
    if q > q' {
      MultipleAtLeast(q - q', len);
    } else if q' > q {
      MultipleAtLeast(q' - q, len);
    }
  }

  /** Wrap is the remainder of Euclidean division. */
  lemma {:induction false} WrapIsMod(k: nat, len: nat)
    requires len > 0
    ensures Wrap(k, len) == k % len
    decreases k
  {
    if k < len {
      ModUnique(k, len, 0, k);
    } else {
      WrapIsMod(k - len, len);
      var q := (k - len) / len;
      assert k - len == q * len + (k - len) % len;
      ModUnique(k, len, q + 1, (k - len) % len);
    }
  }
}
