/** 32-bit ids handed out in turn, shared by `allocate_channel_id` and `allocate_job_id` (src/sv2/connection.rs) and
    `push_job` (src/stratum.rs): the counter wraps and 0 is never used. */
module JobIdCircle {
  import opened ByteStrings

  /** `next.max(1)`. */
  function AllocatedId(next: U32): U32 { if next == 0 then 1 else next }

  /** The counter afterwards: `wrapping_add(1).max(1)`. */
  function FollowingId(next: U32): U32 {
    if next == U32_MAX || next == 0 then 1 else next + 1
  }

  /** The n-th id handed out, from a counter that starts at 1: round the circle 1, 2, ..., 2^32 - 1. */
  function IdOnCircle(n: nat): U32 { n % U32_MAX + 1 }

  lemma NextOnCircle(n: nat)
    ensures AllocatedId(IdOnCircle(n)) == IdOnCircle(n)
    ensures FollowingId(IdOnCircle(n)) == IdOnCircle(n + 1)
  {
    var r := n % U32_MAX;
    assert n + 1 == (n / U32_MAX) * U32_MAX + (r + 1);
    if r + 1 == U32_MAX {
      assert n + 1 == (n / U32_MAX + 1) * U32_MAX;
    }
  }

  /** Two turns give the same id exactly when a whole number of circles lies between them. */
  lemma SameIdOnCircle(m: nat, n: nat)
    requires m <= n
    ensures IdOnCircle(m) == IdOnCircle(n) <==> (n - m) % U32_MAX == 0
  {
    var q, r := (n - m) / U32_MAX, (n - m) % U32_MAX;
    var a, b := m / U32_MAX, m % U32_MAX;
    assert n == (a + q) * U32_MAX + (b + r);
    if b + r < U32_MAX {
      assert n % U32_MAX == b + r;
    } else {
      assert n == (a + q + 1) * U32_MAX + (b + r - U32_MAX);
      assert n % U32_MAX == b + r - U32_MAX;
    }
  }
}
