/** The window of remembered shares: `ConnectionState::remember_share` and `build_dup_key` (src/sv2/connection.rs),
    and the same window in `handle_submit` with its own `build_dup_key` (src/stratum.rs). */
module DupWindow {
  import opened ByteStrings

  const CAPACITY: nat := 4096

  /** The hash set and the deque. */
  datatype Window = Window(keys: set<DupKey>, order: seq<DupKey>)

  function EmptyWindow(): Window { Window({}, []) }

  function Evicted(w: Window): Window {
    if |w.keys| >= CAPACITY && w.order != [] then Window(w.keys - {w.order[0]}, w.order[1..]) else w
  }

  /** The window after a key is offered. */
  function Remember(w: Window, key: DupKey): Window {
    if key in w.keys then w
    else
      var room := Evicted(w);
      Window(room.keys + {key}, room.order + [key])
  }

  predicate Distinct(s: seq<DupKey>) {
    forall i, j :: 0 <= i < j < |s| ==> s[i] != s[j]
  }

  /** Set and deque hold the same distinct keys, at most the capacity of them. */
  ghost predicate Synced(w: Window) {
    && Distinct(w.order)
    && (forall k :: k in w.keys <==> k in w.order)
    && |w.keys| == |w.order| <= CAPACITY
  }

  lemma EvictionKeepsSynced(w: Window)
    requires Synced(w)
    ensures Synced(Evicted(w)) && Evicted(w).keys <= w.keys && |Evicted(w).keys| < CAPACITY
  {
    if |w.keys| >= CAPACITY {
      var room := Evicted(w);
      assert w.order[0] in w.keys;
      forall k
        ensures k in room.keys <==> k in room.order
      {
        if k in w.order && k != w.order[0] {
          var i :| 0 <= i < |w.order| && w.order[i] == k;
          assert room.order[i - 1] == k;
        }
      }
    }
  }

  lemma RememberKeepsSynced(w: Window, key: DupKey)
    requires Synced(w)
    ensures Synced(Remember(w, key))
  {
    if key !in w.keys {
      EvictionKeepsSynced(w);
      assert key !in Evicted(w).order;
    }
  }

  /** The keys remembered while a list of keys was offered one by one, oldest first. */
  function Remembered(offered: seq<DupKey>): (r: seq<DupKey>) {
    if offered == [] then []
    else
      var before, last := Remembered(offered[..|offered| - 1]), offered[|offered| - 1];
      if last in Recent(before) then before else before + [last]
  }

  /** The last 4096 of them. */
  function Recent(remembered: seq<DupKey>): seq<DupKey> {
    if |remembered| <= CAPACITY then remembered else remembered[|remembered| - CAPACITY..]
  }

  function Offer(offered: seq<DupKey>): Window {
    if offered == [] then EmptyWindow() else Remember(Offer(offered[..|offered| - 1]), offered[|offered| - 1])
  }

  lemma RecentAppend(before: seq<DupKey>, last: DupKey)
    ensures Recent(before + [last]) == (if |before| >= CAPACITY then Recent(before)[1..] else Recent(before)) + [last]
  {
    if |before| > CAPACITY {
      assert Recent(before)[1..] == before[|before| - CAPACITY + 1..];
    } else if |before| == CAPACITY {
      assert (before + [last])[1..] == before[1..] + [last];
    }
  }

  /** Over every run: the window is in step with itself and holds exactly the last 4096 keys remembered; so the next
      key is refused exactly when it is one of those. */
  lemma {:induction false} WindowIsRecent(offered: seq<DupKey>)
    ensures Synced(Offer(offered)) && Offer(offered).order == Recent(Remembered(offered))
    ensures forall key :: key in Offer(offered).keys <==> key in Recent(Remembered(offered))
  {
    if offered != [] {
      var init, last := offered[..|offered| - 1], offered[|offered| - 1];
      WindowIsRecent(init);
      RememberKeepsSynced(Offer(init), last);
      RecentAppend(Remembered(init), last);
      RememberedOrder(Offer(init), Remembered(init), last);
    }
  }

  lemma RememberedOrder(w: Window, before: seq<DupKey>, last: DupKey)
    requires Synced(w) && w.order == Recent(before)
    ensures Remember(w, last).order == Recent(if last in Recent(before) then before else before + [last])
  {
    RecentAppend(before, last);
  }

  lemma RecentHolds(remembered: seq<DupKey>, p: nat)
    requires p < |remembered| && |remembered| - p <= CAPACITY
    ensures remembered[p] in Recent(remembered)
  {
    var recent := Recent(remembered);
    assert recent[|recent| - (|remembered| - p)] == remembered[p];
  }

  /** Between two acceptances of one key at least 4096 others are remembered. */
  lemma {:induction false} AcceptancesAreApart(offered: seq<DupKey>, p: nat, q: nat)
    requires p < q < |Remembered(offered)| && Remembered(offered)[p] == Remembered(offered)[q]
    ensures q - p - 1 >= CAPACITY
  {
    var init := offered[..|offered| - 1];
    var before := Remembered(init);
    if q < |before| {
      AcceptancesAreApart(init, p, q);
    } else if |before| - p <= CAPACITY {
      RecentHolds(before, p);
    }
  }

  // Keys

  /** The fields of a submission that reach the header, with the channel and job they are for. SV1 has no channel. */
  datatype Inputs = Inputs(channel: U32, job: U32, nonce: U32, ntime: U32, extranonce: Bytes, version: U32)

  datatype DupKey = DupKey(channel: U32, job: U32, nonce: U32, ntime: U32, padded: Bytes, length: nat, version: U32)

  function Padded(extranonce: Bytes, width: nat): (p: Bytes)
    ensures |p| == width
  {
    if |extranonce| >= width then extranonce[..width] else extranonce + Zeros(width - |extranonce|)
  }

  const SV1_KEY_WIDTH: nat := 16
  const SV2_KEY_WIDTH: nat := 32

  /** The extranonce is copied into a fixed array of `width` bytes, next to its length. */
  function BuildDupKey(i: Inputs, width: nat): DupKey {
    DupKey(i.channel, i.job, i.nonce, i.ntime, Padded(i.extranonce, width),
           if |i.extranonce| < width then |i.extranonce| else width, i.version)
  }

  lemma KeysIdentifyInputs(a: Inputs, b: Inputs, width: nat)
    requires |a.extranonce| <= width && |b.extranonce| <= width
    ensures BuildDupKey(a, width) == BuildDupKey(b, width) <==> a == b
  {
    if BuildDupKey(a, width) == BuildDupKey(b, width) {
      assert Padded(a.extranonce, width)[..|a.extranonce|] == a.extranonce;
      assert Padded(b.extranonce, width)[..|b.extranonce|] == b.extranonce;
    }
  }

  // What reaches the keys

  /** The extranonce2 sizes a configuration is accepted with. */
  predicate SizeAccepted(size: nat) { 1 <= size <= 16 }

  type Digit = d: Byte | d < 16

  /** What SV1 makes of the digits of an extranonce2: made even, filled up to the configured size, refused unless that
      is its length. */
  function FittedDigits(digits: seq<Digit>, size: nat): Option<seq<Digit>> {
    var even := if |digits| % 2 != 0 then Zeros(1) + digits else digits;
    var filled := if |even| < 2 * size then Zeros(2 * size - |even|) + even else even;
    if |digits| > 256 || |filled| != 2 * size then None else Some(filled)
  }

  /** The number the digits spell, most significant first. */
  function DigitsValue(digits: seq<Digit>): nat {
    if digits == [] then 0 else 16 * DigitsValue(digits[..|digits| - 1]) + digits[|digits| - 1]
  }

  function DecodedDigits(digits: seq<Digit>): (s: Bytes)
    requires |digits| % 2 == 0
    ensures |s| == |digits| / 2
  {
    seq(|digits| / 2, i requires 0 <= i < |digits| / 2 => DigitPair(digits[2 * i], digits[2 * i + 1]))
  }

  function DigitPair(high: int, low: int): Byte
    requires 0 <= high < 16 && 0 <= low < 16
  {
    16 * high + low
  }

  lemma {:induction false} LeadingZeros(n: nat, digits: seq<Digit>)
    ensures DigitsValue(Zeros(n) + digits) == DigitsValue(digits)
  {
    var filled := Zeros(n) + digits;
    if digits == [] {
      if n > 0 {
        assert filled[..|filled| - 1] == Zeros(n - 1) + digits;
        LeadingZeros(n - 1, digits);
      }
    } else {
      assert filled[..|filled| - 1] == Zeros(n) + digits[..|digits| - 1];
      LeadingZeros(n, digits[..|digits| - 1]);
    }
  }

  /** SV1 lets an extranonce2 through exactly when it has no more digits than the configured size holds, and keeps its
      number. */
  lemma FittedExactly(digits: seq<Digit>, size: nat)
    requires SizeAccepted(size)
    ensures FittedDigits(digits, size).Some? <==> |digits| <= 2 * size
    ensures FittedDigits(digits, size).Some? ==>
      |FittedDigits(digits, size).value| == 2 * size
        && DigitsValue(FittedDigits(digits, size).value) == DigitsValue(digits)
  {
    var even := if |digits| % 2 != 0 then Zeros(1) + digits else digits;
    LeadingZeros(1, digits);
    if |even| < 2 * size {
      LeadingZeros(2 * size - |even|, even);
    }
  }

  /** Under every accepted configuration, two SV1 submissions let through get the same key exactly when they put the
      same job id, nonce, time, extranonce and version into the header. */
  lemma Sv1KeysIdentify(size: nat, a: Inputs, digitsA: seq<Digit>, b: Inputs, digitsB: seq<Digit>)
    requires SizeAccepted(size)
    requires FittedDigits(digitsA, size).Some? && a.extranonce == DecodedDigits(FittedDigits(digitsA, size).value)
    requires FittedDigits(digitsB, size).Some? && b.extranonce == DecodedDigits(FittedDigits(digitsB, size).value)
    ensures BuildDupKey(a, SV1_KEY_WIDTH) == BuildDupKey(b, SV1_KEY_WIDTH) <==> a == b
  {
    KeysIdentifyInputs(a, b, SV1_KEY_WIDTH);
  }

  /** ... and so do two SV2 submissions, whose extranonce has exactly the configured size. */
  lemma Sv2KeysIdentify(size: nat, a: Inputs, b: Inputs)
    requires SizeAccepted(size) && |a.extranonce| == size && |b.extranonce| == size
    ensures BuildDupKey(a, SV2_KEY_WIDTH) == BuildDupKey(b, SV2_KEY_WIDTH) <==> a == b
  {
    KeysIdentifyInputs(a, b, SV2_KEY_WIDTH);
  }
}
