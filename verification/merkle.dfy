/** Merkle trees: `build_merkle_branches` and `compute_witness_commitment_script_hex` (src/template.rs),
    and the fold over the branches in `validate_share` (src/share.rs). */
module Merkle {
  import opened ByteStrings

  /** `merkle_step`. */
  function Step(h: Hasher, left: Hash, right: Hash): Hash {
    h(left + right)
  }

  /** One level up: neighbours are hashed together and an odd last node is paired with itself. */
  function NextLevel(h: Hasher, level: seq<Hash>): (next: seq<Hash>)
    ensures |next| == (|level| + 1) / 2
  {
    if level == [] then []
    else if |level| == 1 then [Step(h, level[0], level[0])]
    else [Step(h, level[0], level[1])] + NextLevel(h, level[2..])
  }

  /** The duplicate-last Merkle root, computed from the full tree. */
  function Root(h: Hasher, level: seq<Hash>): Hash
    requires level != []
    decreases |level|
  {
    if |level| == 1 then level[0] else Root(h, NextLevel(h, level))
  }

  /** The siblings met on the way up from the left-most leaf, given the leaves to its right. */
  function LeftPath(h: Hasher, others: seq<Hash>): seq<Hash>
    decreases |others|
  {
    if others == [] then [] else [others[0]] + LeftPath(h, NextLevel(h, others[1..]))
  }

  function Fold(h: Hasher, leaf: Hash, path: seq<Hash>): Hash
    decreases |path|
  {
    if path == [] then leaf else Fold(h, Step(h, leaf, path[0]), path[1..])
  }

  /** Folding the precomputed path gives the root of the full tree whatever the left-most leaf is. */
  lemma {:induction false} PathFoldsToRoot(h: Hasher, leaf: Hash, others: seq<Hash>)
    ensures Fold(h, leaf, LeftPath(h, others)) == Root(h, [leaf] + others)
    decreases |others|
  {
    if others != [] {
      var parents := NextLevel(h, others[1..]);
      var level := [leaf] + others;
      assert level[2..] == others[1..];
      assert NextLevel(h, level) == [Step(h, leaf, others[0])] + parents;
      assert LeftPath(h, others)[1..] == LeftPath(h, parents);
      PathFoldsToRoot(h, Step(h, leaf, others[0]), parents);
    }
  }

  /** The leaves of a full tree of that height. */
  function FullWidth(height: nat): nat {
    if height == 0 then 1 else 2 * FullWidth(height - 1)
  }

  /** The path has as many entries as the base-two logarithm of the leaf count, rounded up. */
  lemma {:induction false} PathLength(h: Hasher, others: seq<Hash>)
    ensures var k := |LeftPath(h, others)|;
            |others| + 1 <= FullWidth(k) && (k > 0 ==> FullWidth(k - 1) < |others| + 1)
    decreases |others|
  {
    if others != [] {
      var parents := NextLevel(h, others[1..]);
      PathLength(h, parents);
      assert |LeftPath(h, others)| == 1 + |LeftPath(h, parents)|;
    }
  }

  lemma {:induction false} FoldAppend(h: Hasher, leaf: Hash, path: seq<Hash>, last: Hash)
    ensures Fold(h, leaf, path + [last]) == Step(h, Fold(h, leaf, path), last)
    decreases |path|
  {
    if path == [] {
      assert path + [last] == [last];
    } else {
      assert (path + [last])[1..] == path[1..] + [last];
      FoldAppend(h, Step(h, leaf, path[0]), path[1..], last);
    }
  }

  /** The inner loop of the three tree walks. */
  method HashPairs(h: Hasher, level: seq<Hash>) returns (next: seq<Hash>)
    ensures next == NextLevel(h, level)
  {
    next := [];
    var idx := 0;
    while idx < |level|
      invariant 0 <= idx <= |level| + 1
      invariant NextLevel(h, level) == next + NextLevel(h, if idx <= |level| then level[idx..] else [])
    {
      var left := level[idx];
      var right := if idx + 1 < |level| then level[idx + 1] else left;
      if idx + 1 < |level| {
        assert level[idx..][2..] == level[idx + 2..];
      }
      next := next + [Step(h, left, right)];
      idx := idx + 2;
    }
  }

  /** The loop collects the left path; the coinbase hash it is given leaves no trace in it. */
  method BuildMerkleBranches(h: Hasher, coinbaseHash: Hash, txHashes: seq<Hash>) returns (branches: seq<Hash>)
    ensures branches == LeftPath(h, txHashes)
  {
    var level := [coinbaseHash] + txHashes;
    branches := [];
    assert level[1..] == txHashes;
    while |level| > 1
      invariant level != []
      invariant LeftPath(h, txHashes) == branches + LeftPath(h, level[1..])
      decreases |level|
    {
      branches := branches + [level[1]];
      assert level[1..][1..] == level[2..];
      var next := HashPairs(h, level);
      assert next[1..] == NextLevel(h, level[2..]);
      level := next;
    }
  }

  method FoldBranches(h: Hasher, leaf: Hash, branches: seq<Hash>) returns (root: Hash)
    ensures root == Fold(h, leaf, branches)
  {
    root := leaf;
    for i := 0 to |branches|
      invariant root == Fold(h, leaf, branches[..i])
    {
      FoldAppend(h, leaf, branches[..i], branches[i]);
      assert branches[..i + 1] == branches[..i] + [branches[i]];
      root := Step(h, root, branches[i]);
    }
    assert branches[..|branches|] == branches;
  }

  /** BIP 141 "Commitment structure": OP_RETURN, push of 36 bytes, the header aa21a9ed, and the hash of the
      witness root with the reserved value. The coinbase's own wtxid counts as zero. */
  function CommitmentScript(h: Hasher, wtxids: seq<Hash>, reserved: Hash): Bytes {
    [0x6a, 0x24, 0xaa, 0x21, 0xa9, 0xed] + h(Root(h, [ZERO_HASH] + wtxids) + reserved)
  }

  /** A transaction without a wtxid is an error. */
  method ComputeWitnessCommitmentScript(h: Hasher, wtxids: seq<Option<Hash>>) returns (script: Option<Bytes>)
    ensures script.None? <==> exists i :: 0 <= i < |wtxids| && wtxids[i].None?
    ensures script.Some? ==> exists known: seq<Hash> ::
      |known| == |wtxids| && (forall i :: 0 <= i < |known| ==> wtxids[i] == Some(known[i])) &&
      script.value == CommitmentScript(h, known, ZERO_HASH)
  {
    var known: seq<Hash> := [];
    for i := 0 to |wtxids|
      invariant |known| == i
      invariant forall j :: 0 <= j < i ==> wtxids[j] == Some(known[j])
    {
      if wtxids[i].None? {
        return None;
      }
      known := known + [wtxids[i].value];
    }
    var level := [ZERO_HASH] + known;
    while |level| > 1
      invariant level != [] && Root(h, level) == Root(h, [ZERO_HASH] + known)
      decreases |level|
    {
      level := HashPairs(h, level);
    }
    return Some([0x6a, 0x24] + [0xaa, 0x21, 0xa9, 0xed] + h(level[0] + ZERO_HASH));
  }
}
