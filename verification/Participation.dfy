/** Sync committee participation: counting the bits, the two-thirds check, and the selection
    of signing or absent keys. The recursive definitions work on the first `n` positions. */
module Participation {
  type Key = nat

  type Bit = b: nat | b <= 1

  function SumOf(bits: seq<Bit>, n: nat): (sum: nat)
    requires n <= |bits|
    ensures sum <= n
  {
    if n == 0 then 0 else SumOf(bits, n - 1) + bits[n - 1]
  }

  /** At least two thirds of the bits are set. */
  predicate Supermajority(bits: seq<Bit>) {
    SumOf(bits, |bits|) * 3 >= |bits| * 2
  }

  /** The keys, in order, whose bit says that they took part, or that they did not. */
  function SelectedOf(bits: seq<Bit>, keys: seq<Key>, n: nat, participant: bool): (r: seq<Key>)
    requires n <= |bits| && n <= |keys|
  {
    if n == 0 then []
    else
      var rest := SelectedOf(bits, keys, n - 1, participant);
      if bits[n - 1] == (if participant then 1 else 0) then rest + [keys[n - 1]] else rest
  }

  /** Bits and keys are zipped: what is left over of the longer one is ignored. */
  function Selected(bits: seq<Bit>, keys: seq<Key>, participant: bool): (r: seq<Key>) {
    SelectedOf(bits, keys, if |bits| < |keys| then |bits| else |keys|, participant)
  }

  /** Collects the keys that took part, or those that did not. */
  method FindPubkeys(bits: seq<Bit>, keys: seq<Key>, participant: bool) returns (pubkeys: seq<Key>)
    ensures pubkeys == Selected(bits, keys, participant)
  {
    pubkeys := [];
    for i := 0 to if |bits| < |keys| then |bits| else |keys|
      invariant pubkeys == SelectedOf(bits, keys, i, participant)
    {
      if bits[i] == (if participant then 1 else 0) {
        pubkeys := pubkeys + [keys[i]];
      }
    }
  }

  /** Puts the absent and the signing keys of the first `n` positions back in order. */
  function WeaveOf(bits: seq<Bit>, n: nat, absent: seq<Key>, signers: seq<Key>): (r: seq<Key>)
    requires n <= |bits| && |signers| == SumOf(bits, n) && |absent| == n - SumOf(bits, n)
  {
    if n == 0 then []
    else if bits[n - 1] == 1 then
      WeaveOf(bits, n - 1, absent, signers[..|signers| - 1]) + [signers[|signers| - 1]]
    else WeaveOf(bits, n - 1, absent[..|absent| - 1], signers) + [absent[|absent| - 1]]
  }

  lemma {:induction false} WeaveRestores(bits: seq<Bit>, keys: seq<Key>, n: nat)
    requires n <= |bits| && n <= |keys|
    ensures
      var absent, signers := SelectedOf(bits, keys, n, false), SelectedOf(bits, keys, n, true);
      && |signers| == SumOf(bits, n) && |absent| == n - SumOf(bits, n)
      && WeaveOf(bits, n, absent, signers) == keys[..n]
    decreases n
  {
    if n > 0 {
      var absent, signers := SelectedOf(bits, keys, n, false), SelectedOf(bits, keys, n, true);
      WeaveRestores(bits, keys, n - 1);
      assert keys[..n] == keys[..n - 1] + [keys[n - 1]];
      if bits[n - 1] == 1 {
        assert signers[..|signers| - 1] == SelectedOf(bits, keys, n - 1, true);
      } else {
        assert absent[..|absent| - 1] == SelectedOf(bits, keys, n - 1, false);
      }
    }
  }

  /** The absent keys are the order-preserving complement of the counted signers: there are as
      many signers as bits set, and the two lists weave back into the committee. */
  lemma AbsentComplementsSigners(bits: seq<Bit>, keys: seq<Key>)
    requires |bits| == |keys|
    ensures
      var absent, signers := Selected(bits, keys, false), Selected(bits, keys, true);
      && |signers| == SumOf(bits, |bits|) && |absent| == |bits| - SumOf(bits, |bits|)
      && WeaveOf(bits, |bits|, absent, signers) == keys
  {
    WeaveRestores(bits, keys, |bits|);
  }

  /** A vote passes exactly when at most a third of the committee is absent. */
  lemma SupermajorityIff(bits: seq<Bit>, keys: seq<Key>)
    requires |bits| == |keys|
    ensures Supermajority(bits) <==> 3 * |Selected(bits, keys, false)| <= |bits|
  {
    AbsentComplementsSigners(bits, keys);
  }

  /** The positions below `n` that are set in both vectors, lowest first. */
  function InBoth(a: seq<Bit>, b: seq<Bit>, n: nat): (shared: seq<nat>)
    requires n <= |a| && n <= |b|
    ensures forall i :: 0 <= i < |shared| ==> shared[i] < n && a[shared[i]] == 1 && b[shared[i]] == 1
    ensures forall i, j :: 0 <= i < j < |shared| ==> shared[i] < shared[j]
  {
    if n == 0 then []
    else InBoth(a, b, n - 1) + (if a[n - 1] == 1 && b[n - 1] == 1 then [n - 1] else [])
  }

  lemma {:induction false} InclusionExclusion(a: seq<Bit>, b: seq<Bit>, n: nat)
    requires n <= |a| && n <= |b|
    ensures SumOf(a, n) + SumOf(b, n) <= n + |InBoth(a, b, n)|
    decreases n
  {
    if n > 0 {
      InclusionExclusion(a, b, n - 1);
    }
  }

  /** Quorum intersection: of two votes of one committee that pass the check, at least a third
      of the members signed both. */
  lemma QuorumIntersection(a: seq<Bit>, b: seq<Bit>)
    requires |a| == |b| && Supermajority(a) && Supermajority(b)
    ensures |InBoth(a, b, |a|)| * 3 >= |a|
  {
    InclusionExclusion(a, b, |a|);
  }
}
