/**
 The 64-slot ring buffer behind both unsent queues: head and tail counters over a
 map of slots, updated in place. Every method is proved against the sequence
 operations of RetryQueue.
 */
module RingQueue {
  import opened Common
  import opened RetryQueue

  function Next(slot: nat): (n: nat)
    requires slot < CAPACITY
    ensures n == if slot == CAPACITY - 1 then 0 else slot + 1
  {
    (slot + 1) % CAPACITY
  }

  /** The slot that holds position `k` of a buffer whose head is `head`. */
  function SlotAt(head: nat, k: nat): (slot: nat)
    requires head < CAPACITY && k <= CAPACITY
    ensures slot < CAPACITY
  {
    if head + k < CAPACITY then head + k else head + k - CAPACITY
  }

  /** The position that `slot` holds: its distance from the head, going round. */
  function Distance(head: nat, slot: nat): (k: nat)
    requires head < CAPACITY && slot < CAPACITY
    ensures k < CAPACITY && SlotAt(head, k) == slot
  {
    if slot >= head then slot - head else slot + CAPACITY - head
  }

  /** Exactly the slots from head to tail are filled, with the entries of `q` in order. */
  ghost predicate Holds<T>(slots: map<nat, Entry<T>>, head: nat, tail: nat, q: Queue<T>) {
    && head < CAPACITY && tail < CAPACITY
    && |q| == Distance(head, tail)
    && (forall s: nat {:trigger s in slots} :: s in slots <==> s < CAPACITY && Distance(head, s) < |q|)
    && (forall s: nat {:trigger slots[s]} :: s in slots ==> slots[s] == q[Distance(head, s)])
  }

  /** The slots while a removal at position `i` is under way: positions `i` to `k` are
      already overwritten by their successors. */
  ghost predicate Shifted<T>(slots: map<nat, Entry<T>>, head: nat, q: Queue<T>, i: nat, k: nat) {
    && head < CAPACITY && i <= k < |q| < CAPACITY
    && (forall s: nat {:trigger s in slots} :: s in slots <==> s < CAPACITY && Distance(head, s) < |q|)
    && (forall s: nat {:trigger slots[s]} :: s in slots ==>
      slots[s] == var d := Distance(head, s); if i <= d < k then q[d + 1] else q[d])
  }

  lemma ShiftStart<T>(slots: map<nat, Entry<T>>, head: nat, tail: nat, q: Queue<T>, slot: nat)
    requires Holds(slots, head, tail, q) && slot in slots
    ensures Shifted(slots, head, q, Distance(head, slot), Distance(head, slot)) && head != tail
  {
  }

  lemma ShiftStep<T>(slots: map<nat, Entry<T>>, head: nat, q: Queue<T>, i: nat, k: nat)
    requires Shifted(slots, head, q, i, k) && k + 1 < |q|
    ensures SlotAt(head, k + 1) in slots
    ensures Shifted(slots[SlotAt(head, k) := slots[SlotAt(head, k + 1)]], head, q, i, k + 1)
  {
  }

  lemma ShiftDone<T>(slots: map<nat, Entry<T>>, head: nat, tail: nat, q: Queue<T>, i: nat, last: nat, newTail: nat)
    requires tail < CAPACITY && q != [] && Shifted(slots, head, q, i, |q| - 1) && |q| == Distance(head, tail)
    requires last == SlotAt(head, |q| - 1)
    requires newTail == if tail == 0 then CAPACITY - 1 else tail - 1
    ensures Holds(slots - {last}, head, newTail, RemovedAt(q, i))
  {
  }

  lemma PushHolds<T>(slots: map<nat, Entry<T>>, head: nat, tail: nat, q: Queue<T>, e: Entry<T>)
    requires Holds(slots, head, tail, q) && Next(tail) != head
    ensures Holds(slots[tail := e], head, Next(tail), q + [e])
  {
  }

  lemma PopHolds<T>(slots: map<nat, Entry<T>>, head: nat, tail: nat, q: Queue<T>)
    requires Holds(slots, head, tail, q) && q != []
    ensures head in slots && slots[head] == q[0]
    ensures Holds(slots - {head}, Next(head), tail, q[1..])
  {
  }

  /** The clean-up loop's scan of position `p`, on sequences. */
  lemma PruneStep<T>(q: Queue<T>, p: nat, limit: nat)
    requires p < |q|
    ensures
      var done, done' := KeptOf(q, p, limit), KeptOf(q, p + 1, limit);
      && (done + q[p..])[|done|] == q[p]
      && (q[p].era <= limit ==> |done'| == |done| && done' + q[p + 1..] == RemovedAt(done + q[p..], |done|))
      && (q[p].era > limit ==> |done'| == |done| + 1 && done' + q[p + 1..] == done + q[p..])
  {
  }

  class RingQueue<T> {
    var slots: map<nat, Entry<T>>
    var head: nat
    var tail: nat
    ghost var contents: Queue<T>

    ghost predicate Valid()
      reads this
    {
      Holds(slots, head, tail, contents)
    }

    constructor ()
      ensures Valid() && contents == []
    {
      slots, head, tail, contents := map[], 0, 0, [];
    }

    /** `unsent_queue_len`: the u32 wrapping difference, modulo the capacity. */
    method Len() returns (n: nat)
      requires Valid()
      ensures n == |contents| <= MAX_ENTRIES
      ensures n == 0 <==> head == tail
    {
      var wrapped := if tail >= head then tail - head else tail - head + 0x1_0000_0000;
      n := wrapped % CAPACITY;
    }

    method Push(e: Entry<T>) returns (ok: bool)
      requires Valid()
      modifies this
      ensures Valid()
      ensures ok <==> |old(contents)| < MAX_ENTRIES
      ensures contents == Pushed(old(contents), e)
    {
      var nextTail := Next(tail);
      if nextTail == head {
        return false;
      }
      PushHolds(slots, head, tail, contents, e);
      slots := slots[tail := e];
      tail := nextTail;
      contents := contents + [e];
      return true;
    }

    /** Takes the head entry out: what a block call does once it is sent or expired. */
    method PopHead()
      requires Valid() && contents != []
      modifies this
      ensures Valid()
      ensures contents == old(contents)[1..]
    {
      PopHolds(slots, head, tail, contents);
      slots := slots - {head};
      head := Next(head);
      contents := contents[1..];
    }

    /** Moves the head entry behind the last one: what a block call does when sending fails. */
    method RotateHead()
      requires Valid() && contents != []
      modifies this
      ensures Valid()
      ensures contents == Rotated(old(contents))
    {
      PopHolds(slots, head, tail, contents);
      var e := slots[head];
      PopHead();
      PushHolds(slots, head, tail, contents, e);
      slots := slots[tail := e];
      tail := Next(tail);
      contents := contents + [e];
    }

    /** Moves every entry behind `slot` one slot back; `last` is the slot left over. */
    method ShiftBack(slot: nat, ghost i: nat) returns (last: nat)
      requires Shifted(slots, head, contents, i, i) && slot == SlotAt(head, i)
      requires tail < CAPACITY && |contents| == Distance(head, tail)
      modifies this`slots
      ensures last == SlotAt(head, |contents| - 1)
      ensures Shifted(slots, head, contents, i, |contents| - 1)
    {
      ghost var k := i;
      last := slot;
      var next := Next(last);
      while next != tail
        invariant Shifted(slots, head, contents, i, k)
        invariant last == SlotAt(head, k) && next == SlotAt(head, k + 1)
        decreases |contents| - k
      {
        ShiftStep(slots, head, contents, i, k);
        if next in slots {
          slots := slots[last := slots[next]];
        }
        last := next;
        next := Next(last);
        k := k + 1;
      }
    }

    /** Deletes one slot and closes the gap. The queue is never empty here, so the head
        never needs to follow the tail. */
    method RemoveSlot(slot: nat)
      requires Valid() && slot in slots
      modifies this
      ensures Valid() && head == old(head)
      ensures contents == RemovedAt(old(contents), Distance(head, slot))
    {
      ShiftStart(slots, head, tail, contents, slot);
      ghost var i := Distance(head, slot);
      if head == tail {
        assert false;
      }
      var last := ShiftBack(slot, i);
      var newTail := if tail == 0 then CAPACITY - 1 else tail - 1;
      ShiftDone(slots, head, tail, contents, i, last, newTail);
      slots, tail, contents := slots - {last}, newTail, RemovedAt(contents, i);
    }

    /** The search loop of the manual retry. */
    method Find(era: nat) returns (found: Option<nat>)
      requires Valid()
      ensures found.None? <==> IndexOfEra(contents, era).None?
      ensures found.Some? ==> found.value in slots && IndexOfEra(contents, era) == Some(Distance(head, found.value))
    {
      var slot := head;
      ghost var k := 0;
      while slot != tail
        invariant k <= |contents| && slot == SlotAt(head, k)
        invariant forall j :: 0 <= j < k ==> contents[j].era != era
        decreases |contents| - k
      {
        if slot in slots && slots[slot].era == era {
          return Some(slot);
        }
        slot := Next(slot);
        k := k + 1;
      }
      return None;
    }

    /** One pass of the clean-up loop: an expired slot is deleted and visited again,
        because the next entry slid into it; any other slot is left behind. */
    method PruneSlot(slot: nat, limit: nat, ghost k: nat) returns (next: nat, expired: seq<Entry<T>>)
      requires Valid() && k < |contents| && slot == SlotAt(head, k)
      modifies this
      ensures Valid() && head == old(head)
      ensures
        var e := old(contents)[k];
        if e.era <= limit
        then contents == RemovedAt(old(contents), k) && next == slot && expired == [e]
        else contents == old(contents) && next == SlotAt(head, k + 1) && expired == []
    {
      assert Distance(head, slot) == k;
      if slots[slot].era <= limit {
        expired := [slots[slot]];
        RemoveSlot(slot);
        next := slot;
      } else {
        expired := [];
        next := Next(slot);
      }
    }

    /** The clean-up loop of `on_era_start`: deletes every entry of an era up to `limit`. */
    method PruneThrough(limit: nat) returns (expired: seq<Entry<T>>)
      requires Valid()
      modifies this
      ensures Valid()
      ensures contents == Kept(old(contents), limit)
      ensures expired == Expired(old(contents), limit)
    {
      ghost var before, p, done := contents, 0, [];
      expired := [];
      var slot := head;
      while slot != tail
        invariant Valid() && p <= |before|
        invariant |done| <= |contents| && slot == SlotAt(head, |done|)
        invariant done == KeptOf(before, p, limit)
        invariant contents == done + before[p..]
        invariant expired == ExpiredOf(before, p, limit)
        decreases |before| - p
      {
        PruneStep(before, p, limit);
        var gone;
        slot, gone := PruneSlot(slot, limit, |done|);
        expired := expired + gone;
        p, done := p + 1, KeptOf(before, p + 1, limit);
      }
    }
  }
}
