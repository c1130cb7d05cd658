/**
 The external-validators-rewards pallet with its storage updated in place. Every method
 is proved against the state machine of Rewards.
 */
module RewardsPallet {
  import opened Common
  import opened RetryQueue
  import opened RingQueue
  import opened Points
  import opened Rewards

  lemma AwardAllStep(e: EraPoints, awards: seq<Row>, n: nat)
    requires n < |awards|
    ensures AwardAll(e, awards[..n + 1]) == Award(AwardAll(e, awards[..n]), awards[n].who, awards[n].count)
  {
    assert awards[..n + 1][..n] == awards[..n];
  }

  lemma {:induction false} NoneEligible(points: seq<nat>, validators: seq<Account>, exempt: seq<Account>, n: nat)
    requires n <= |validators| == |points| && Eligible(validators, exempt, n) == 0
    ensures AwardsOf(points, validators, exempt, n) == []
  {
    if n > 0 {
      NoneEligible(points, validators, exempt, n - 1);
    }
  }

  ghost predicate AllAgree(points: map<nat, EraPoints>) {
    forall era :: era in points ==> TotalAgrees(points[era])
  }

  class RewardsPallet {
    var points: map<nat, EraPoints>
    var authored: Table
    var blocks: map<nat, nat>
    const queue: RingQueue<Pending>
    ghost var log: seq<Event>

    /** The counters are well formed, and every era's total is the capped sum of its points. */
    ghost predicate Valid()
      reads this, queue
    {
      queue.Valid() && Ordered(authored) && AllAgree(points)
    }

    ghost function Model(): (s: State)
      reads this, queue
    {
      State(points, authored, blocks, queue.contents, log)
    }

    constructor ()
      ensures Valid() && fresh(queue) && Model() == GENESIS
    {
      points, authored, blocks, log := map[], [], map[], [];
      queue := new RingQueue<Pending>();
    }

    /** Counts a block for its author, and for nobody else, and for the era. */
    method NoteBlockAuthor(active: nat, who: Account)
      requires Valid()
      modifies this`authored, this`blocks
      ensures Valid() && Model() == NoteAuthor(old(Model()), active, who)
      ensures Get(authored, who) == SatAdd(Get(old(authored), who), 1)
      ensures forall x :: x != who ==> Get(authored, x) == Get(old(authored), x)
    {
      AccrueOrdered(authored, who, 1);
      forall x ensures Get(Accrue(authored, who, 1), x) ==
                       if x == who then SatAdd(Get(authored, x), 1) else Get(authored, x)
      {
        AccrueCredits(authored, who, 1, x);
      }
      authored := Accrue(authored, who, 1);
      var produced := if active in blocks then blocks[active] else 0;
      blocks := blocks[active := SatAdd(produced, 1)];
    }

    /** Credits every award to the active era, one after the other. */
    method RewardByIds(active: nat, awards: seq<Row>)
      requires Valid()
      modifies this`points
      ensures Valid()
      ensures points == old(points)[active := AwardAll(PointsOf(old(Model()), active), awards)]
    {
      var before := if active in points then points[active] else NO_POINTS;
      var total, individual := before.total, before.individual;
      for i := 0 to |awards|
        invariant EraPoints(total, individual) == AwardAll(before, awards[..i])
        invariant points == old(points)
      {
        AwardAllStep(before, awards, i);
        individual := Accrue(individual, awards[i].who, awards[i].count);
        total := SatAdd(total, awards[i].count);
      }
      assert awards[..|awards|] == awards;
      TotalIsCappedSum(before, awards);
      points := points[active := EraPoints(total, individual)];
    }

    method CountEligible(validators: seq<Account>, exempt: seq<Account>) returns (n: nat)
      ensures n == Eligible(validators, exempt, |validators|)
    {
      n := 0;
      for i := 0 to |validators|
        invariant n == Eligible(validators, exempt, i)
      {
        if validators[i] !in exempt {
          n := n + 1;
        }
      }
    }

    /** Hands out the points of the session that ends, and clears its block counts. */
    method AwardSessionPoints(f: Formula, active: nat, validators: seq<Account>, exempt: seq<Account>)
      requires Valid()
      modifies this
      ensures Valid() && Model() == AwardSession(old(Model()), f, active, validators, exempt)
    {
      var total := Sum(authored);
      var eligible := CountEligible(validators, exempt);
      if eligible == 0 {
        NoneEligible(SessionPoints(f, authored, validators), validators, exempt, |validators|);
        authored := [];
        return;
      }
      ghost var all := SessionPoints(f, authored, validators);
      var rewards: seq<Row> := [];
      for i := 0 to |validators|
        invariant rewards == AwardsOf(all, validators, exempt, i)
      {
        if validators[i] !in exempt {
          var earned := PointsFor(f, total, |validators|, Get(authored, validators[i]));
          if earned > 0 {
            rewards := rewards + [Row(validators[i], earned)];
          }
        }
      }
      if rewards != [] {
        RewardByIds(active, rewards);
        log := log + [Awarded(active, rewards)];
      }
      authored := [];
    }

    /** The block hook. `sent` is what the message sender answers, if it is asked. */
    method ProcessUnsentRewardEras(sent: bool)
      requires Valid()
      modifies this, queue
      ensures Valid() && Model() == ProcessUnsent(old(Model()), sent)
    {
      if queue.head == queue.tail {
        return;
      }
      PopHolds(queue.slots, queue.head, queue.tail, queue.contents);
      var e := queue.slots[queue.head];
      var p := if e.era in points then points[e.era] else NO_POINTS;
      var info := Build(p, e.era, e.body);
      if info.None? {
        queue.PopHead();
        log := log + [ExpiredEra(e.era, e.body.inflation)];
      } else {
        if sent {
          queue.PopHead();
        } else {
          queue.RotateHead();
        }
        log := log + [Attempt(info.value, true, sent)];
      }
    }

    method RetryUnsentRewardEra(era: nat, sent: bool) returns (r: RetryResult)
      requires Valid()
      modifies this, queue
      ensures Valid() && (Model(), r) == RetryUnsent(old(Model()), era, sent)
    {
      var found := queue.Find(era);
      if found.None? {
        return EraNotInUnsentQueue;
      }
      var e := queue.slots[found.value];
      var p := if era in points then points[era] else NO_POINTS;
      var info := Build(p, era, e.body);
      if info.None? {
        return RewardPointsPruned;
      }
      log := log + [Attempt(info.value, true, sent)];
      if !sent {
        return MessageSendFailed;
      }
      queue.RemoveSlot(found.value);
      return Ok;
    }

    /** Drops the points that leave the history, with every queued era up to theirs. */
    method EraStarted(depth: nat, era: nat)
      requires Valid()
      modifies this, queue
      ensures Valid() && Model() == OnEraStart(old(Model()), depth, era)
    {
      if era < depth {
        return;
      }
      var gone := era - depth;
      points := points - {gone};
      blocks := blocks - {gone};
      var expired := queue.PruneThrough(gone);
      log := log + ExpiredEvents(expired);
    }

    method EraEnded(era: nat, timestamp: nat, mint: Option<nat>, sent: bool)
      requires Valid()
      modifies this, queue
      ensures Valid() && Model() == OnEraEnd(old(Model()), era, timestamp, mint, sent)
    {
      var p := if era in points then points[era] else NO_POINTS;
      if Sum(p.individual) == 0 || mint.None? {
        return;
      }
      var body := Pending(timestamp, mint.value);
      var info := Build(p, era, body);
      log := log + [Minted(era, mint.value), Attempt(info.value, false, sent)];
      if !sent {
        var queued := queue.Push(Entry(era, body));
        if !queued {
          log := log + [Dropped(era, mint.value)];
        }
      }
    }
  }
}
