/**
 What reward messages carry, told from the awards: each message for an era gives every account
 what it was awarded in that era, the sum of it all, and the amount minted for it.
 */
module RewardMessages {
  import opened Common
  import opened RetryQueue
  import opened Points
  import opened Rewards

  /** What an account was awarded in an era, in all. */
  function AwardedIn(log: seq<Event>, era: nat, who: Account): (n: nat) {
    if log == [] then 0
    else
      var last := log[|log| - 1];
      AwardedIn(log[..|log| - 1], era, who) +
      (if last.Awarded? && last.era == era then AwardedTo(last.rows, who) else 0)
  }

  lemma AwardedInAppend(log: seq<Event>, ev: Event, era: nat, who: Account)
    ensures AwardedIn(log + [ev], era, who) ==
            AwardedIn(log, era, who) + if ev.Awarded? && ev.era == era then AwardedTo(ev.rows, who) else 0
  {
    assert (log + [ev])[..|log|] == log;
  }

  lemma {:induction false} NoAwards(log: seq<Event>, more: seq<Event>, era: nat, who: Account)
    requires forall i :: 0 <= i < |more| ==> !more[i].Awarded? || more[i].era != era
    ensures AwardedIn(log + more, era, who) == AwardedIn(log, era, who)
    decreases |more|
  {
    if more == [] {
      assert log + more == log;
    } else {
      var rest, last := more[..|more| - 1], more[|more| - 1];
      NoAwards(log, rest, era, who);
      AwardedInAppend(log + rest, last, era, who);
      assert log + more == log + rest + [last];
    }
  }

  /** A table holds what its accounts were awarded, capped at u32::MAX each. */
  ghost predicate Holds(t: Table, log: seq<Event>, era: nat) {
    Ordered(t) && forall who :: Get(t, who) == Min(U32_MAX, AwardedIn(log, era, who))
  }

  /** A message tells the truth about its era. */
  ghost predicate Truthful(log: seq<Event>, m: Message) {
    && Holds(m.individual, log, m.era) && m.totalPoints == Sum(m.individual) && m.totalPoints > 0
    && Minted(m.era, m.inflation) in log
  }

  /** The points of the active era are what was awarded in it, and nothing was awarded in later
      eras. Every message so far was truthful. */
  ghost predicate Told(s: State, active: nat) {
    && TotalAgrees(PointsOf(s, active)) && Holds(PointsOf(s, active).individual, s.log, active)
    && (forall era :: era in s.points ==> era <= active)
    && (forall era: nat, who :: era > active ==> AwardedIn(s.log, era, who) == 0)
    && (forall a :: a in s.log && a.Attempt? ==> Truthful(s.log, a.message))
  }

  lemma TruthStays(log: seq<Event>, more: seq<Event>, m: Message)
    requires Truthful(log, m) && forall i :: 0 <= i < |more| ==> !more[i].Awarded? || more[i].era != m.era
    ensures Truthful(log + more, m)
  {
    forall who ensures AwardedIn(log + more, m.era, who) == AwardedIn(log, m.era, who) {
      NoAwards(log, more, m.era, who);
    }
  }

  ghost predicate NotAwards(more: seq<Event>) {
    forall i :: 0 <= i < |more| ==> !more[i].Awarded?
  }

  /** Events that award nothing keep it told, if the messages among them are truthful. */
  lemma MoreEvents(s: State, r: State, active: nat, more: seq<Event>)
    requires Told(s, active) && NotAwards(more) && r.log == s.log + more
    requires PointsOf(r, active) == PointsOf(s, active) && r.points.Keys <= s.points.Keys
    requires forall a :: a in more && a.Attempt? ==> Truthful(r.log, a.message)
    ensures Told(r, active)
  {
    forall era: nat, who ensures AwardedIn(r.log, era, who) == AwardedIn(s.log, era, who) {
      NoAwards(s.log, more, era, who);
    }
    forall a | a in s.log && a.Attempt? ensures Truthful(r.log, a.message) {
      TruthStays(s.log, more, a.message);
    }
  }

  // ---- Calls ----

  lemma AwardedTable(s: State, r: State, active: nat, rows: seq<Row>)
    requires Told(s, active) && r.log == s.log + [Awarded(active, rows)]
    requires r.points == s.points[active := AwardAll(PointsOf(s, active), rows)]
    ensures TotalAgrees(PointsOf(r, active)) && Holds(PointsOf(r, active).individual, r.log, active)
  {
    TotalIsCappedSum(PointsOf(s, active), rows);
    forall who ensures Get(PointsOf(r, active).individual, who) == Min(U32_MAX, AwardedIn(r.log, active, who)) {
      AwardsCredit(PointsOf(s, active), rows, who);
      AwardedInAppend(s.log, Awarded(active, rows), active, who);
    }
  }

  lemma AwardKeepsTold(s: State, f: Formula, active: nat, validators: seq<Account>, exempt: seq<Account>)
    requires Told(s, active) && Frozen(s, active)
    ensures Told(AwardSession(s, f, active, validators, exempt), active)
  {
    var r, rows := AwardSession(s, f, active, validators, exempt), SessionAwards(f, s.authored, validators, exempt);
    if rows != [] {
      var ev := Awarded(active, rows);
      AwardedTable(s, r, active, rows);
      forall era: nat, who | era > active ensures AwardedIn(r.log, era, who) == 0 {
        AwardedInAppend(s.log, ev, era, who);
      }
      forall a | a in r.log && a.Attempt? ensures Truthful(r.log, a.message) {
        assert a in s.log;
        TruthStays(s.log, [ev], a.message);
      }
    }
  }

  lemma AuthorKeepsTold(s: State, active: nat, who: Account)
    requires Told(s, active)
    ensures Told(NoteAuthor(s, active, who), active)
  {
  }

  lemma EndAwardsNothing(s: State, era: nat, timestamp: nat, mint: Option<nat>, sent: bool, who: Account)
    ensures AwardedIn(OnEraEnd(s, era, timestamp, mint, sent).log, era, who) == AwardedIn(s.log, era, who)
  {
    var log := OnEraEnd(s, era, timestamp, mint, sent).log;
    NoAwards(s.log, log[|s.log|..], era, who);
    assert log == s.log + log[|s.log|..];
  }

  /** The era hooks award nothing. */
  lemma ChangeAwardsNothing(s: State, depth: nat, era: nat, timestamp: nat, mint: Option<nat>, sent: bool, who: Account)
    ensures AwardedIn(EraChange(s, depth, era, timestamp, mint, sent).log, era, who) == AwardedIn(s.log, era, who)
  {
    var ended := OnEraEnd(s, era, timestamp, mint, sent);
    EndAwardsNothing(s, era, timestamp, mint, sent, who);
    if era + 1 >= depth {
      NoAwards(ended.log, ExpiredEvents(Expired(ended.queue, era + 1 - depth)), era, who);
    }
  }

  /** A retry repeats a message that was sent before, so a truthful one. */
  lemma RetriedTruthful(s: State, active: nat, e: Entry<Pending>, sent: bool)
    requires Told(s, active) && Rebuilds(s, e)
    ensures
      var more := [Attempt(Rebuild(s, e).value, true, sent)];
      Truthful(s.log + more, Rebuild(s, e).value)
  {
    var first := Attempt(Rebuild(s, e).value, false, false);
    assert first in s.log;
    TruthStays(s.log, [Attempt(Rebuild(s, e).value, true, sent)], first.message);
  }

  lemma BlockKeepsTold(s: State, active: nat, sent: bool)
    requires Told(s, active) && Frozen(s, active)
    ensures Told(ProcessUnsent(s, sent), active)
  {
    if s.queue != [] {
      assert Rebuilds(s, s.queue[0]);
      RetriedTruthful(s, active, s.queue[0], sent);
      MoreEvents(s, ProcessUnsent(s, sent), active, [Attempt(Rebuild(s, s.queue[0]).value, true, sent)]);
    }
  }

  lemma RetryKeepsTold(s: State, active: nat, era: nat, sent: bool)
    requires Told(s, active) && Frozen(s, active)
    ensures Told(RetryUnsent(s, era, sent).0, active)
  {
    var found := IndexOfEra(s.queue, era);
    if found.Some? {
      var e := s.queue[found.value];
      assert Rebuilds(s, e);
      RetriedTruthful(s, active, e, sent);
      MoreEvents(s, RetryUnsent(s, era, sent).0, active, [Attempt(Rebuild(s, e).value, true, sent)]);
    }
  }

  /** The first message of an era is built from the points of the era. */
  lemma FirstTruthful(s: State, active: nat, body: Pending, more: seq<Event>)
    requires Told(s, active) && NotAwards(more) && Minted(active, body.inflation) in more
    requires Build(PointsOf(s, active), active, body).Some?
    ensures Truthful(s.log + more, Build(PointsOf(s, active), active, body).value)
  {
    forall who ensures AwardedIn(s.log + more, active, who) == AwardedIn(s.log, active, who) {
      NoAwards(s.log, more, active, who);
    }
  }

  lemma EraEndKeepsTold(s: State, active: nat, timestamp: nat, mint: Option<nat>, sent: bool)
    requires Told(s, active)
    ensures Told(OnEraEnd(s, active, timestamp, mint, sent), active)
  {
    var r := OnEraEnd(s, active, timestamp, mint, sent);
    if r.log != s.log {
      var body := Pending(timestamp, mint.value);
      var more := r.log[|s.log|..];
      assert r.log == s.log + more;
      assert more[0] == Minted(active, mint.value);
      FirstTruthful(s, active, body, more);
      MoreEvents(s, r, active, more);
    }
  }

  /** A new era starts without points and awards. */
  lemma NextEraTold(s: State, active: nat)
    requires Told(s, active)
    ensures Told(s, active + 1)
  {
    assert PointsOf(s, active + 1) == NO_POINTS;
  }

  lemma EraStartKeepsTold(s: State, depth: nat, active: nat)
    requires Told(s, active) && active !in s.points
    ensures Told(OnEraStart(s, depth, active), active)
  {
    var r := OnEraStart(s, depth, active);
    if active >= depth {
      MoreEvents(s, r, active, ExpiredEvents(Expired(s.queue, active - depth)));
    }
  }

  lemma EraChangeKeepsTold(s: State, depth: nat, active: nat, timestamp: nat, mint: Option<nat>, sent: bool)
    requires Told(s, active)
    ensures Told(EraChange(s, depth, active, timestamp, mint, sent), active + 1)
  {
    var ended := OnEraEnd(s, active, timestamp, mint, sent);
    EraEndKeepsTold(s, active, timestamp, mint, sent);
    NextEraTold(ended, active);
    EraStartKeepsTold(ended, depth, active + 1);
  }

  // ---- When a message is sent ----

  lemma {:induction false} SumPositive(t: Table)
    ensures Sum(t) > 0 <==> exists i :: 0 <= i < |t| && t[i].count > 0
    decreases |t|
  {
    if t != [] {
      SumPositive(t[1..]);
      assert forall i :: 1 <= i < |t| ==> t[i] == t[1..][i - 1];
    }
  }

  lemma {:induction false} GetRow(t: Table, i: nat)
    requires Ordered(t) && i < |t|
    ensures Get(t, t[i].who) == t[i].count
    decreases |t|
  {
    if i > 0 {
      GetRow(t[1..], i - 1);
    }
  }

  /** The era ends with a mint and a message, if minting works, exactly when somebody was
      awarded points in it; a message that is not sent is queued, or dropped before a full queue. */
  lemma EndsWithMessage(s: State, active: nat, timestamp: nat, mint: Option<nat>, sent: bool)
    requires Told(s, active)
    ensures
      var r := OnEraEnd(s, active, timestamp, mint, sent);
      if mint.Some? && exists who :: AwardedIn(s.log, active, who) > 0
      then
        && |r.log| >= |s.log| + 2 && s.log <= r.log && r.log[|s.log|] == Minted(active, mint.value)
        && r.log[|s.log| + 1].Attempt? && !r.log[|s.log| + 1].retry && r.log[|s.log| + 1].sent == sent
        && r.log[|s.log| + 1].message.era == active && r.log[|s.log| + 1].message.timestamp == timestamp
        && r.log[|s.log| + 2..] == (if sent || |s.queue| < MAX_ENTRIES then [] else [Dropped(active, mint.value)])
        && r.queue == (if sent || |s.queue| >= MAX_ENTRIES then s.queue
                       else s.queue + [Entry(active, Pending(timestamp, mint.value))])
      else r == s
  {
    var t := PointsOf(s, active).individual;
    SumPositive(t);
    if Sum(t) > 0 {
      var i :| 0 <= i < |t| && t[i].count > 0;
      GetRow(t, i);
      assert AwardedIn(s.log, active, t[i].who) > 0;
    } else {
      forall who ensures AwardedIn(s.log, active, who) == 0 {
        GetBounded(t, who);
      }
    }
  }
}
