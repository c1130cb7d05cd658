/**
 What the slash messages say, over every run: each names, for each of its slashes, the
 validator, the share and the kind of the offence it was made for.
 */
module SlashMessages {
  import opened Common
  import opened RetryQueue
  import opened Slashes
  import opened SlashRuns
  import opened SlashFates
  import opened SlashFractions

  /** `wad` is `fraction` billionths of `maxWad`, rounded down. */
  ghost predicate Share(maxWad: nat, fraction: nat, wad: nat) {
    wad * BILLION <= fraction * maxWad < (wad + 1) * BILLION
  }

  /** The share is exact unless the product leaves the 128 bits. */
  lemma WadIffShare(maxWad: nat, fraction: nat)
    requires fraction <= BILLION
    ensures Wad(maxWad, fraction) <= maxWad
    ensures Share(maxWad, fraction, Wad(maxWad, fraction)) <==>
      fraction * maxWad < (U128_MAX / BILLION + 1) * BILLION
  {
    var product: nat := fraction * maxWad;
    assert product <= BILLION * maxWad;
  }

  /** One slash of a message against the record of that slash. */
  ghost predicate Tells(cfg: Config, r: Record, era: nat, d: SlashData) {
    && r.bucket == era
    && d.validator == r.offence.who
    && d.description == Description(r.offence.kind)
    && d.wad <= cfg.maxWad
    && (r.offence.fraction <= BILLION && r.offence.fraction * cfg.maxWad <= U128_MAX ==>
          Share(cfg.maxWad, r.offence.fraction, d.wad))
  }

  ghost predicate Truthful(cfg: Config, records: seq<Record>, m: Message) {
    && |m.ids| == |m.data|
    && forall k :: 0 <= k < |m.ids| ==> m.ids[k] < |records| && Tells(cfg, records[m.ids[k]], m.era, m.data[k])
  }

  ghost predicate AllTruthful(cfg: Config, records: seq<Record>, messages: seq<Message>) {
    forall k :: 0 <= k < |messages| ==> Truthful(cfg, records, messages[k])
  }

  /** The ids in the messages, message after message. */
  function SentIds(messages: seq<Message>): (r: seq<nat>) {
    if messages == [] then [] else SentIds(messages[..|messages| - 1]) + messages[|messages| - 1].ids
  }

  ghost predicate Told(cfg: Config, s: State) {
    && AsCalled(cfg, s.past.records)
    && Consistent(cfg, s)
    && AllTruthful(cfg, s.past.records, s.past.messages)
    && s.past.delivered == SentIds(s.past.messages)
  }

  lemma SlashTells(cfg: Config, records: seq<Record>, era: nat, x: Slash)
    requires Faithful(cfg, records, era, x)
    ensures Tells(cfg, records[x.id], era, DataOf(cfg, x))
  {
    var fraction := records[x.id].offence.fraction;
    var product: nat := fraction * cfg.maxWad;
    if fraction <= BILLION && product <= U128_MAX {
      WadIffShare(cfg.maxWad, fraction);
      assert U128_MAX < (U128_MAX / BILLION + 1) * BILLION;
    }
  }

  lemma BatchTruthful(cfg: Config, records: seq<Record>, e: Entry<seq<Slash>>)
    requires AllFaithful(cfg, records, e.era, e.body)
    ensures Truthful(cfg, records, MessageOf(cfg, e))
  {
    var m := MessageOf(cfg, e);
    forall k | 0 <= k < |m.ids|
      ensures m.ids[k] < |records| && Tells(cfg, records[m.ids[k]], m.era, m.data[k])
    {
      assert e.body[k] in e.body;
      SlashTells(cfg, records, e.era, e.body[k]);
    }
  }

  lemma MoreRecordsTruthful(cfg: Config, records: seq<Record>, more: seq<Record>, messages: seq<Message>)
    requires AllTruthful(cfg, records, messages) && records <= more
    ensures AllTruthful(cfg, more, messages)
  {
  }

  lemma DeliveredTruthful(cfg: Config, p: History, q: Batches, i: nat)
    requires AllTruthful(cfg, p.records, p.messages) && p.delivered == SentIds(p.messages)
    requires QueueFaithful(cfg, p.records, q) && i < |q|
    ensures
      var r := Delivered(cfg, p, q[i]);
      r.records == p.records && AllTruthful(cfg, r.records, r.messages) && r.delivered == SentIds(r.messages)
  {
    BatchTruthful(cfg, p.records, q[i]);
    var r := Delivered(cfg, p, q[i]);
    assert r.messages[..|p.messages|] == p.messages;
  }

  /** Only the two sending calls deliver. */
  lemma OthersDeliverNothing(cfg: Config, m: Machine, c: Call)
    requires !c.BlockStart? && !c.ManualRetry?
    ensures
      var p := Apply(cfg, m, c).s.past;
      p.messages == m.s.past.messages && p.delivered == m.s.past.delivered
  {
    if c.ReportOffence? {
      ReportKeepsRest(cfg, m.s, m.active, c.activeStart, c.report, c.invulnerables);
    }
  }

  lemma ApplyTold(cfg: Config, m: Machine, c: Call)
    requires Told(cfg, m.s)
    ensures Told(cfg, Apply(cfg, m, c).s)
  {
    ApplyKeeps(cfg, m, c);
    CallRecords(cfg, m, c);
    var r := Apply(cfg, m, c).s;
    if c.BlockStart? {
      if m.s.queue != [] && c.sent {
        DeliveredTruthful(cfg, m.s.past, m.s.queue, 0);
      }
    } else if c.ManualRetry? {
      var found := IndexOfEra(m.s.queue, c.era);
      if found.Some? && c.sent {
        DeliveredTruthful(cfg, m.s.past, m.s.queue, found.value);
      }
    } else {
      OthersDeliverNothing(cfg, m, c);
      MoreRecordsTruthful(cfg, m.s.past.records, r.past.records, m.s.past.messages);
    }
  }

  lemma {:induction false} RunTold(cfg: Config, m: Machine, calls: seq<Call>)
    requires Told(cfg, m.s)
    ensures Told(cfg, ApplyAll(cfg, m, calls).s)
    decreases |calls|
  {
    if calls != [] {
      ApplyTold(cfg, m, calls[0]);
      RunTold(cfg, Apply(cfg, m, calls[0]), calls[1..]);
    }
  }

  /** Over every run from genesis: the delivered slashes are those of the messages, in order,
      and each message tells of each of its slashes the truth, under the era it was due in. */
  lemma MessagesTruthful(cfg: Config, session: nat, externalIndex: nat, calls: seq<Call>)
    ensures
      var p := Reached(cfg, session, externalIndex, calls).s.past;
      p.delivered == SentIds(p.messages) && AllTruthful(cfg, p.records, p.messages)
  {
    BootConsistent(cfg, session, externalIndex);
    RunTold(cfg, Boot(cfg, session, externalIndex), calls);
  }
}
