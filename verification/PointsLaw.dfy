/**
 What a session pays, written from the configuration alone: a validator gets the weighted
 value of its credited blocks, of being online and of the base guarantee, less a rounding
 loss of under two points.
 */
module PointsLaw {
  import opened Common
  import opened Points

  /** The blocks that count for a validator: its own, up to the fair share and the allowed
      excess over it. */
  function Counted(f: Formula, total: nat, validators: nat, authored: nat): (blocks: nat)
    requires validators > 0
  {
    var share := if total < validators then 1 else total / validators;
    Min(authored, (1_000_000_000 + f.fairShareCap) * share / 1_000_000_000)
  }

  /** What the two weights leave to 100%. */
  function Rest(f: Formula): (weight: nat) {
    if f.blockWeight + f.livenessWeight <= 1_000_000_000 then 1_000_000_000 - f.blockWeight - f.livenessWeight else 0
  }

  /** The weight of what is shared equally: the rest always, liveness for an author. */
  function SharedWeight(f: Formula, authored: nat): (weight: nat) {
    Rest(f) + if authored > 0 then f.livenessWeight else 0
  }

  /** The exact value of a session for one validator, in units of a point divided by a billion
      and by the number of validators. */
  function Exact(f: Formula, total: nat, validators: nat, authored: nat): (value: nat)
    requires validators > 0
  {
    var x: nat := Counted(f, total, validators, authored) * f.basePoints;
    var y: nat := Max(total, validators) * f.basePoints;
    var blocks: nat, shared: nat := f.blockWeight * x, SharedWeight(f, authored) * y;
    blocks * validators + shared
  }

  /** No u32 operation of the formula saturates. */
  predicate Unsaturated(f: Formula, total: nat, validators: nat, authored: nat)
    requires validators > 0
  {
    && (1_000_000_000 + f.fairShareCap) * FairShare(total, validators) / 1_000_000_000 <= U32_MAX
    && Counted(f, total, validators, authored) * f.basePoints <= U32_MAX
    && Max(total, validators) * f.basePoints <= U32_MAX
    && Exact(f, total, validators, authored) <= Scaled(U32_MAX * validators)
  }

  lemma CountedIsCredited(f: Formula, total: nat, validators: nat, authored: nat)
    requires validators > 0
    requires (1_000_000_000 + f.fairShareCap) * FairShare(total, validators) / 1_000_000_000 <= U32_MAX
    ensures Counted(f, total, validators, authored) == Credited(f, total, validators, authored)
  {
    var share := FairShare(total, validators);
    assert share == if total < validators then 1 else total / validators by {
      ShareAtLeastOne(total, validators);
    }
    assert (1_000_000_000 + f.fairShareCap) * share == 1_000_000_000 * share + f.fairShareCap * share;
  }

  lemma ShareAtLeastOne(total: nat, validators: nat)
    requires validators > 0
    ensures total < validators ==> total / validators == 0
    ensures total >= validators ==> total / validators >= 1
  {
    if total >= validators {
      DivMono(validators, total, validators);
    }
  }

  lemma FloorLoss(weight: nat, x: nat, floor: nat)
    requires floor == MulFloor(weight, x)
    ensures Scaled(floor) <= weight * x < Scaled(floor + 1)
  {
  }

  lemma DividedLoss(weight: nat, x: nat, n: nat, q: nat)
    requires n > 0 && q == MulFloor(weight, x) / n
    ensures Scaled(n * q) <= weight * x < Scaled(n * q + n)
  {
    var floor := MulFloor(weight, x);
    FloorLoss(weight, x, floor);
    assert n * q <= floor < n * q + n;
  }

  lemma TimesN(a: nat, b: nat, n: nat)
    requires Scaled(a) <= b < Scaled(a + 1) && n > 0
    ensures Scaled(n * a) <= b * n < Scaled(n * a + n)
  {
    MulMono(Scaled(a), b, n, n);
    assert b * n < Scaled(a + 1) * n;
  }

  lemma SumBelow(n: nat, sum: nat, max: nat)
    requires n > 0 && Scaled(n * sum) <= Scaled(max * n)
    ensures sum <= max
  {
    MulOrder(n, sum, max);
  }

  /** The law of the formula. */
  lemma PointsLaw(f: Formula, total: nat, validators: nat, authored: nat, points: nat, exact: nat)
    requires validators > 0 && Unsaturated(f, total, validators, authored)
    requires points == PointsFor(f, total, validators, authored) && exact == Exact(f, total, validators, authored)
    ensures Scaled(validators * points) <= exact < Scaled(validators * (points + 2))
  {
    var n, x := validators, Counted(f, total, validators, authored) * f.basePoints;
    var y := Max(total, validators) * f.basePoints;
    CountedIsCredited(f, total, n, authored);
    var block, other := BlockPart(f, total, n, authored), OtherPart(f, total, n, authored);
    assert OtherWeight(f, authored) == SharedWeight(f, authored);
    FloorLoss(f.blockWeight, x, block);
    TimesN(block, f.blockWeight * x, n);
    DividedLoss(SharedWeight(f, authored), y, n, other);
    AddLoss(n, block, other, f.blockWeight * x * n, SharedWeight(f, authored) * y, exact);
    SumBelow(n, block + other, U32_MAX);
  }

  lemma AddLoss(n: nat, block: nat, other: nat, a: nat, b: nat, exact: nat)
    requires Scaled(n * block) <= a < Scaled(n * block + n) && Scaled(n * other) <= b < Scaled(n * other + n)
    requires exact == a + b
    ensures Scaled(n * (block + other)) <= exact < Scaled(n * (block + other + 2))
  {
    assert n * (block + other) == n * block + n * other;
    assert n * (block + other + 2) == n * block + n + (n * other + n);
  }

  // ---- Whole sessions ----

  lemma {:induction false} AwardsReach(points: seq<nat>, validators: seq<Account>, exempt: seq<Account>, n: nat,
                                       who: Account)
    requires n <= |validators| == |points| && Distinct(validators)
    ensures who !in validators[..n] || who in exempt ==> AwardedTo(AwardsOf(points, validators, exempt, n), who) == 0
    ensures forall i :: 0 <= i < n && validators[i] == who && who !in exempt ==>
              AwardedTo(AwardsOf(points, validators, exempt, n), who) == points[i]
  {
    if n > 0 {
      var rows, last := AwardsOf(points, validators, exempt, n - 1), validators[n - 1];
      AwardsReach(points, validators, exempt, n - 1, who);
      AwardedAppend(rows, Row(last, points[n - 1]), who);
      assert rows + [] == rows;
      assert validators[..n] == validators[..n - 1] + [last];
      assert last !in validators[..n - 1];
    }
  }

  /** A session awards every validator that is not exempt its points, and nobody else. */
  lemma SessionReaches(f: Formula, authored: Table, validators: seq<Account>, exempt: seq<Account>, who: Account)
    requires Distinct(validators)
    ensures AwardedTo(SessionAwards(f, authored, validators, exempt), who) ==
            if who in validators && who !in exempt
            then PointsFor(f, Sum(authored), |validators|, Get(authored, who)) else 0
  {
    AwardsReach(SessionPoints(f, authored, validators), validators, exempt, |validators|, who);
    assert validators[..|validators|] == validators;
  }

  lemma OneMore(n: nat, p: nat)
    ensures n * p + p == (n + 1) * p && (p == 0 ==> n * p == 0)
  {
  }

  lemma {:induction false} EqualAwards(points: seq<nat>, validators: seq<Account>, p: nat, n: nat)
    requires n <= |validators| == |points| && forall i :: 0 <= i < |points| ==> points[i] == p
    ensures Sum(AwardsOf(points, validators, [], n)) == n * p
  {
    if n == 0 {
      OneMore(0, p);
    } else {
      var rows := AwardsOf(points, validators, [], n - 1);
      EqualAwards(points, validators, p, n - 1);
      SumAppend(rows, Row(validators[n - 1], points[n - 1]));
      assert rows + [] == rows;
      OneMore(n - 1, p);
    }
  }

  lemma FairShareCounts(f: Formula, n: nat, q: nat)
    requires n > 0 && q > 0
    ensures FairShare(n * q, n) == q && Counted(f, n * q, n, q) == q
  {
    ExactDiv(n, q, n * q);
    MulMono(n, n, 1, q);
    assert (1_000_000_000 + f.fairShareCap) * q == 1_000_000_000 * q + f.fairShareCap * q;
  }

  lemma FullValue(f: Formula, n: nat, q: nat)
    requires n > 0 && q > 0 && f.blockWeight + f.livenessWeight <= 1_000_000_000
    ensures Exact(f, n * q, n, q) == Scaled(n * (q * f.basePoints))
  {
    FairShareCounts(f, n, q);
    MulMono(n, n, 1, q);
    var x, y := q * f.basePoints, n * q * f.basePoints;
    assert y == n * x;
    assert f.blockWeight * x * n == f.blockWeight * y;
    assert f.blockWeight * y + SharedWeight(f, q) * y == (f.blockWeight + SharedWeight(f, q)) * y;
  }

  lemma PerValidator(n: nat, points: nat, value: nat)
    requires n > 0 && Scaled(n * points) <= Scaled(n * value) < Scaled(n * (points + 2))
    ensures n * points <= n * value < n * points + 2 * n
  {
  }

  /** A session in which nobody is exempt and every validator authors exactly its fair share
      pays out the pool, but for less than two points per validator. */
  lemma FullSessionPays(f: Formula, authored: Table, validators: seq<Account>, q: nat)
    requires validators != [] && q > 0 && f.blockWeight + f.livenessWeight <= 1_000_000_000
    requires Sum(authored) == |validators| * q && Unsaturated(f, |validators| * q, |validators|, q)
    requires forall i :: 0 <= i < |validators| ==> Get(authored, validators[i]) == q
    ensures
      var paid, pool := Sum(SessionAwards(f, authored, validators, [])), |validators| * (q * f.basePoints);
      paid <= pool < paid + 2 * |validators|
  {
    var n := |validators|;
    var p := PointsFor(f, n * q, n, q);
    PointsLaw(f, n * q, n, q, p, Exact(f, n * q, n, q));
    FullValue(f, n, q);
    PerValidator(n, p, q * f.basePoints);
    EqualAwards(SessionPoints(f, authored, validators), validators, p, n);
  }

  /** The settings of the mainnet: of two validators, the one that authors both blocks of a
      session gets 320 points, and the other the base guarantee of 32. */
  lemma MainnetSession()
    ensures
      var f := Formula(320, 600_000_000, 300_000_000, 500_000_000);
      PointsFor(f, 2, 2, 2) == 320 && PointsFor(f, 2, 2, 0) == 32
  {
  }
}
