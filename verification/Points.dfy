/**
 Reward points: the saturating u32 counters of an era, and the weighted formula that
 turns the blocks authored in a session into points.
 */
module Points {
  import opened Common

  const U32_MAX: nat := 0xFFFF_FFFF

  // The parts of a Perbill: one billion is 100%.
  const BILLION: nat := 1_000_000_000

  type Perbill = p: nat | p <= 1_000_000_000

  function Min(a: nat, b: nat): nat { if a <= b then a else b }

  function Max(a: nat, b: nat): nat { if a >= b then a else b }

  function SatAdd(a: nat, b: nat): nat { Min(U32_MAX, a + b) }

  function SatMul(a: nat, b: nat): nat { Min(U32_MAX, a * b) }

  // ---- Counters per account ----

  datatype Row = Row(who: Account, count: nat)

  /** A `BTreeMap<AccountId, u32>`: its rows in key order. */
  type Table = seq<Row>

  ghost predicate Ordered(t: Table) {
    && (forall i, j :: 0 <= i < j < |t| ==> t[i].who < t[j].who)
    && (forall i :: 0 <= i < |t| ==> t[i].count <= U32_MAX)
  }

  function Get(t: Table, who: Account): (n: nat) {
    if t == [] then 0 else if t[0].who == who then t[0].count else Get(t[1..], who)
  }

  /** `entry(who).or_default().saturating_accrue(n)`. */
  function Accrue(t: Table, who: Account, n: nat): (r: Table) {
    if t == [] || who < t[0].who then [Row(who, SatAdd(0, n))] + t
    else if t[0].who == who then [Row(who, SatAdd(t[0].count, n))] + t[1..]
    else [t[0]] + Accrue(t[1..], who, n)
  }

  function Sum(t: Table): (n: nat) {
    if t == [] then 0 else t[0].count + Sum(t[1..])
  }

  lemma {:induction false} GetAbsent(t: Table, who: Account)
    requires forall i :: 0 <= i < |t| ==> t[i].who != who
    ensures Get(t, who) == 0
  {
    if t != [] {
      GetAbsent(t[1..], who);
    }
  }

  lemma {:induction false} GetBounded(t: Table, who: Account)
    requires Ordered(t)
    ensures Get(t, who) <= U32_MAX && Get(t, who) <= Sum(t)
  {
    if t != [] && t[0].who != who {
      GetBounded(t[1..], who);
    }
  }

  lemma {:induction false} AccrueOrdered(t: Table, who: Account, n: nat)
    requires Ordered(t)
    ensures Ordered(Accrue(t, who, n))
    ensures Accrue(t, who, n)[0].who == if t == [] || who < t[0].who then who else t[0].who
    decreases |t|
  {
    if t != [] && t[0].who < who {
      AccrueOrdered(t[1..], who, n);
      var r := Accrue(t[1..], who, n);
      assert forall j :: 1 <= j < |r| ==> r[0].who < r[j].who;
    }
  }

  /** Crediting one account changes that counter alone. */
  lemma {:induction false} AccrueCredits(t: Table, who: Account, n: nat, other: Account)
    requires Ordered(t)
    ensures Get(Accrue(t, who, n), other) == if other == who then SatAdd(Get(t, who), n) else Get(t, other)
    decreases |t|
  {
    if t == [] || who < t[0].who {
      GetAbsent(t, who);
    } else if t[0].who != who {
      AccrueCredits(t[1..], who, n, other);
    }
  }

  lemma {:induction false} AccrueSum(t: Table, who: Account, n: nat)
    requires Ordered(t)
    ensures Sum(Accrue(t, who, n)) == Sum(t) - Get(t, who) + SatAdd(Get(t, who), n)
    decreases |t|
  {
    if t == [] || who < t[0].who {
      GetAbsent(t, who);
    } else if t[0].who != who {
      AccrueSum(t[1..], who, n);
    }
  }

  // ---- The points of one era ----

  datatype EraPoints = EraPoints(total: nat, individual: Table)

  const NO_POINTS := EraPoints(0, [])

  function Award(e: EraPoints, who: Account, n: nat): (r: EraPoints) {
    EraPoints(SatAdd(e.total, n), Accrue(e.individual, who, n))
  }

  /** `reward_by_ids`, on the points of the active era. */
  function AwardAll(e: EraPoints, awards: seq<Row>): (r: EraPoints) {
    if awards == [] then e
    else
      var last := awards[|awards| - 1];
      Award(AwardAll(e, awards[..|awards| - 1]), last.who, last.count)
  }

  /** What the awards give to one account. */
  function AwardedTo(rows: seq<Row>, who: Account): (n: nat) {
    if rows == [] then 0
    else
      var last := rows[|rows| - 1];
      AwardedTo(rows[..|rows| - 1], who) + (if last.who == who then last.count else 0)
  }

  lemma AwardedAppend(rows: seq<Row>, row: Row, who: Account)
    ensures AwardedTo(rows + [row], who) == AwardedTo(rows, who) + if row.who == who then row.count else 0
  {
    assert (rows + [row])[..|rows|] == rows;
  }

  ghost predicate TotalAgrees(e: EraPoints) {
    Ordered(e.individual) && e.total == Min(U32_MAX, Sum(e.individual))
  }

  lemma AwardAgrees(e: EraPoints, who: Account, n: nat)
    requires TotalAgrees(e)
    ensures TotalAgrees(Award(e, who, n))
  {
    GetBounded(e.individual, who);
    AccrueOrdered(e.individual, who, n);
    AccrueSum(e.individual, who, n);
  }

  /** After any awards the stored total is the sum of the individual points, capped at
      u32::MAX, even where individual entries saturate. */
  lemma {:induction false} TotalIsCappedSum(e: EraPoints, awards: seq<Row>)
    requires TotalAgrees(e)
    ensures TotalAgrees(AwardAll(e, awards))
    decreases |awards|
  {
    if awards != [] {
      var last := awards[|awards| - 1];
      TotalIsCappedSum(e, awards[..|awards| - 1]);
      AwardAgrees(AwardAll(e, awards[..|awards| - 1]), last.who, last.count);
    }
  }

  /** After any awards each account has what it was awarded in all, capped at u32::MAX. */
  lemma {:induction false} AwardsCredit(e: EraPoints, awards: seq<Row>, who: Account)
    requires TotalAgrees(e)
    ensures Get(AwardAll(e, awards).individual, who) == Min(U32_MAX, Get(e.individual, who) + AwardedTo(awards, who))
    decreases |awards|
  {
    if awards == [] {
      GetBounded(e.individual, who);
    } else {
      var before, last := awards[..|awards| - 1], awards[|awards| - 1];
      AwardsCredit(e, before, who);
      TotalIsCappedSum(e, before);
      AccrueCredits(AwardAll(e, before).individual, last.who, last.count, who);
    }
  }

  // ---- The session formula ----

  datatype Formula = Formula(basePoints: nat, blockWeight: Perbill, livenessWeight: Perbill, fairShareCap: Perbill)

  function MulFloor(p: nat, x: nat): nat { p * x / 1_000_000_000 }

  /** A number in parts of a billion. */
  function Scaled(x: nat): nat { 1_000_000_000 * x }

  function PerbillAdd(p: nat, q: nat): nat { Min(BILLION, p + q) }

  function PerbillSub(p: nat, q: nat): nat { if p >= q then p - q else 0 }

  datatype Weights = Weights(block: nat, liveness: nat, base: nat)

  /** The weights in force. The sum saturates at 100% before it is compared with 100%,
      so the rescaling branch is dead and an excess is kept. */
  function WeightsOf(f: Formula): (w: Weights) {
    var sum := PerbillAdd(f.blockWeight, f.livenessWeight);
    assert sum <= BILLION;
    Weights(f.blockWeight, f.livenessWeight, PerbillSub(PerbillSub(BILLION, f.blockWeight), f.livenessWeight))
  }

  function FairShare(total: nat, validators: nat): nat
    requires validators > 0
  {
    Max(1, total / validators)
  }

  function Credited(f: Formula, total: nat, validators: nat, authored: nat): nat
    requires validators > 0
  {
    var share := FairShare(total, validators);
    Min(authored, SatAdd(share, MulFloor(f.fairShareCap, share)))
  }

  function BlockPart(f: Formula, total: nat, validators: nat, authored: nat): nat
    requires validators > 0
  {
    MulFloor(WeightsOf(f).block, SatMul(Credited(f, total, validators, authored), f.basePoints))
  }

  function OtherWeight(f: Formula, authored: nat): nat {
    var score := if authored > 0 then BILLION else 0;
    PerbillAdd(WeightsOf(f).liveness * score / 1_000_000_000, WeightsOf(f).base)
  }

  function OtherPart(f: Formula, total: nat, validators: nat, authored: nat): nat
    requires validators > 0
  {
    MulFloor(OtherWeight(f, authored), SatMul(Max(total, validators), f.basePoints)) / validators
  }

  /** What one validator earns in a session of `total` blocks that it authored `authored` of. */
  function PointsFor(f: Formula, total: nat, validators: nat, authored: nat): (points: nat)
    requires validators > 0
  {
    SatAdd(BlockPart(f, total, validators, authored), OtherPart(f, total, validators, authored))
  }

  /** The points of every validator of a session, by position. */
  function SessionPoints(f: Formula, authored: Table, validators: seq<Account>): (r: seq<nat>)
    ensures |r| == |validators|
  {
    seq(|validators|, i requires 0 <= i < |validators| =>
      PointsFor(f, Sum(authored), |validators|, Get(authored, validators[i])))
  }

  /** The awards of the first `n` validators: none for an exempt one or for zero points. */
  function AwardsOf(points: seq<nat>, validators: seq<Account>, exempt: seq<Account>, n: nat): (r: seq<Row>)
    requires n <= |validators| == |points|
  {
    if n == 0 then []
    else
      var v := validators[n - 1];
      AwardsOf(points, validators, exempt, n - 1) +
      (if v !in exempt && points[n - 1] > 0 then [Row(v, points[n - 1])] else [])
  }

  function SessionAwards(f: Formula, authored: Table, validators: seq<Account>, exempt: seq<Account>): (r: seq<Row>) {
    AwardsOf(SessionPoints(f, authored, validators), validators, exempt, |validators|)
  }

  lemma MulMono(a: nat, b: nat, c: nat, d: nat)
    requires a <= b && c <= d
    ensures a * c <= b * d
  {
  }

  lemma MulOrder(d: nat, x: nat, y: nat)
    ensures y < x ==> d * y + d <= d * x
  {
    if y < x {
      MulMono(d, d, y + 1, x);
    }
  }

  lemma DivMono(a: nat, b: nat, d: nat)
    requires a <= b && d > 0
    ensures a / d <= b / d
  {
    assert d * (a / d) <= a && b < d * (b / d) + d;
    MulOrder(d, a / d, b / d);
  }

  lemma MulFloorMono(p: nat, q: nat, x: nat, y: nat)
    requires p <= q && x <= y
    ensures MulFloor(p, x) <= MulFloor(q, y)
  {
  }

  lemma OtherWeightMono(f: Formula, authored: nat, authored': nat)
    requires authored <= authored'
    ensures OtherWeight(f, authored) <= OtherWeight(f, authored')
  {
  }

  /** Points never fall when a validator's own blocks or the session's blocks rise. */
  lemma PointsMonotone(f: Formula, total: nat, total': nat, validators: nat, authored: nat, authored': nat)
    requires validators > 0 && total <= total' && authored <= authored'
    ensures PointsFor(f, total, validators, authored) <= PointsFor(f, total', validators, authored')
  {
    DivMono(total, total', validators);
    var share, share' := FairShare(total, validators), FairShare(total', validators);
    MulFloorMono(f.fairShareCap, f.fairShareCap, share, share');
    var credited, credited' := Credited(f, total, validators, authored), Credited(f, total', validators, authored');
    MulMono(credited, credited', f.basePoints, f.basePoints);
    var block := WeightsOf(f).block;
    MulFloorMono(block, block, SatMul(credited, f.basePoints), SatMul(credited', f.basePoints));
    OtherWeightMono(f, authored, authored');
    var pool, pool' := SatMul(Max(total, validators), f.basePoints), SatMul(Max(total', validators), f.basePoints);
    MulMono(Max(total, validators), Max(total', validators), f.basePoints, f.basePoints);
    MulFloorMono(OtherWeight(f, authored), OtherWeight(f, authored'), pool, pool');
    DivMono(MulFloor(OtherWeight(f, authored), pool), MulFloor(OtherWeight(f, authored'), pool'), validators);
  }

  // ---- Fair share ----

  /** The validators among the first `n` that are not exempt. */
  function Eligible(validators: seq<Account>, exempt: seq<Account>, n: nat): (count: nat)
    requires n <= |validators|
    ensures count <= n
    ensures count == n <==> forall i :: 0 <= i < n ==> validators[i] !in exempt
  {
    if n == 0 then 0 else Eligible(validators, exempt, n - 1) + (if validators[n - 1] in exempt then 0 else 1)
  }

  lemma ExactDiv(d: nat, k: nat, x: nat)
    requires d > 0 && x == d * k
    ensures x / d == k
  {
    assert d * (x / d) <= x < d * (x / d) + d;
    MulOrder(d, k, x / d);
    MulOrder(d, x / d, k);
  }

  lemma SharesDiffer(all: nat, eligible: nat, total: nat)
    requires 0 < eligible < all && total == all * eligible
    ensures FairShare(total, all) != FairShare(total, eligible)
  {
    ExactDiv(all, eligible, total);
    ExactDiv(eligible, all, total);
  }

  /** The documentation leaves exempt validators out of the fair share. The code divides by
      all validators of the session, which gives the documented share for every number of
      blocks exactly when none of them is exempt. */
  lemma FairShareIff(validators: seq<Account>, exempt: seq<Account>)
    requires Eligible(validators, exempt, |validators|) > 0
    ensures
      var all, eligible := |validators|, Eligible(validators, exempt, |validators|);
      (forall total: nat :: FairShare(total, all) == FairShare(total, eligible)) <==>
      (forall i :: 0 <= i < all ==> validators[i] !in exempt)
  {
    var all, eligible := |validators|, Eligible(validators, exempt, |validators|);
    if eligible < all {
      SharesDiffer(all, eligible, all * eligible);
    }
  }

  /** Two blocks and two validators, one of them exempt: the code's share is one block, the
      documented one two. */
  lemma FairShareDiffers()
    ensures
      var validators: seq<Account>, exempt: seq<Account> := [1, 2], [2];
      FairShare(2, |validators|) == 1 && Eligible(validators, exempt, 2) == 1 && FairShare(2, 1) == 2
  {
    var validators: seq<Account>, exempt: seq<Account> := [1, 2], [2];
    assert Eligible(validators, exempt, 1) == 1;
  }

  // ---- The session pool ----

  /** A session hands out at most its blocks' worth of base points, or one block's worth
      for each validator when fewer blocks than validators were made. */
  ghost predicate PoolBounded(f: Formula, authored: Table, validators: seq<Account>, exempt: seq<Account>) {
    Sum(SessionAwards(f, authored, validators, exempt)) <=
      f.basePoints * Max(Sum(authored), |validators|)
  }

  ghost predicate PoolAlwaysBounded(f: Formula) {
    forall authored, validators, exempt ::
      Distinct(validators) ==> PoolBounded(f, authored, validators, exempt)
  }

  /** The blocks of the non-exempt validators among the first `n`. */
  function AuthoredBy(authored: Table, validators: seq<Account>, exempt: seq<Account>, n: nat): (r: nat)
    requires n <= |validators|
  {
    if n == 0 then 0
    else
      AuthoredBy(authored, validators, exempt, n - 1) +
      (if validators[n - 1] in exempt then 0 else Get(authored, validators[n - 1]))
  }

  lemma {:induction false} AuthoredByFirstRow(t: Table, validators: seq<Account>, exempt: seq<Account>, n: nat)
    requires t != [] && n <= |validators| && Distinct(validators)
    ensures AuthoredBy(t, validators, exempt, n) <=
      AuthoredBy(t[1..], validators, exempt, n) + if t[0].who in validators[..n] then t[0].count else 0
  {
    if n > 0 {
      AuthoredByFirstRow(t, validators, exempt, n - 1);
      assert validators[..n] == validators[..n - 1] + [validators[n - 1]];
      assert validators[n - 1] !in validators[..n - 1];
    }
  }

  lemma {:induction false} AuthoredByAtMostTotal(t: Table, validators: seq<Account>, exempt: seq<Account>, n: nat)
    requires n <= |validators| && Distinct(validators)
    ensures AuthoredBy(t, validators, exempt, n) <= Sum(t)
    decreases |t|, n
  {
    if t == [] {
      if n > 0 {
        AuthoredByAtMostTotal(t, validators, exempt, n - 1);
      }
    } else {
      AuthoredByAtMostTotal(t[1..], validators, exempt, n);
      AuthoredByFirstRow(t, validators, exempt, n);
    }
  }

  lemma {:induction false} SumAppend(t: Table, row: Row)
    ensures Sum(t + [row]) == Sum(t) + row.count
  {
    if t != [] {
      SumAppend(t[1..], row);
      assert (t + [row])[1..] == t[1..] + [row];
    }
  }

  lemma MulFloorBelow(p: nat, x: nat)
    ensures Scaled(MulFloor(p, x)) <= p * x
  {
  }

  /** The most that liveness and base can give one validator. */
  function OtherShare(f: Formula, total: nat, validators: nat): (r: nat)
    requires validators > 0
  {
    MulFloor(WeightsOf(f).liveness + WeightsOf(f).base, SatMul(Max(total, validators), f.basePoints)) / validators
  }

  lemma OtherPartAtMostShare(f: Formula, total: nat, validators: nat, authored: nat)
    requires validators > 0
    ensures OtherPart(f, total, validators, authored) <= OtherShare(f, total, validators)
  {
    var pool := SatMul(Max(total, validators), f.basePoints);
    var weight := WeightsOf(f).liveness + WeightsOf(f).base;
    MulFloorMono(OtherWeight(f, authored), weight, pool, pool);
    DivMono(MulFloor(OtherWeight(f, authored), pool), MulFloor(weight, pool), validators);
  }

  lemma PointsAtMost(f: Formula, total: nat, validators: nat, authored: nat)
    requires validators > 0
    ensures Scaled(PointsFor(f, total, validators, authored)) <=
      f.blockWeight * f.basePoints * authored + Scaled(OtherShare(f, total, validators))
  {
    var credited := Credited(f, total, validators, authored);
    var scaled := SatMul(credited, f.basePoints);
    MulFloorBelow(f.blockWeight, scaled);
    MulMono(credited, authored, f.basePoints, f.basePoints);
    MulMono(f.blockWeight, f.blockWeight, scaled, authored * f.basePoints);
    MulReorder(f.blockWeight, authored, f.basePoints);
    OtherPartAtMostShare(f, total, validators, authored);
  }

  lemma MulReorder(a: nat, b: nat, c: nat)
    ensures a * (b * c) == a * c * b
  {
  }

  /** The limits of the non-exempt validators among the first `n`, added up. */
  function LimitsOf(limits: seq<nat>, validators: seq<Account>, exempt: seq<Account>, n: nat): (r: nat)
    requires n <= |validators| == |limits|
  {
    if n == 0 then 0
    else
      LimitsOf(limits, validators, exempt, n - 1) + (if validators[n - 1] in exempt then 0 else limits[n - 1])
  }

  lemma {:induction false} AwardsWithinLimits(points: seq<nat>, limits: seq<nat>, validators: seq<Account>,
                                              exempt: seq<Account>, n: nat)
    requires n <= |validators| == |points| == |limits|
    requires forall i :: 0 <= i < |points| ==> Scaled(points[i]) <= limits[i]
    ensures Scaled(Sum(AwardsOf(points, validators, exempt, n))) <= LimitsOf(limits, validators, exempt, n)
  {
    if n > 0 {
      AwardsWithinLimits(points, limits, validators, exempt, n - 1);
      var awards := AwardsOf(points, validators, exempt, n - 1);
      SumAppend(awards, Row(validators[n - 1], points[n - 1]));
      assert awards + [] == awards;
    }
  }

  lemma AddOneLimit(b: nat, o: nat, sum: nat, authored: nat, n: nat, blocks: nat)
    requires sum <= b * authored + Scaled(o * n)
    ensures sum <= b * authored + Scaled(o * (n + 1))
    ensures sum + (b * blocks + Scaled(o)) <= b * (authored + blocks) + Scaled(o * (n + 1))
  {
  }

  function Limits(authored: Table, validators: seq<Account>, b: nat, o: nat): (r: seq<nat>) {
    seq(|validators|, i requires 0 <= i < |validators| => b * Get(authored, validators[i]) + Scaled(o))
  }

  lemma {:induction false} LimitsAtMost(authored: Table, validators: seq<Account>, exempt: seq<Account>, n: nat,
                                        b: nat, o: nat)
    requires n <= |validators|
    ensures LimitsOf(Limits(authored, validators, b, o), validators, exempt, n) <=
      b * AuthoredBy(authored, validators, exempt, n) + Scaled(o * n)
  {
    if n > 0 {
      LimitsAtMost(authored, validators, exempt, n - 1, b, o);
      var limits := Limits(authored, validators, b, o);
      AddOneLimit(b, o, LimitsOf(limits, validators, exempt, n - 1),
                  AuthoredBy(authored, validators, exempt, n - 1), n - 1, Get(authored, validators[n - 1]));
    }
  }

  lemma OtherSharesAtMost(f: Formula, total: nat, validators: nat, o: nat)
    requires validators > 0 && o == (WeightsOf(f).liveness + WeightsOf(f).base) * f.basePoints
    ensures Scaled(OtherShare(f, total, validators) * validators) <= o * Max(total, validators)
  {
    var effective := Max(total, validators);
    var weight := WeightsOf(f).liveness + WeightsOf(f).base;
    var pool := SatMul(effective, f.basePoints);
    MulFloorBelow(weight, pool);
    assert OtherShare(f, total, validators) * validators <= MulFloor(weight, pool);
    MulMono(weight, weight, pool, effective * f.basePoints);
    MulReorder(weight, effective, f.basePoints);
  }

  lemma AwardsAtMost(f: Formula, authored: Table, validators: seq<Account>, exempt: seq<Account>, b: nat, o: nat)
    requires validators != [] && b == f.blockWeight * f.basePoints && o == OtherShare(f, Sum(authored), |validators|)
    ensures Scaled(Sum(SessionAwards(f, authored, validators, exempt))) <=
      b * AuthoredBy(authored, validators, exempt, |validators|) + Scaled(o * |validators|)
  {
    var points, limits := SessionPoints(f, authored, validators), Limits(authored, validators, b, o);
    forall i | 0 <= i < |validators| ensures Scaled(points[i]) <= limits[i] {
      PointsAtMost(f, Sum(authored), |validators|, Get(authored, validators[i]));
    }
    AwardsWithinLimits(points, limits, validators, exempt, |validators|);
    LimitsAtMost(authored, validators, exempt, |validators|, b, o);
  }

  lemma AddUp(sum: nat, b: nat, o: nat, authored: nat, other: nat, effective: nat, pool: nat)
    requires Scaled(sum) <= b * authored + Scaled(other)
    requires authored <= effective && Scaled(other) <= o * effective
    requires b * effective + o * effective == Scaled(pool)
    ensures sum <= pool
  {
  }

  lemma WeightsSum(f: Formula, effective: nat, b: nat, o: nat)
    requires f.blockWeight + f.livenessWeight <= BILLION
    requires b == f.blockWeight * f.basePoints && o == (WeightsOf(f).liveness + WeightsOf(f).base) * f.basePoints
    ensures b * effective + o * effective == Scaled(f.basePoints * effective)
  {
  }

  lemma PoolBoundFor(f: Formula, authored: Table, validators: seq<Account>, exempt: seq<Account>,
                     b: nat, o: nat, pool: nat)
    requires f.blockWeight + f.livenessWeight <= BILLION && Distinct(validators) && validators != []
    requires b == f.blockWeight * f.basePoints && o == (WeightsOf(f).liveness + WeightsOf(f).base) * f.basePoints
    requires pool == f.basePoints * Max(Sum(authored), |validators|)
    ensures Sum(SessionAwards(f, authored, validators, exempt)) <= pool
  {
    var n := |validators|;
    var blocks, share := AuthoredBy(authored, validators, exempt, n), OtherShare(f, Sum(authored), n);
    AwardsAtMost(f, authored, validators, exempt, b, share);
    OtherSharesAtMost(f, Sum(authored), n, o);
    AuthoredByAtMostTotal(authored, validators, exempt, n);
    WeightsSum(f, Max(Sum(authored), n), b, o);
    AddUp(Sum(SessionAwards(f, authored, validators, exempt)), b, o, blocks, share * n, Max(Sum(authored), n), pool);
  }

  /** The pool bound, where the two configured weights sum to at most 100%. */
  lemma PoolBoundHolds(f: Formula, authored: Table, validators: seq<Account>, exempt: seq<Account>)
    requires f.blockWeight + f.livenessWeight <= BILLION && Distinct(validators)
    ensures PoolBounded(f, authored, validators, exempt)
  {
    if validators != [] {
      PoolBoundFor(f, authored, validators, exempt, f.blockWeight * f.basePoints,
                   (WeightsOf(f).liveness + WeightsOf(f).base) * f.basePoints,
                   f.basePoints * Max(Sum(authored), |validators|));
    }
  }

  /** The session that breaks the bound as soon as the weights sum to more than 100%: one
      validator, one block, and a billion base points, so that no floor loses anything. */
  lemma ExcessWeightsBreakPool(f: Formula)
    requires f.blockWeight + f.livenessWeight > BILLION && f.basePoints == BILLION
    ensures !PoolBounded(f, [Row(7, 1)], [7], [])
  {
    var authored: Table, validators: seq<Account> := [Row(7, 1)], [7];
    assert Sum(authored) == 1 && Get(authored, 7) == 1;
    var points := PointsFor(f, 1, 1, 1);
    assert BlockPart(f, 1, 1, 1) == f.blockWeight;
    assert OtherPart(f, 1, 1, 1) == f.livenessWeight;
    var all := SessionPoints(f, authored, validators);
    assert all[0] == points;
    assert AwardsOf(all, validators, [], 1) == AwardsOf(all, validators, [], 0) + [Row(7, points)];
  }

  /** The documentation promises the pool for every configuration; the code keeps it for
      every session and base-point setting exactly when the weights sum to at most 100%. */
  lemma PoolBoundedIffWeights(block: Perbill, liveness: Perbill)
    ensures block + liveness <= BILLION <==>
      forall basePoints, cap: Perbill :: PoolAlwaysBounded(Formula(basePoints, block, liveness, cap))
  {
    if block + liveness <= BILLION {
      forall basePoints: nat, cap: Perbill, authored: Table, validators: seq<Account>, exempt: seq<Account>
        | Distinct(validators)
        ensures PoolBounded(Formula(basePoints, block, liveness, cap), authored, validators, exempt)
      {
        PoolBoundHolds(Formula(basePoints, block, liveness, cap), authored, validators, exempt);
      }
    } else {
      var f := Formula(BILLION, block, liveness, 0);
      ExcessWeightsBreakPool(f);
      assert Distinct([7]);
      assert !PoolAlwaysBounded(f);
    }
  }
}
