/** Why two quorums meet, why an era's total covers its stakers, and why exclusion spares somebody. */
module StakeFacts {
  import opened Base
  import opened Sums
  import opened Lpos
  import opened Observations

  // ---------------------------------------------------------------- stored stakes

  function WeightSum(validators: seq<(AccountId, nat)>): nat {
    if validators == [] then 0
    else WeightSum(validators[..|validators| - 1]) + validators[|validators| - 1].1
  }

  ghost predicate DistinctAccounts(validators: seq<(AccountId, nat)>) {
    forall i, j :: 0 <= i < j < |validators| ==> validators[i].0 != validators[j].0
  }

  ghost function Accounts(validators: seq<(AccountId, nat)>): set<AccountId> {
    set i | 0 <= i < |validators| :: validators[i].0
  }

  lemma {:induction false} TotalIsCappedSum(validators: seq<(AccountId, nat)>)
    ensures TotalFrom(validators) == if WeightSum(validators) <= U128_MAX then WeightSum(validators) else U128_MAX
  {
    if validators != [] {
      TotalIsCappedSum(validators[..|validators| - 1]);
    }
  }

  /** Exactly the listed accounts are stored, with at most their listed weight altogether. */
  lemma {:induction false} StakersSum(validators: seq<(AccountId, nat)>)
    ensures var m := StakersFrom(map[], validators);
            && SumSet(m.Keys, m) <= WeightSum(validators)
            && (DistinctAccounts(validators) ==> SumSet(m.Keys, m) == WeightSum(validators))
            && m.Keys == Accounts(validators)
  {
    if validators != [] {
      var front := validators[..|validators| - 1];
      var (who, weight) := validators[|validators| - 1];
      var m := StakersFrom(map[], front);
      StakersSum(front);
      SumSetUpdate(m, who, weight);
      assert Accounts(validators) == Accounts(front) + {who} by {
        assert validators == front + [(who, weight)];
      }
      assert DistinctAccounts(validators) ==> DistinctAccounts(front) && who !in m;
    }
  }

  /**
   * The stored total covers the stored stakes exactly when the stakes fit 128 bits together;
   * with distinct accounts and no saturation the two are equal.
   */
  lemma TotalCoversStakers(validators: seq<(AccountId, nat)>)
    ensures var m := StakersFrom(map[], validators);
            && (SumSet(m.Keys, m) <= TotalFrom(validators) <==> SumSet(m.Keys, m) <= U128_MAX)
            && (DistinctAccounts(validators) && WeightSum(validators) <= U128_MAX ==>
                  SumSet(m.Keys, m) == TotalFrom(validators))
  {
    TotalIsCappedSum(validators);
    StakersSum(validators);
  }

  /** What an account's last entry in a set gives it, or nothing if it has no entry. */
  ghost predicate Weighs(validators: seq<(AccountId, nat)>, who: AccountId, stake: nat) {
    || (exists i :: 0 <= i < |validators| && validators[i] == (who, stake) && who !in Accounts(validators[i + 1..]))
    || (stake == 0 && who !in Accounts(validators))
  }

  lemma {:induction false} StakersWeigh(validators: seq<(AccountId, nat)>, who: AccountId)
    ensures Weighs(validators, who, Get(StakersFrom(map[], validators), who, 0))
    decreases |validators|
  {
    if validators != [] {
      var n := |validators| - 1;
      var front, stake := validators[..n], Get(StakersFrom(map[], validators), who, 0);
      StakersWeigh(front, who);
      if validators[n].0 == who {
        assert validators[n] == (who, stake) && who !in Accounts(validators[n + 1..]);
      } else if i :| 0 <= i < n && front[i] == (who, stake) && who !in Accounts(front[i + 1..]) {
        assert validators[i + 1..] == front[i + 1..] + [validators[n]];
        assert validators[i] == (who, stake) && who !in Accounts(validators[i + 1..]);
      } else {
        assert who !in Accounts(validators);
      }
    }
  }

  /** A vote weighs what the mainchain reported: the stake of the account's last entry in the planned set. */
  lemma {:induction false} StakeAsReported(validators: seq<Validator>, i: nat)
    requires i < |validators| && forall j :: i < j < |validators| ==> validators[j].id != validators[i].id
    ensures var m := StakersFrom(map[], PlannedSet(validators));
            validators[i].id in m && m[validators[i].id] == validators[i].totalStake
    decreases |validators|
  {
    var front := validators[..|validators| - 1];
    assert PlannedSet(validators)[..|validators| - 1] == PlannedSet(front);
    if i < |front| {
      StakeAsReported(front, i);
    }
  }

  // ---------------------------------------------------------------- quorums

  /**
   * Two voter sets that each hold more than two thirds of a total covering all stakes
   * share voters holding more than one third of it.
   */
  lemma QuorumsIntersect(xs: set<AccountId>, ys: set<AccountId>, of: map<AccountId, nat>, total: nat)
    requires SumSet(of.Keys, of) <= total
    requires 3 * SumSet(xs, of) > 2 * total && 3 * SumSet(ys, of) > 2 * total
    ensures 3 * SumSet(xs * ys, of) > total
  {
    InclusionExclusion(xs, ys, of);
    SumSetRestrict(xs + ys, of);
  }

  // ---------------------------------------------------------------- reward points

  ghost predicate PointsAddUp(points: RewardPoints) {
    points.total == SumSet(points.individual.Keys, points.individual)
  }

  lemma CreditAddsUp(points: RewardPoints, who: AccountId, n: nat)
    requires PointsAddUp(points)
    ensures PointsAddUp(RewardPoints(points.total + n, points.individual[who := Get(points.individual, who, 0) + n]))
  {
    SumSetUpdate(points.individual, who, Get(points.individual, who, 0) + n);
  }

  /** Rewarding keeps the total equal to the sum of the individual points, repeated accounts included. */
  lemma {:induction false} AddPointsAddsUp(points: RewardPoints, earned: seq<(AccountId, nat)>)
    requires PointsAddUp(points)
    ensures PointsAddUp(AddPoints(points, earned))
    ensures AddPoints(points, earned).total == points.total + WeightSum(earned)
  {
    if earned != [] {
      var before := AddPoints(points, earned[..|earned| - 1]);
      var (who, n) := earned[|earned| - 1];
      AddPointsAddsUp(points, earned[..|earned| - 1]);
      CreditAddsUp(before, who, n);
    }
  }

  /**
   * Excluded are exactly the stakers without points, and those at least one point below a hundredth of 80 times the
   * average, kept in 32 bits. Those are all at least a point below four fifths of the average and, as long as
   * nothing wraps, all that are.
   */
  lemma ExcludedMeans(stakers: map<AccountId, nat>, points: RewardPoints, v: AccountId)
    requires points.individual != map[] && stakers != map[] && |stakers.Keys| > 0
    ensures var average := points.total / |stakers|;
            var earned := Get(points.individual, v, 0);
            var below := v in points.individual ==> 5 * (earned + 1) <= 4 * average;
            && (v in Excluded(stakers, points) <==>
                  v in stakers && (v in points.individual ==> 100 * (earned + 1) <= WrapU32(average * 80)))
            && (v in Excluded(stakers, points) ==> below)
            && (average * 80 <= U32_MAX ==> (v in Excluded(stakers, points) <==> v in stakers && below))
  {
    if v in points.individual {
      FourFifths(points.total / |stakers|, points.individual[v]);
    }
  }

  lemma FourFifths(average: nat, earned: nat)
    ensures earned < WrapU32(average * 80) / 100 ==> 5 * (earned + 1) <= 4 * average
    ensures average * 80 <= U32_MAX ==> (earned < WrapU32(average * 80) / 100 <==> 5 * (earned + 1) <= 4 * average)
  {}

  /** Every report of an account counts once, and other kinds of offence are left alone. */
  lemma {:induction false} OffencesAddUp(offenders: map<(string, AccountId), nat>, kind: string, who: seq<AccountId>,
                                         other: string, a: AccountId)
    ensures Get(CountOffences(offenders, kind, who), (other, a), 0)
         == Get(offenders, (other, a), 0) + if other == kind then multiset(who)[a] else 0
  {
    if who != [] {
      var front, last := who[..|who| - 1], who[|who| - 1];
      assert who == front + [last];
      OffencesAddUp(offenders, kind, front, other, a);
    }
  }

  /** What an account's own entries add up to. */
  function EarnedBy(earned: seq<(AccountId, nat)>, a: AccountId): nat {
    if earned == [] then 0
    else
      EarnedBy(earned[..|earned| - 1], a) + if earned[|earned| - 1].0 == a then earned[|earned| - 1].1 else 0
  }

  /** Every account is credited its own entries and nothing else; who is listed has an entry from then on. */
  lemma {:induction false} AddPointsCredits(points: RewardPoints, earned: seq<(AccountId, nat)>, a: AccountId)
    ensures var after := AddPoints(points, earned).individual;
            && Get(after, a, 0) == Get(points.individual, a, 0) + EarnedBy(earned, a)
            && (a in after <==> a in points.individual || exists i :: 0 <= i < |earned| && earned[i].0 == a)
  {
    if earned != [] {
      var front, last := earned[..|earned| - 1], earned[|earned| - 1];
      AddPointsCredits(points, front, a);
      assert last == earned[|earned| - 1];
      assert forall i :: 0 <= i < |front| ==> front[i] == earned[i];
    }
  }

  lemma {:induction false} SumSetAtMost(s: set<AccountId>, m: map<AccountId, nat>, c: nat)
    requires forall a :: a in s ==> Get(m, a, 0) <= c
    ensures SumSet(s, m) <= |s| * c
    decreases s
  {
    if s != {} {
      var x :| x in s;
      SumSetRemove(s, m, x);
      SumSetAtMost(s - {x}, m, c);
      OneMore(|s - {x}|, c);
    }
  }

  lemma OneMore(k: nat, c: nat)
    ensures (k + 1) * c == k * c + c
  {}

  /**
   * If somebody earned a point and only stakers did, at least one staker stays in the payout:
   * not every earner can lie below four fifths of the average.
   */
  lemma ExclusionSparesSomeone(stakers: map<AccountId, nat>, points: RewardPoints)
    requires PointsAddUp(points) && points.individual != map[]
    requires points.individual.Keys <= stakers.Keys && stakers != map[]
    ensures exists v :: v in stakers && v !in Excluded(stakers, points)
  {
    var n, earners := |stakers|, points.individual.Keys;
    var average := points.total / n;
    var expected := ExpectedPoints(points.total, n);
    assert expected <= average;
    var e :| e in earners;
    if forall v :: v in stakers ==> v in Excluded(stakers, points) {
      assert e in Excluded(stakers, points);
      assert average >= 1;
      forall a | a in earners ensures Get(points.individual, a, 0) <= average - 1 {
        assert a in Excluded(stakers, points);
      }
      SumSetAtMost(earners, points.individual, average - 1);
      SubsetSize(earners, stakers.Keys);
      FewerThanTotal(|earners|, n, average, points.total);
    }
  }

  lemma {:induction false} SubsetSize<T>(s: set<T>, t: set<T>)
    requires s <= t
    ensures |s| <= |t|
    decreases s
  {
    if s != {} {
      var x :| x in s;
      SubsetSize(s - {x}, t - {x});
    }
  }

  lemma FewerThanTotal(k: nat, n: nat, average: nat, total: nat)
    requires k <= n && 1 <= average && 0 < n && average == total / n
    ensures k * (average - 1) < total
  {
    assert average * n <= total;
    assert k * (average - 1) <= n * (average - 1);
    assert n * (average - 1) == average * n - n;
  }
}
