/** The staking pallet: era storage updated in place by the session driver and by root. */
module LposPallet {
  import opened Base
  import opened Payloads
  import opened Ledger
  import opened Lpos
  import opened Sums
  import UpwardMessages

  lemma RemoveNothing(eras: Eras)
    ensures eras.Remove({}) == eras
  {}

  lemma RemoveOneMore(eras: Eras, first: nat, end: nat)
    requires first <= end
    ensures eras.Remove(Range(first, end)).Remove({end}) == eras.Remove(Range(first, end + 1))
  {}

  /** The accounts of a validator list, in its order: what the session pallet is told. */
  function AccountsOf(validators: seq<(AccountId, nat)>): (accounts: seq<AccountId>)
    ensures |accounts| == |validators| && forall i :: 0 <= i < |validators| ==> accounts[i] == validators[i].0
  {
    seq(|validators|, i requires 0 <= i < |validators| => validators[i].0)
  }

  class Pallet {
    const cfg: Config
    const currency: Balances
    const messages: UpwardMessages.MessagePallet
    var historyDepth: nat
    var currentEra: Option<nat>
    var activeEra: Option<ActiveEraInfo>
    var eras: Eras
    var bondedEras: seq<(nat, nat)>
    var currentPlannedSession: nat
    var eraPayout: nat
    var offenders: map<(string, AccountId), nat>
    ghost var plannedEras: seq<PlannedEra>
    ghost var startedEras: seq<nat>
    ghost var endedEras: seq<nat>
    ghost var announced: seq<nat>
    ghost var payouts: seq<Payout>

    constructor (cfg: Config, currency: Balances, messages: UpwardMessages.MessagePallet, historyDepth: nat,
                 eraPayout: nat)
      requires messages.cfg == cfg.messages
      ensures this.cfg == cfg && this.currency == currency && this.messages == messages && Wired()
      ensures View() == LposState(historyDepth, None, None, Eras(map[], map[], map[], map[], map[]), [], 0, eraPayout,
                                  map[], Log([], [], [], [], []))
    {
      this.cfg, this.currency, this.messages := cfg, currency, messages;
      this.historyDepth, currentEra, activeEra := historyDepth, None, None;
      eras := Eras(map[], map[], map[], map[], map[]);
      bondedEras, currentPlannedSession, this.eraPayout, offenders := [], 0, eraPayout, map[];
      plannedEras, startedEras, endedEras, announced, payouts := [], [], [], [], [];
    }

    ghost predicate Wired() {
      messages.cfg == cfg.messages
    }

    ghost function View(): LposState
      reads this
    {
      LposState(historyDepth, currentEra, activeEra, eras, bondedEras, currentPlannedSession, eraPayout,
                offenders, Log(plannedEras, startedEras, endedEras, announced, payouts))
    }

    ghost function SharedView(): Shared
      reads currency, messages
    {
      Shared(currency.free, messages.View())
    }

    // -------------------------------------------------------------- what the voting pallet asks

    method ActiveStakeOf(who: AccountId) returns (stake: nat)
      ensures stake == View().ActiveStakeOf(who)
    {
      if activeEra.None? {
        return 0;
      }
      return Get(eras.StakersOf(activeEra.value.index), who, 0);
    }

    method ActiveTotalStake() returns (total: Option<nat>)
      ensures total == View().ActiveTotalStake()
    {
      if activeEra.None? {
        return None;
      }
      return Some(Get(eras.totalStake, activeEra.value.index, 0));
    }

    // -------------------------------------------------------------- era storage

    method ClearEraInformation(era: nat)
      modifies this`eras
      ensures eras == old(eras).Remove({era})
    {
      eras := eras.(stakers := eras.stakers - {era});
      eras := eras.(validatorReward := eras.validatorReward - {era});
      eras := eras.(rewardPoints := eras.rewardPoints - {era});
      eras := eras.(totalStake := eras.totalStake - {era});
      eras := eras.(startIndex := eras.startIndex - {era});
    }

    method StoreStakersInfo(validators: seq<(AccountId, nat)>, era: nat) returns (elected: seq<AccountId>)
      modifies this`eras
      ensures eras == old(eras).StoreStakersInfo(validators, era)
      ensures elected == AccountsOf(validators)
    {
      var total := 0;
      var stakers := eras.StakersOf(era);
      elected := [];
      var i := 0;
      while i < |validators|
        invariant 0 <= i <= |validators| && eras == old(eras)
        invariant total == TotalFrom(validators[..i])
        invariant stakers == StakersFrom(old(eras).StakersOf(era), validators[..i])
        invariant elected == AccountsOf(validators[..i])
      {
        var (who, weight) := validators[i];
        assert validators[..i + 1][..i] == validators[..i];
        elected := elected + [who];
        total := SaturatingAddU128(total, weight);
        stakers := stakers[who := weight];
        i := i + 1;
      }
      assert validators[..|validators|] == validators;
      eras := eras.(stakers := eras.stakers[era := stakers]);
      eras := eras.(totalStake := eras.totalStake[era := total]);
    }

    method TriggerNewEra(start: nat, app: Appchain) returns (elected: seq<AccountId>)
      modifies this`currentEra, this`eras, this`plannedEras
      ensures View() == old(View()).TriggerNewEra(start, app)
      ensures elected == AccountsOf(app.planned)
    {
      var era := if currentEra.Some? then currentEra.value + 1 else 0;
      currentEra := Some(era);
      eras := eras.(startIndex := eras.startIndex[era := start]);
      if era >= historyDepth + 1 {
        ClearEraInformation(era - (historyDepth + 1));
      } else {
        RemoveNothing(eras);
      }
      elected := StoreStakersInfo(app.planned, era);
      plannedEras := plannedEras + [PlannedEra(start, app.nextSetId, app.planned)];
    }

    method ClearEras(first: nat, end: nat)
      modifies this`eras
      ensures eras == old(eras).Remove(Range(first, end))
    {
      RemoveNothing(eras);
      var era := first;
      while era < end
        invariant first <= era && (era <= end || era == first)
        invariant eras == old(eras).Remove(Range(first, era))
      {
        RemoveOneMore(old(eras), first, era);
        ClearEraInformation(era);
        era := era + 1;
      }
      assert Range(first, era) == Range(first, end);
    }

    method SetHistoryDepth(depth: nat)
      modifies this`historyDepth, this`eras
      ensures View() == old(View()).SetHistoryDepth(depth)
    {
      if currentEra.None? {
        return;
      }
      ClearEras(SaturatingSub(currentEra.value, historyDepth), SaturatingSub(currentEra.value, depth));
      historyDepth := depth;
    }

    // -------------------------------------------------------------- sessions

    method NewSession(session: nat, app: Appchain) returns (elected: Option<seq<AccountId>>)
      requires Wired()
      modifies this, messages`nonce, messages`messageQueue
      ensures (View(), SharedView()) == old(View()).NewSession(cfg, old(SharedView()), session, app)
      ensures elected == if |plannedEras| > |old(plannedEras)| then Some(AccountsOf(app.planned)) else None
    {
      currentPlannedSession := session;
      if currentEra.Some? {
        var eraLength := SaturatingSub(session, Get(eras.startIndex, currentEra.value, 0));
        if eraLength < cfg.sessionsPerEra {
          if app.isActivated && eraLength == cfg.sessionsPerEra - 1 {
            announced := announced + [currentEra.value];
            var _ := messages.Submit(PlanNewEraPayload(app.nextSetId));
          }
          return None;
        }
      }
      var stashes := TriggerNewEra(session, app);
      return Some(stashes);
    }

    method StartEra(session: nat, app: Appchain)
      requires 0 < app.nextSetId
      modifies this`activeEra, this`bondedEras, this`startedEras
      ensures View() == old(View()).StartEra(session, app)
    {
      var index := if activeEra.Some? then activeEra.value.index + 1 else 0;
      activeEra := Some(ActiveEraInfo(index, app.nextSetId - 1, None));
      bondedEras := bondedEras + [(index, session)];
      startedEras := startedEras + [app.nextSetId];
    }

    method StartSession(session: nat, app: Appchain)
      requires 0 < app.nextSetId
      modifies this`activeEra, this`bondedEras, this`startedEras
      ensures View() == old(View()).StartSession(session, app)
    {
      var next := if activeEra.Some? then activeEra.value.index + 1 else 0;
      if next in eras.startIndex {
        if eras.startIndex[next] == session {
          StartEra(session, app);
        } else if eras.startIndex[next] < session {
          StartEra(session, app);
        }
      }
    }

    /** Keeps the stakers that no qualified validator matches. */
    method GetExcludeValidators(era: nat) returns (validators: seq<AccountId>)
      requires eras.PointsOf(era).individual != map[] ==> eras.StakersOf(era) != map[]
      ensures Elements(validators) == Excluded(eras.StakersOf(era), eras.PointsOf(era))
      ensures NoDup(validators)
    {
      var stakers := eras.StakersOf(era);
      var points := eras.PointsOf(era);
      var all := Listed(stakers.Keys);
      if points.individual == map[] {
        return all;
      }
      assert |stakers.Keys| > 0;
      var expected := ExpectedPoints(points.total, |stakers|);
      validators := [];
      for i := 0 to |all|
        invariant forall v :: v in validators <==> v in all[..i] && v in Excluded(stakers, points)
        invariant NoDup(validators)
      {
        assert all[i] !in all[..i];
        var qualified := all[i] in points.individual && points.individual[all[i]] >= expected;
        if !qualified {
          validators := validators + [all[i]];
        }
      }
    }

    /** The keys of a storage prefix, each once. */
    static method Listed(keys: set<AccountId>) returns (list: seq<AccountId>)
      ensures forall v :: v in list <==> v in keys
      ensures NoDup(list)
    {
      list := [];
      var rest := keys;
      while rest != {}
        invariant rest <= keys
        invariant forall v :: v in list <==> v in keys && v !in rest
        invariant NoDup(list)
        decreases |rest|
      {
        var v :| v in rest;
        list := list + [v];
        rest := rest - {v};
      }
    }

    method EndEra(app: Appchain) returns (ok: bool)
      requires Wired() && View().activeEra.Some? && (View().OwesPayout(app) ==> View().CanExclude())
      modifies this`eras, this`offenders, this`payouts, currency, messages`nonce, messages`messageQueue
      ensures (View(), SharedView()) == old(View()).EndEra(cfg, old(SharedView()), app)
      ensures ok <==> (old(View()).OwesPayout(app) ==> eraPayout <= cfg.maxBalance)
    {
      if !app.isActivated || eraPayout == 0 {
        return true;
      }
      var era := activeEra.value;
      if era.start.None? {
        return true;
      }
      if era.index in eras.validatorReward {
        return true;
      }
      eras := eras.(validatorReward := eras.validatorReward[era.index := eraPayout]);
      var excluded := GetExcludeValidators(era.index);
      var drained := offenders;
      offenders := map[];
      if eraPayout > cfg.maxBalance {
        payouts := payouts + [Payout(era.index, eraPayout, false)];
        return false;
      }
      currency.DepositCreating(cfg.payoutAccount, eraPayout);
      payouts := payouts + [Payout(era.index, eraPayout, true)];
      var _ := messages.Submit(EraPayoutPayload(era.setId, Elements(excluded), drained));
      return true;
    }

    method EndSession(session: nat, app: Appchain) returns (ok: bool)
      requires Wired() && !View().Aborts(session, app)
      modifies this`eras, this`offenders, this`payouts, this`endedEras,
               currency, messages`nonce, messages`messageQueue
      ensures (View(), SharedView()) == old(View()).EndSession(cfg, old(SharedView()), session, app)
      ensures ok <==> (old(View()).EndsEra(session) && old(View()).OwesPayout(app) ==> eraPayout <= cfg.maxBalance)
    {
      ok := true;
      if activeEra.Some? {
        var next := activeEra.value.index + 1;
        if next in eras.startIndex && eras.startIndex[next] == session + 1 {
          ok := EndEra(app);
          endedEras := endedEras + [activeEra.value.index];
        }
      }
    }

    method OnFinalize(now: nat)
      modifies this`activeEra
      ensures View() == old(View()).OnFinalize(now)
    {
      if activeEra.Some? && activeEra.value.start.None? {
        activeEra := Some(activeEra.value.(start := Some(now)));
      }
    }

    // -------------------------------------------------------------- rewards and offences

    method RewardByIds(earned: seq<(AccountId, nat)>)
      modifies this`eras
      ensures View() == old(View()).RewardByIds(earned)
    {
      if activeEra.None? {
        return;
      }
      var era := activeEra.value.index;
      var points := eras.PointsOf(era);
      for i := 0 to |earned|
        invariant points == AddPoints(old(eras).PointsOf(era), earned[..i])
      {
        assert earned[..i + 1][..i] == earned[..i];
        var (who, n) := earned[i];
        points := RewardPoints(points.total, points.individual[who := Get(points.individual, who, 0) + n]);
        points := points.(total := points.total + n);
      }
      assert earned[..|earned|] == earned;
      eras := eras.(rewardPoints := eras.rewardPoints[era := points]);
    }

    method ReportOffence(kind: string, session: nat, who: seq<AccountId>)
      modifies this`offenders
      ensures View() == old(View()).ReportOffence(kind, session, who)
    {
      if bondedEras == [] || session < bondedEras[0].1 {
        return;
      }
      for i := 0 to |who|
        invariant offenders == CountOffences(old(offenders), kind, who[..i])
      {
        assert who[..i + 1][..i] == who[..i];
        offenders := offenders[(kind, who[i]) := Get(offenders, (kind, who[i]), 0) + 1];
      }
      assert who[..|who|] == who;
    }
  }
}
