/** The appchain pallet: voting storage updated in place, each observation rolled back when it fails. */
module AppchainPallet {
  import opened Base
  import opened Sums
  import opened Observations
  import opened Voting
  import Bridge
  import BridgePallet

  class Pallet {
    const requestEventLimit: nat
    const maxValidators: nat
    const bridge: BridgePallet.Pallet
    ghost const p: Params
    var nextSetId: nat
    var plannedValidators: seq<(AccountId, nat)>
    var nextNotificationId: nat
    var observations: map<(ObservationType, nat), seq<Observation>>
    var observing: map<Observation, seq<AccountId>>
    var notificationHistory: map<nat, NotificationResult>
    ghost var delivered: seq<Delivery>
    ghost var installed: seq<Observation>

    /** Set 0 is in force from genesis, so the first set expected from the mainchain is set 1. */
    constructor (requestEventLimit: nat, maxValidators: nat, bridge: BridgePallet.Pallet,
                 validators: seq<(AccountId, nat)>)
      requires bridge.Wired()
      ensures p == Params(requestEventLimit, maxValidators, Bridge.InterfaceOf(bridge.cfg))
      ensures this.bridge == bridge && Wired()
      ensures View() == VotingState(1, validators, 0, map[], map[], map[], bridge.View(), [], [])
    {
      this.requestEventLimit, this.maxValidators, this.bridge := requestEventLimit, maxValidators, bridge;
      p := Params(requestEventLimit, maxValidators, Bridge.InterfaceOf(bridge.cfg));
      nextSetId, plannedValidators, nextNotificationId := 1, validators, 0;
      observations, observing, notificationHistory := map[], map[], map[];
      delivered, installed := [], [];
    }

    /** The specification's parameters are the pallet's limits and the bridge it calls. */
    ghost predicate Wired() {
      p == Params(requestEventLimit, maxValidators, Bridge.InterfaceOf(bridge.cfg)) && bridge.Wired()
    }

    ghost function View(): VotingState
      reads this, bridge, bridge.currency, bridge.messages
    {
      VotingState(nextSetId, plannedValidators, nextNotificationId, observations, observing, notificationHistory,
                  bridge.View(), delivered, installed)
    }

    method IncreaseNextNotificationId() returns (r: Result<(), VoteError>)
      modifies this`nextNotificationId
      ensures r == if old(nextNotificationId) == U32_MAX then Err(NextNotificationIdOverflow) else Ok(())
      ensures nextNotificationId == old(nextNotificationId) + if r.Ok? then 1 else 0
    {
      if nextNotificationId == U32_MAX {
        return Err(NextNotificationIdOverflow);
      }
      nextNotificationId := nextNotificationId + 1;
      return Ok(());
    }

    method IncreaseNextSetId() returns (r: Result<(), VoteError>)
      modifies this`nextSetId
      ensures r == if old(nextSetId) == U32_MAX then Err(NextSetIdOverflow) else Ok(())
      ensures nextSetId == old(nextSetId) + if r.Ok? then 1 else 0
    {
      if nextSetId == U32_MAX {
        return Err(NextSetIdOverflow);
      }
      nextSetId := nextSetId + 1;
      return Ok(());
    }

    method CheckObservation(o: Observation) returns (r: Option<VoteError>)
      requires Wired()
      ensures r == View().Check(p, o)
    {
      match o
      case UpdateValidatorSet(setId, _) =>
        if setId != nextSetId {
          return Some(WrongSetId);
        }
        return None;
      case _ =>
        var end := WrapU32(nextNotificationId + requestEventLimit);
        if o.Index() < nextNotificationId || o.Index() >= end {
          return Some(InvalidNotificationId);
        }
        return None;
    }

    /** Adds up the stakes of the recorded voters in 128-bit arithmetic. */
    method StakeOf(o: Observation, stakes: Stakes) returns (stake: nat)
      ensures stake == WrapU128(SumList(View().Voters(o), stakes.of))
    {
      var voters := Get(observing, o, []);
      stake := 0;
      for i := 0 to |voters|
        invariant stake == WrapU128(SumList(voters[..i], stakes.of))
      {
        assert voters[..i + 1][..i] == voters[..i];
        WrapAdd(SumList(voters[..i], stakes.of), Get(stakes.of, voters[i], 0));
        stake := WrapU128(stake + Get(stakes.of, voters[i], 0));
      }
      assert voters[..|voters|] == voters;
    }

    /** The bridge call a notification asks for; a failed call is recorded, not raised. */
    method CallBridge(o: Observation) returns (result: NotificationResult)
      requires Wired() && o.IsNotification()
      modifies bridge, bridge.currency
      ensures var (call, failure) := old(View()).CallFor(o);
              var outcome := p.bridge(old(bridge.View()), call);
              && bridge.View() == old(bridge.View()).After(outcome)
              && result == if outcome.Ok? then Success else failure
    {
      match o
      case Burn(index, senderId, receiver, amount) =>
        var done := bridge.Unlock(senderId, receiver, amount, index);
        return if done.Ok? then Success else UnlockFailed;
      case LockAsset(index, tokenId, senderId, receiver, amount) =>
        var done := bridge.MintNep141(tokenId, senderId, receiver, amount, index);
        return if done.Ok? then Success else AssetMintFailed;
      case BurnNft(index, senderId, receiver, collection, item) =>
        var done := bridge.UnlockNonfungible(collection, item, senderId, receiver, index);
        return if done.Ok? then Success else NftUnlockFailed;
    }

    /** Carries out an observation that reached its quorum. */
    method ExecuteObservation(o: Observation) returns (r: Result<(), VoteError>)
      requires Wired()
      modifies this, bridge, bridge.currency
      ensures match old(View()).Execute(p, o)
              case Ok(s) => View() == s && r == Ok(())
              case Err(e) => View() == old(View()).(planned := plannedValidators) && r == Err(e)
    {
      if o.UpdateValidatorSet? {
        plannedValidators := PlannedSet(o.validators);
        r := IncreaseNextSetId();
        if r.Ok? {
          installed := installed + [o];
        }
      } else {
        r := IncreaseNextNotificationId();
        if r.Ok? {
          var result := CallBridge(o);
          notificationHistory := notificationHistory[o.Index() := result];
          delivered := delivered + [Delivery(o, result)];
        }
      }
    }

    /** Checks the index, then lists the observation and its voter; a full voter list can leave it listed. */
    method RecordVote(who: AccountId, o: Observation) returns (r: Result<(), VoteError>)
      requires Wired()
      modifies this`observations, this`observing
      ensures match old(View()).Refusal(p, who, o)
              case Some(e) => r == Err(e)
              case None => r == Ok(()) && View() == old(View()).Vote(who, o)
    {
      var wrong := CheckObservation(o);
      if wrong.Some? {
        return Err(wrong.value);
      }
      var competing := Get(observations, o.Key(), []);
      if o !in competing {
        if |competing| >= MAX_OBSERVATIONS {
          return Err(ObservationsExceededLimit);
        }
        competing := competing + [o];
      }
      observations := observations[o.Key() := competing];

      var voters := Get(observing, o, []);
      if who !in voters {
        if |voters| >= maxValidators {
          return Err(ObservationsExceededLimit);
        }
        voters := voters + [who];
      }
      observing := observing[o := voters];
      return Ok(());
    }

    /** Votes and, on quorum, executes; a failure can leave the vote and the planned set behind. */
    method TrySubmitObservation(who: AccountId, o: Observation, stakes: Stakes) returns (r: Result<(), VoteError>)
      requires Wired()
      modifies this, bridge, bridge.currency
      ensures match old(View()).SubmitOne(p, who, o, stakes)
              case Ok(s) => View() == s && r == Ok(())
              case Err(e) =>
                && r == Err(e)
                && View() == old(View()).(observations := observations, observing := observing,
                                          planned := plannedValidators)
    {
      r := RecordVote(who, o);
      if r.Err? {
        return r;
      }
      if stakes.total.None? {
        return Err(InvalidActiveTotalStake);
      }
      var stake := StakeOf(o, stakes);
      if WrapU128(3 * stake) > WrapU128(2 * stakes.total.value) {
        r := ExecuteObservation(o);
      }
    }

    method SubmitObservation(who: AccountId, o: Observation, stakes: Stakes) returns (r: Result<(), VoteError>)
      requires Wired()
      modifies this, bridge, bridge.currency
      ensures View() == old(View()).AfterOne(p, who, o, stakes)
      ensures r.Ok? <==> old(View()).SubmitOne(p, who, o, stakes).Ok?
    {
      var observations0, observing0, planned0 := observations, observing, plannedValidators;
      r := TrySubmitObservation(who, o, stakes);
      if r.Err? {
        observations, observing, plannedValidators := observations0, observing0, planned0;
      }
    }

    /** A failing observation is skipped; the payload as a whole fails only for a non-validator. */
    method SubmitObservations(validator: Option<AccountId>, os: seq<Observation>, stakes: Stakes)
      returns (r: Result<(), VoteError>)
      requires Wired()
      modifies this, bridge, bridge.currency
      ensures View() == old(View()).SubmitPayload(p, validator, os, stakes)
      ensures r == if validator.Some? then Ok(()) else Err(NotValidator)
    {
      if validator.None? {
        return Err(NotValidator);
      }
      var i := 0;
      while i < |os|
        invariant 0 <= i <= |os|
        invariant View() == old(View()).SubmitAll(p, validator.value, os[..i], stakes)
      {
        assert os[..i + 1][..i] == os[..i];
        var _ := SubmitObservation(validator.value, os[i], stakes);
        i := i + 1;
      }
      assert os[..|os|] == os;
      return Ok(());
    }
  }
}
