/** Stake-weighted voting on observations: one submission, one payload, one run. */
module Voting {
  import opened Base
  import opened Sums
  import opened Observations
  import opened Bridge

  /** At most this many different observations compete for one type and index. */
  const MAX_OBSERVATIONS: nat := 100

  /** The pallet is generic in the bridge it calls. */
  datatype Params = Params(requestEventLimit: nat, maxValidators: nat, bridge: Interface)

  /** What the staking pallet answers during one payload: stakes and total of the active era, if any. */
  datatype Stakes = Stakes(of: map<AccountId, nat>, total: Option<nat>)

  datatype VoteError =
    | WrongSetId | InvalidNotificationId | NotValidator | NextNotificationIdOverflow
    | InvalidActiveTotalStake | NextSetIdOverflow | ObservationsExceededLimit

  datatype Delivery = Delivery(observation: Observation, result: NotificationResult)

  /** A vote moves the quorum test: three times the voters' stake against twice the total, in 128 bits. */
  predicate Quorum(stakes: Stakes, voters: seq<AccountId>) {
    stakes.total.Some? &&
    WrapU128(3 * WrapU128(SumList(voters, stakes.of))) > WrapU128(2 * stakes.total.value)
  }

  function Including<T(==)>(xs: seq<T>, x: T): seq<T> {
    if x in xs then xs else xs + [x]
  }

  /**
   * The pallet's storage, the bridge it calls, and what it has executed so far:
   * notifications in `delivered`, validator sets in `installed`, both oldest first.
   */
  datatype VotingState = VotingState(
    nextSetId: nat,
    planned: seq<(AccountId, nat)>,
    nextNotificationId: nat,
    observations: map<(ObservationType, nat), seq<Observation>>,
    observing: map<Observation, seq<AccountId>>,
    history: map<nat, NotificationResult>,
    bridge: BridgeState,
    delivered: seq<Delivery>,
    installed: seq<Observation>)
  {
    function Competing(key: (ObservationType, nat)): seq<Observation> { Get(observations, key, []) }

    function Voters(o: Observation): seq<AccountId> { Get(observing, o, []) }

    /** The next set id, or any index of the window that starts at the next notification id. */
    function Check(p: Params, o: Observation): Option<VoteError> {
      if o.UpdateValidatorSet? then
        if o.setId != nextSetId then Some(WrongSetId) else None
      else if o.Index() < nextNotificationId || o.Index() >= WrapU32(nextNotificationId + p.requestEventLimit) then
        Some(InvalidNotificationId)
      else None
    }

    /** Why a vote is refused: a wrong index, or a list that is full. */
    function Refusal(p: Params, who: AccountId, o: Observation): Option<VoteError> {
      if Check(p, o).Some? then Check(p, o)
      else if o !in Competing(o.Key()) && |Competing(o.Key())| >= MAX_OBSERVATIONS then Some(ObservationsExceededLimit)
      else if who !in Voters(o) && |Voters(o)| >= p.maxValidators then Some(ObservationsExceededLimit)
      else None
    }

    function Vote(who: AccountId, o: Observation): VotingState {
      this.(observations := observations[o.Key() := Including(Competing(o.Key()), o)],
            observing := observing[o := Including(Voters(o), who)])
    }

    /** The bridge call a notification asks for, and how its failure is recorded. */
    function CallFor(o: Observation): (Call, NotificationResult)
      requires o.IsNotification()
    {
      match o
      case Burn(index, senderId, receiver, amount) => (UnlockCall(senderId, receiver, amount, index), UnlockFailed)
      case LockAsset(index, tokenId, senderId, receiver, amount) =>
        (MintCall(tokenId, senderId, receiver, amount, index), AssetMintFailed)
      case BurnNft(index, senderId, receiver, collection, item) =>
        (UnlockNftCall(collection, item, senderId, receiver, index), NftUnlockFailed)
    }

    function Execute(p: Params, o: Observation): Result<VotingState, VoteError> {
      if o.UpdateValidatorSet? then
        if nextSetId == U32_MAX then Err(NextSetIdOverflow)
        else Ok(this.(planned := PlannedSet(o.validators), nextSetId := nextSetId + 1, installed := installed + [o]))
      else if nextNotificationId == U32_MAX then Err(NextNotificationIdOverflow)
      else
        var (call, failure) := CallFor(o);
        var outcome := p.bridge(bridge, call);
        Ok(this.(nextNotificationId := nextNotificationId + 1,
                 bridge := bridge.After(outcome),
                 history := history[o.Index() := if outcome.Ok? then Success else failure],
                 delivered := delivered + [Delivery(o, if outcome.Ok? then Success else failure)]))
    }

    /** One observation of one validator: the whole new state, or an error and no change at all. */
    function SubmitOne(p: Params, who: AccountId, o: Observation, stakes: Stakes): Result<VotingState, VoteError> {
      if Refusal(p, who, o).Some? then Err(Refusal(p, who, o).value)
      else if stakes.total.None? then Err(InvalidActiveTotalStake)
      else
        var voted := Vote(who, o);
        if Quorum(stakes, voted.Voters(o)) then voted.Execute(p, o) else Ok(voted)
    }

    function AfterOne(p: Params, who: AccountId, o: Observation, stakes: Stakes): VotingState {
      var r := SubmitOne(p, who, o, stakes);
      if r.Ok? then r.value else this
    }

    /** A payload: its observations in order, a failing one skipped. */
    function SubmitAll(p: Params, who: AccountId, os: seq<Observation>, stakes: Stakes): VotingState
      decreases |os|
    {
      if os == [] then this
      else SubmitAll(p, who, os[..|os| - 1], stakes).AfterOne(p, who, os[|os| - 1], stakes)
    }

    /** `validator` is the active validator owning the payload's key, if there is one. */
    function SubmitPayload(p: Params, validator: Option<AccountId>, os: seq<Observation>, stakes: Stakes): VotingState {
      if validator.None? then this else SubmitAll(p, validator.value, os, stakes)
    }

    function Step(p: Params, e: VotingEvent): VotingState {
      match e
      case Payload(validator, os, stakes) => SubmitPayload(p, validator, os, stakes)
      case BridgeMoves(to) => this.(bridge := to)
    }
  }

  /** Payloads of any origin and content, between which the bridge may do anything else. */
  datatype VotingEvent =
    | Payload(validator: Option<AccountId>, observations: seq<Observation>, stakes: Stakes)
    | BridgeMoves(to: BridgeState)

  function Run(p: Params, s: VotingState, events: seq<VotingEvent>): VotingState
    decreases |events|
  {
    if events == [] then s else Run(p, s, events[..|events| - 1]).Step(p, events[|events| - 1])
  }
}
