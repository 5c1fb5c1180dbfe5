/** What validators report about the mainchain, and the keys under which reports are counted. */
module Observations {
  import opened Base

  datatype Validator = Validator(id: AccountId, totalStake: nat)

  datatype ObservationType = UpdateValidatorSetType | BurnType | LockAssetType | BurnNftType

  datatype NotificationResult = Success | UnlockFailed | AssetMintFailed | AssetGetFailed | NftUnlockFailed

  datatype Observation =
    | UpdateValidatorSet(setId: nat, validators: seq<Validator>)
    | LockAsset(index: nat, tokenId: RawText, senderId: RawText, receiver: AccountId, amount: nat)
    | Burn(index: nat, senderId: RawText, receiver: AccountId, amount: nat)
    | BurnNft(index: nat, senderId: RawText, receiver: AccountId, collection: nat, item: nat)
  {
    function Type(): ObservationType {
      match this
      case UpdateValidatorSet(_, _) => UpdateValidatorSetType
      case Burn(_, _, _, _) => BurnType
      case LockAsset(_, _, _, _, _) => LockAssetType
      case BurnNft(_, _, _, _, _) => BurnNftType
    }

    function Index(): nat {
      match this
      case UpdateValidatorSet(setId, _) => setId
      case LockAsset(index, _, _, _, _) => index
      case Burn(index, _, _, _) => index
      case BurnNft(index, _, _, _, _) => index
    }

    function Key(): (ObservationType, nat) { (Type(), Index()) }

    /** A cross-chain transfer, as opposed to a change of the validator set. */
    predicate IsNotification() { !UpdateValidatorSet? }
  }

  /** The set as the staking pallet will read it. */
  function PlannedSet(validators: seq<Validator>): seq<(AccountId, nat)> {
    seq(|validators|, i requires 0 <= i < |validators| => (validators[i].id, validators[i].totalStake))
  }
}
