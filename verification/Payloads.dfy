/** The messages the appchain sends to the mainchain. */
module Payloads {
  import opened Base

  datatype PayloadType = Lock | BurnAsset | PlanNewEra | EraPayout | LockNft

  datatype Payload =
    | LockPayload(sender: AccountId, receiverId: string, amount: nat, fee: nat)
    | BurnAssetPayload(tokenId: string, sender: AccountId, receiverId: string, amount: nat, fee: nat)
    | PlanNewEraPayload(newEra: nat)
    | EraPayoutPayload(endEra: nat, excludedValidators: set<AccountId>, offenders: map<(string, AccountId), nat>)
    | LockNftPayload(sender: AccountId, receiverId: string, collection: nat, item: nat, metadata: string, fee: nat)
  {
    function Type(): PayloadType {
      match this
      case LockPayload(_, _, _, _) => Lock
      case BurnAssetPayload(_, _, _, _, _) => BurnAsset
      case PlanNewEraPayload(_) => PlanNewEra
      case EraPayoutPayload(_, _, _) => EraPayout
      case LockNftPayload(_, _, _, _, _, _) => LockNft
    }

    /** Sent on behalf of a user; the other two types come from the session machinery. */
    predicate FromUser() {
      Type() == Lock || Type() == BurnAsset || Type() == LockNft
    }
  }
}
