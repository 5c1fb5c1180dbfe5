/** The ledgers the pallets act on: native balances, wrapped assets and collectibles. */
module Ledger {
  import opened Base
  import opened UpwardMessages

  datatype TransferError = InsufficientBalance | BelowExistentialDeposit | WouldKillSender

  /**
   * Moves `amount` or changes nothing. A sender left below the existential deposit loses the
   * remainder as dust, or the transfer is refused when it must stay alive.
   */
  function Moved(free: map<AccountId, nat>, existential: nat, sender: AccountId, receiver: AccountId,
                 amount: nat, keepAlive: bool): Result<map<AccountId, nat>, TransferError>
  {
    var have, got := Get(free, sender, 0), Get(free, receiver, 0);
    if amount == 0 || sender == receiver then Ok(free)
    else if have < amount then Err(InsufficientBalance)
    else if got + amount < existential then Err(BelowExistentialDeposit)
    else if have - amount < existential then
      if keepAlive then Err(WouldKillSender) else Ok(free[sender := 0][receiver := got + amount])
    else Ok(free[sender := have - amount][receiver := got + amount])
  }

  function Deposited(free: map<AccountId, nat>, who: AccountId, amount: nat): map<AccountId, nat> {
    free[who := Get(free, who, 0) + amount]
  }

  datatype Asset = Asset(minBalance: nat, accounts: map<AccountId, nat>)

  datatype AssetError = UnknownAsset | BalanceLow | BelowMinimum

  /** May burn more than asked: what would remain below the minimum balance goes too. */
  function BurnFrom(assets: map<nat, Asset>, id: nat, who: AccountId,
                    amount: nat): Result<map<nat, Asset>, AssetError> {
    if id !in assets then Err(UnknownAsset)
    else
      var have := Get(assets[id].accounts, who, 0);
      if amount == 0 then Ok(assets)
      else if have < amount then Err(BalanceLow)
      else
        var rest := if have - amount < assets[id].minBalance then 0 else have - amount;
        Ok(assets[id := assets[id].(accounts := assets[id].accounts[who := rest])])
  }

  function MintInto(assets: map<nat, Asset>, id: nat, who: AccountId,
                    amount: nat): Result<map<nat, Asset>, AssetError> {
    if id !in assets then Err(UnknownAsset)
    else
      var have := Get(assets[id].accounts, who, 0);
      if amount == 0 then Ok(assets)
      else if have + amount < assets[id].minBalance then Err(BelowMinimum)
      else Ok(assets[id := assets[id].(accounts := assets[id].accounts[who := have + amount])])
  }

  datatype NftError = UnknownItem

  function MoveItem(owners: map<(nat, nat), AccountId>, collection: nat, item: nat, dest: AccountId)
    : Result<map<(nat, nat), AccountId>, NftError>
  {
    if (collection, item) !in owners then Err(UnknownItem)
    else Ok(owners[(collection, item) := dest])
  }

  /** What the bridge and the staking pallet share: native balances and the upward queue. */
  datatype Shared = Shared(free: map<AccountId, nat>, queue: Queue)

  class Balances {
    const existentialDeposit: nat
    var free: map<AccountId, nat>

    constructor (existentialDeposit: nat)
      ensures this.existentialDeposit == existentialDeposit && free == map[]
    {
      this.existentialDeposit := existentialDeposit;
      free := map[];
    }

    method Transfer(sender: AccountId, receiver: AccountId, amount: nat, keepAlive: bool)
      returns (r: Result<(), TransferError>)
      modifies this
      ensures match Moved(old(free), existentialDeposit, sender, receiver, amount, keepAlive)
              case Ok(moved) => free == moved && r == Ok(())
              case Err(e) => free == old(free) && r == Err(e)
    {
      if amount == 0 || sender == receiver {
        return Ok(());
      }
      var have, got := Get(free, sender, 0), Get(free, receiver, 0);
      if have < amount {
        return Err(InsufficientBalance);
      }
      if got + amount < existentialDeposit {
        return Err(BelowExistentialDeposit);
      }
      var rest := have - amount;
      if rest < existentialDeposit {
        if keepAlive {
          return Err(WouldKillSender);
        }
        rest := 0;
      }
      free := free[sender := rest];
      free := free[receiver := got + amount];
      return Ok(());
    }

    method DepositCreating(who: AccountId, amount: nat)
      modifies this
      ensures free == Deposited(old(free), who, amount)
    {
      free := free[who := Get(free, who, 0) + amount];
    }
  }
}
