/** Cross-chain transfers: escrow of native tokens, wrapped assets, collectibles and relayer fees. */
module Bridge {
  import opened Base
  import opened Payloads
  import opened Ledger
  import UpwardMessages
  import Fee

  /** `escrow` is the account derived from the pallet id; `maxBalance` the greatest native balance. */
  datatype Config = Config(escrow: AccountId, existentialDeposit: nat, maxBalance: nat, nativeTokenDecimals: nat,
                           threshold: nat, messages: UpwardMessages.Config)

  datatype Origin = Root | Signed(who: AccountId) | Unsigned

  datatype TransferType = Fungible | Nonfungible

  datatype Error =
    | BadOrigin | NotActivated | AmountOverflow | InvalidReceiverId
    | NoTokenId | NoAssetId | InvalidTokenId | TokenIdInUse | AssetIdInUse | TokenIdNotExist
    | ConvertorNotImplement | NotEnoughBalanceForDeductionFee
    | NoOracleAccount | NearPriceSetedIsZero | NativeTokenPriceSetedIsZero
    | UpdatePriceWithNoPermissionAccount | InvalidCoef | InvalidFeeMakeOverflow
    | FromBalances(transfer: TransferError) | FromAssets(asset: AssetError) | FromNfts(nft: NftError)
    | FromMessages(message: UpwardMessages.Error)

  datatype Event =
    | Locked(sender: AccountId, receiverId: string, amount: nat, fee: nat, sequence: nat)
    | Unlocked(senderId: RawText, receiver: AccountId, amount: nat, index: nat)
    | Nep141Minted(assetId: nat, senderId: RawText, receiver: AccountId, amount: nat, index: nat)
    | Nep141Burned(assetId: nat, sender: AccountId, receiverId: string, amount: nat, fee: nat, sequence: nat)
    | NonfungibleLocked(collection: nat, item: nat, sender: AccountId, receiverId: string, fee: nat, sequence: nat)
    | NonfungibleUnlocked(collection: nat, item: nat, senderId: RawText, receiver: AccountId, index: nat)
    | ForceUnlocked(who: AccountId, amount: nat)

  function EnsureSigned(origin: Origin): Result<AccountId, Error> {
    if origin.Signed? then Ok(origin.who) else Err(BadOrigin)
  }

  function EnsureRoot(origin: Origin): Result<(), Error> {
    if origin.Root? then Ok(()) else Err(BadOrigin)
  }

  function Ensure(condition: bool, e: Error): Result<(), Error> {
    if condition then Ok(()) else Err(e)
  }

  function ReceiverText(receiver: RawText): Result<string, Error> {
    if receiver.Utf8? then Ok(receiver.text) else Err(InvalidReceiverId)
  }

  function Charged(r: Result<map<AccountId, nat>, TransferError>): Result<map<AccountId, nat>, Error> {
    match r
    case Ok(free) => Ok(free)
    case Err(e) => Err(FromBalances(e))
  }

  /** No two tokens share an asset, so a lookup by asset has one answer. */
  ghost predicate Injective(tokenIds: map<RawText, nat>) {
    forall s, t :: s in tokenIds && t in tokenIds && tokenIds[s] == tokenIds[t] ==> s == t
  }

  /** The token registered for an asset, found by searching the table. */
  ghost function TokenOf(tokenIds: map<RawText, nat>, assetId: nat): Option<RawText> {
    if exists t :: t in tokenIds && tokenIds[t] == assetId then
      var t :| t in tokenIds && tokenIds[t] == assetId;
      Some(t)
    else None
  }

  /** What a search by asset may yield: any token registered for it, if there is one. */
  ghost predicate Finds(tokenIds: map<RawText, nat>, assetId: nat, found: Option<RawText>) {
    match found
    case Some(token) => Lookup(tokenIds, token) == Some(assetId)
    case None => assetId !in tokenIds.Values
  }

  /**
   * Storage of the pallet with the ledgers it drives. Every call below yields the whole state after
   * success, or an error and no state: a transactional call that fails leaves everything as it was.
   */
  datatype BridgeState = BridgeState(
    shared: Shared,
    assets: map<nat, Asset>,
    nfts: map<(nat, nat), AccountId>,
    tokenIds: map<RawText, nat>,
    fees: map<TransferType, nat>,
    oracle: Option<AccountId>,
    tokenPrice: Option<nat>,
    nearPrice: Option<nat>,
    coef: nat,
    events: seq<Event>)
  {
    function FeeFor(kind: TransferType): nat { Get(fees, kind, 0) }

    function After(r: Result<BridgeState, Error>): BridgeState {
      if r.Ok? then r.value else this
    }

    function Send(cfg: Config, payload: Payload): Result<(BridgeState, nat), Error> {
      match shared.queue.Submit(cfg.messages, payload)
      case Ok((queue, sequence)) => Ok((this.(shared := shared.(queue := queue)), sequence))
      case Err(e) => Err(FromMessages(e))
    }

    function Pay(cfg: Config, sender: AccountId, receiver: AccountId, amount: nat, keepAlive: bool)
      : Result<BridgeState, Error>
    {
      var free :- Charged(Moved(shared.free, cfg.existentialDeposit, sender, receiver, amount, keepAlive));
      Ok(this.(shared := shared.(free := free)))
    }

    function PayFee(cfg: Config, sender: AccountId, kind: TransferType): Result<BridgeState, Error> {
      Pay(cfg, sender, cfg.escrow, FeeFor(kind), false).OrElse(NotEnoughBalanceForDeductionFee)
    }

    function Deposit(e: Event): BridgeState { this.(events := events + [e]) }

    function Lock(cfg: Config, activated: bool, origin: Origin, receiver: RawText, amount: nat)
      : Result<BridgeState, Error>
    {
      var sender :- EnsureSigned(origin);
      var _ :- Ensure(activated, NotActivated);
      var receiverId :- ReceiverText(receiver);
      var _ :- Ensure(amount <= U128_MAX, AmountOverflow);
      var fee := FeeFor(Fungible);
      var charged :- PayFee(cfg, sender, Fungible);
      var escrowed :- charged.Pay(cfg, sender, cfg.escrow, amount, false);
      var (sent, sequence) :- escrowed.Send(cfg, LockPayload(sender, receiverId, amount, fee));
      Ok(sent.Deposit(Locked(sender, receiverId, amount, fee, sequence)))
    }

    /** `found` is the token that a search of the table by asset yields. */
    function BurnFound(cfg: Config, activated: bool, origin: Origin, assetId: nat, found: Option<RawText>,
                       receiver: RawText, amount: nat): Result<BridgeState, Error>
    {
      var sender :- EnsureSigned(origin);
      var _ :- Ensure(activated, NotActivated);
      var receiverId :- ReceiverText(receiver);
      var _ :- Ensure(found.Some?, NoAssetId);
      var token := found.value;
      var _ :- Ensure(token.Utf8?, InvalidTokenId);
      var fee := FeeFor(Fungible);
      var charged :- PayFee(cfg, sender, Fungible);
      var burned := BurnFrom(charged.assets, assetId, sender, amount);
      if burned.Err? then Err(FromAssets(burned.error))
      else
        var (sent, sequence) :- charged.(assets := burned.value)
                                .Send(cfg, BurnAssetPayload(token.text, sender, receiverId, amount, fee));
        Ok(sent.Deposit(Nep141Burned(assetId, sender, receiverId, amount, fee, sequence)))
    }

    ghost function BurnNep141(cfg: Config, activated: bool, origin: Origin, assetId: nat, receiver: RawText,
                              amount: nat)
      : Result<BridgeState, Error>
    {
      BurnFound(cfg, activated, origin, assetId, TokenOf(tokenIds, assetId), receiver, amount)
    }

    /** `metadata` is what the runtime's convertor yields for the item, if it is implemented. */
    function LockNonfungible(cfg: Config, activated: bool, origin: Origin, collection: nat, item: nat,
                             receiver: RawText, metadata: Option<string>): Result<BridgeState, Error>
    {
      var sender :- EnsureSigned(origin);
      var _ :- Ensure(activated, NotActivated);
      var receiverId :- ReceiverText(receiver);
      var _ :- Ensure(metadata.Some?, ConvertorNotImplement);
      var fee := FeeFor(Nonfungible);
      var charged :- PayFee(cfg, sender, Nonfungible);
      var moved := MoveItem(charged.nfts, collection, item, cfg.escrow);
      if moved.Err? then Err(FromNfts(moved.error))
      else
        var (sent, sequence) :- charged.(nfts := moved.value)
                                .Send(cfg, LockNftPayload(sender, receiverId, collection, item, metadata.value, fee));
        Ok(sent.Deposit(NonfungibleLocked(collection, item, sender, receiverId, fee, sequence)))
    }

    function Unlock(cfg: Config, senderId: RawText, receiver: AccountId, amount: nat, index: nat)
      : Result<BridgeState, Error>
    {
      var _ :- Ensure(amount <= cfg.maxBalance, AmountOverflow);
      var paid :- Pay(cfg, cfg.escrow, receiver, amount, true);
      Ok(paid.Deposit(Unlocked(senderId, receiver, amount, index)))
    }

    function MintNep141(token: RawText, senderId: RawText, receiver: AccountId, amount: nat, index: nat)
      : Result<BridgeState, Error>
    {
      if token !in tokenIds then Err(NoTokenId)
      else
        var minted := MintInto(assets, tokenIds[token], receiver, amount);
        if minted.Err? then Err(FromAssets(minted.error))
        else Ok(this.(assets := minted.value).Deposit(Nep141Minted(tokenIds[token], senderId, receiver, amount, index)))
    }

    function UnlockNonfungible(collection: nat, item: nat, senderId: RawText, receiver: AccountId, index: nat)
      : Result<BridgeState, Error>
    {
      var moved := MoveItem(nfts, collection, item, receiver);
      if moved.Err? then Err(FromNfts(moved.error))
      else Ok(this.(nfts := moved.value).Deposit(NonfungibleUnlocked(collection, item, senderId, receiver, index)))
    }

    function SetTokenId(activated: bool, origin: Origin, token: RawText, assetId: nat): Result<BridgeState, Error> {
      var _ :- EnsureRoot(origin);
      var _ :- Ensure(activated, NotActivated);
      var _ :- Ensure(token !in tokenIds, TokenIdInUse);
      var _ :- Ensure(assetId !in tokenIds.Values, AssetIdInUse);
      Ok(this.(tokenIds := tokenIds[token := assetId]))
    }

    function DeleteTokenId(origin: Origin, token: RawText): Result<BridgeState, Error> {
      var _ :- EnsureRoot(origin);
      var _ :- Ensure(token in tokenIds, TokenIdNotExist);
      Ok(this.(tokenIds := tokenIds - {token}))
    }

    function ForceUnlock(cfg: Config, origin: Origin, who: AccountId, amount: nat): Result<BridgeState, Error> {
      var _ :- EnsureRoot(origin);
      var paid :- Pay(cfg, cfg.escrow, who, amount, true);
      Ok(paid.Deposit(ForceUnlocked(who, amount)))
    }

    function SetOracleAccount(origin: Origin, who: AccountId): Result<BridgeState, Error> {
      var _ :- EnsureRoot(origin);
      Ok(this.(oracle := Some(who)))
    }

    /** Stores both prices and the fee they imply, the same for both kinds of transfer. */
    function SetTokenPrice(cfg: Config, origin: Origin, near: nat, native: nat): Result<BridgeState, Error> {
      var who :- EnsureSigned(origin);
      var _ :- Ensure(near != 0, NearPriceSetedIsZero);
      var _ :- Ensure(native != 0, NativeTokenPriceSetedIsZero);
      var _ :- Ensure(oracle.Some?, NoOracleAccount);
      var _ :- Ensure(who == oracle.value, UpdatePriceWithNoPermissionAccount);
      var fee := Fee.ChargedFee(near, native, coef, cfg.threshold, cfg.nativeTokenDecimals);
      if fee > cfg.maxBalance then Err(InvalidFeeMakeOverflow)
      else
        Ok(this.(tokenPrice := Some(native), nearPrice := Some(near), fees := map[Fungible := fee, Nonfungible := fee]))
    }

    /** The stored fee is left as it is: only the next price report applies the new coefficient. */
    function SetCoef(origin: Origin, newCoef: nat): Result<BridgeState, Error> {
      var _ :- EnsureRoot(origin);
      var _ :- Ensure(0 < newCoef <= 100, InvalidCoef);
      Ok(this.(coef := newCoef))
    }

    ghost predicate Valid() {
      0 < coef <= 100 && Injective(tokenIds)
    }

    /** The outcome of any one call; `activated` is the appchain's flag at that moment. */
    ghost function Perform(cfg: Config, activated: bool, call: Call): Result<BridgeState, Error> {
      match call
      case LockCall(origin, receiver, amount) => Lock(cfg, activated, origin, receiver, amount)
      case BurnCall(origin, assetId, receiver, amount) => BurnNep141(cfg, activated, origin, assetId, receiver, amount)
      case LockNftCall(origin, collection, item, receiver, metadata) =>
        LockNonfungible(cfg, activated, origin, collection, item, receiver, metadata)
      case UnlockCall(senderId, receiver, amount, index) => Unlock(cfg, senderId, receiver, amount, index)
      case MintCall(token, senderId, receiver, amount, index) => MintNep141(token, senderId, receiver, amount, index)
      case UnlockNftCall(collection, item, senderId, receiver, index) =>
        UnlockNonfungible(collection, item, senderId, receiver, index)
      case SetTokenIdCall(origin, token, assetId) => SetTokenId(activated, origin, token, assetId)
      case DeleteTokenIdCall(origin, token) => DeleteTokenId(origin, token)
      case ForceUnlockCall(origin, who, amount) => ForceUnlock(cfg, origin, who, amount)
      case SetOracleCall(origin, who) => SetOracleAccount(origin, who)
      case SetPriceCall(origin, near, native) => SetTokenPrice(cfg, origin, near, native)
      case SetCoefCall(origin, newCoef) => SetCoef(origin, newCoef)
    }

    /** The state after a call that succeeded, or the old state after one that failed. */
    ghost function Call(cfg: Config, activated: bool, call: Call): BridgeState {
      After(Perform(cfg, activated, call))
    }
  }

  datatype Call =
    | LockCall(origin: Origin, receiver: RawText, amount: nat)
    | BurnCall(origin: Origin, assetId: nat, receiver: RawText, amount: nat)
    | LockNftCall(origin: Origin, collection: nat, item: nat, receiver: RawText, metadata: Option<string>)
    | UnlockCall(senderId: RawText, who: AccountId, amount: nat, index: nat)
    | MintCall(token: RawText, senderId: RawText, who: AccountId, amount: nat, index: nat)
    | UnlockNftCall(collection: nat, item: nat, senderId: RawText, who: AccountId, index: nat)
    | SetTokenIdCall(origin: Origin, token: RawText, assetId: nat)
    | DeleteTokenIdCall(origin: Origin, token: RawText)
    | ForceUnlockCall(origin: Origin, who: AccountId, amount: nat)
    | SetOracleCall(origin: Origin, who: AccountId)
    | SetPriceCall(origin: Origin, near: nat, native: nat)
    | SetCoefCall(origin: Origin, newCoef: nat)

  /** The bridge as the voting pallet sees it: one call on the current state, on an activated chain. */
  type Interface = (BridgeState, Call) -> Result<BridgeState, Error>

  ghost function InterfaceOf(cfg: Config): Interface {
    (b: BridgeState, call: Call) => b.Perform(cfg, true, call)
  }

  // ---------------------------------------------------------------- the token table

  /** Lookup by token and search by asset undo each other on an injective table. */
  lemma LookupsAreInverse(tokenIds: map<RawText, nat>, token: RawText, assetId: nat)
    requires Injective(tokenIds)
    ensures TokenOf(tokenIds, assetId) == Some(token) <==> Lookup(tokenIds, token) == Some(assetId)
  {}

  /** The search finds a registered token whenever there is one, and on an injective table always the same. */
  lemma TokenOfFinds(tokenIds: map<RawText, nat>, assetId: nat, found: Option<RawText>)
    ensures Finds(tokenIds, assetId, TokenOf(tokenIds, assetId))
    ensures Injective(tokenIds) && Finds(tokenIds, assetId, found) ==> found == TokenOf(tokenIds, assetId)
  {
    assert assetId in tokenIds.Values <==> exists t :: t in tokenIds && tokenIds[t] == assetId;
  }

  /** No call breaks the table or the coefficient's range. */
  lemma CallKeepsValid(cfg: Config, b: BridgeState, activated: bool, call: Call)
    requires b.Valid()
    ensures b.Call(cfg, activated, call).Valid()
  {
    var r := b.Perform(cfg, activated, call);
    if r.Ok? && call.SetTokenIdCall? {
      var m := r.value.tokenIds;
      assert forall t :: t in b.tokenIds ==> b.tokenIds[t] in b.tokenIds.Values;
    }
  }

  /** No fee ever charged exceeds the cap, whatever prices and coefficients are reported. */
  ghost predicate FeesCapped(cfg: Config, b: BridgeState) {
    forall kind :: kind in b.fees ==> b.fees[kind] <= cfg.threshold * cfg.nativeTokenDecimals
  }

  lemma CallKeepsFeesCapped(cfg: Config, b: BridgeState, activated: bool, call: Call)
    requires FeesCapped(cfg, b)
    ensures FeesCapped(cfg, b.Call(cfg, activated, call))
  {
    if call.SetPriceCall? {
      if call.native != 0 {
        Fee.FeeNeverAboveCap(call.near, call.native, b.coef, cfg.threshold, cfg.nativeTokenDecimals);
      }
    } else {
      assert b.Call(cfg, activated, call).fees == b.fees;
    }
  }

  // ---------------------------------------------------------------- any sequence of calls

  ghost function CallAll(cfg: Config, b: BridgeState, calls: seq<(bool, Call)>): BridgeState
    decreases |calls|
  {
    if calls == [] then b
    else
      var (activated, call) := calls[|calls| - 1];
      CallAll(cfg, b, calls[..|calls| - 1]).Call(cfg, activated, call)
  }

  /** After any calls: the table has inverse lookups, the coefficient is in range, and fees stay below the cap. */
  lemma {:induction false} CallsKeepValid(cfg: Config, b: BridgeState, calls: seq<(bool, Call)>)
    requires b.Valid() && FeesCapped(cfg, b)
    ensures var t := CallAll(cfg, b, calls);
            && t.Valid() && FeesCapped(cfg, t)
            && (forall token: RawText, assetId: nat ::
                  TokenOf(t.tokenIds, assetId) == Some(token) <==> Lookup(t.tokenIds, token) == Some(assetId))
    decreases |calls|
  {
    var t := CallAll(cfg, b, calls);
    if calls != [] {
      var before := CallAll(cfg, b, calls[..|calls| - 1]);
      var (activated, call) := calls[|calls| - 1];
      CallsKeepValid(cfg, b, calls[..|calls| - 1]);
      CallKeepsValid(cfg, before, activated, call);
      CallKeepsFeesCapped(cfg, before, activated, call);
    }
    forall token: RawText, assetId: nat
      ensures TokenOf(t.tokenIds, assetId) == Some(token) <==> Lookup(t.tokenIds, token) == Some(assetId)
    {
      LookupsAreInverse(t.tokenIds, token, assetId);
    }
  }
}
