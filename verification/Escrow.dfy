/** The books of the escrow account: what accepted messages, unlocks and payouts say it must hold. */
module Escrow {
  import opened Base
  import opened Payloads
  import opened Ledger
  import opened Bridge
  import UpwardMessages

  /** What the escrow received for an accepted message. A transfer from the escrow to itself moves nothing. */
  function Credit(escrow: AccountId, payload: Payload): nat {
    match payload
    case LockPayload(sender, _, amount, fee) => if sender == escrow then 0 else amount + fee
    case BurnAssetPayload(_, sender, _, _, fee) => if sender == escrow then 0 else fee
    case LockNftPayload(sender, _, _, _, _, fee) => if sender == escrow then 0 else fee
    case _ => 0
  }

  function Credits(escrow: AccountId, stream: seq<UpwardMessages.Message>): nat {
    if stream == [] then 0
    else Credits(escrow, stream[..|stream| - 1]) + Credit(escrow, stream[|stream| - 1].payload)
  }

  /** What left the escrow with an unlock, whether ordered by the mainchain or by root. */
  function Release(escrow: AccountId, e: Event): nat {
    match e
    case Unlocked(_, receiver, amount, _) => if receiver == escrow then 0 else amount
    case ForceUnlocked(who, amount) => if who == escrow then 0 else amount
    case _ => 0
  }

  function Releases(escrow: AccountId, events: seq<Event>): nat {
    if events == [] then 0
    else Releases(escrow, events[..|events| - 1]) + Release(escrow, events[|events| - 1])
  }

  /** The escrow balance that messages and unlocks do not explain. */
  function Unexplained(cfg: Config, b: BridgeState): int {
    Get(b.shared.free, cfg.escrow, 0) - Credits(cfg.escrow, b.shared.queue.Stream()) + Releases(cfg.escrow, b.events)
  }

  lemma CreditsSnoc(escrow: AccountId, stream: seq<UpwardMessages.Message>, m: UpwardMessages.Message)
    ensures Credits(escrow, stream + [m]) == Credits(escrow, stream) + Credit(escrow, m.payload)
  {}

  lemma PayMovesExactly(cfg: Config, b: BridgeState, sender: AccountId, receiver: AccountId, amount: nat,
                        keepAlive: bool)
    ensures var r := b.Pay(cfg, sender, receiver, amount, keepAlive);
            r.Ok? ==>
              && r.value == b.(shared := b.shared.(free := r.value.shared.free))
              && (receiver == cfg.escrow ==>
                    Get(r.value.shared.free, cfg.escrow, 0)
                      == Get(b.shared.free, cfg.escrow, 0) + if sender == cfg.escrow then 0 else amount)
              && (sender == cfg.escrow && keepAlive ==>
                    Get(r.value.shared.free, cfg.escrow, 0)
                      == Get(b.shared.free, cfg.escrow, 0) - if receiver == cfg.escrow then 0 else amount)
  {}

  lemma SendCredits(cfg: Config, b: BridgeState, payload: Payload)
    ensures var r := b.Send(cfg, payload);
            r.Ok? ==>
              && r.value.0 == b.(shared := b.shared.(queue := r.value.0.shared.queue))
              && Unexplained(cfg, r.value.0) == Unexplained(cfg, b) - Credit(cfg.escrow, payload)
  {
    var r := b.Send(cfg, payload);
    if r.Ok? {
      UpwardMessages.SubmitExtendsStream(cfg.messages, b.shared.queue, payload);
      CreditsSnoc(cfg.escrow, b.shared.queue.Stream(), UpwardMessages.Message(r.value.1, payload));
    }
  }

  lemma DepositReleases(cfg: Config, b: BridgeState, e: Event)
    ensures Unexplained(cfg, b.Deposit(e)) == Unexplained(cfg, b) + Release(cfg.escrow, e)
  {}

  lemma LockIsExplained(cfg: Config, b: BridgeState, activated: bool, origin: Origin, receiver: RawText, amount: nat)
    ensures Unexplained(cfg, b.After(b.Lock(cfg, activated, origin, receiver, amount))) == Unexplained(cfg, b)
  {
    var r := b.Lock(cfg, activated, origin, receiver, amount);
    if r.Ok? {
      var sender, fee := origin.who, b.FeeFor(Fungible);
      PayMovesExactly(cfg, b, sender, cfg.escrow, fee, false);
      var charged := b.PayFee(cfg, sender, Fungible).value;
      PayMovesExactly(cfg, charged, sender, cfg.escrow, amount, false);
      var escrowed := charged.Pay(cfg, sender, cfg.escrow, amount, false).value;
      var payload := LockPayload(sender, receiver.text, amount, fee);
      SendCredits(cfg, escrowed, payload);
      DepositReleases(cfg, escrowed.Send(cfg, payload).value.0, r.value.events[|b.events|]);
    }
  }

  lemma BurnIsExplained(cfg: Config, b: BridgeState, activated: bool, origin: Origin, assetId: nat, receiver: RawText,
                        amount: nat)
    ensures Unexplained(cfg, b.After(b.BurnNep141(cfg, activated, origin, assetId, receiver, amount)))
         == Unexplained(cfg, b)
  {
    var r := b.BurnNep141(cfg, activated, origin, assetId, receiver, amount);
    if r.Ok? {
      var sender, fee := origin.who, b.FeeFor(Fungible);
      PayMovesExactly(cfg, b, sender, cfg.escrow, fee, false);
      var charged := b.PayFee(cfg, sender, Fungible).value;
      var burned := charged.(assets := BurnFrom(charged.assets, assetId, sender, amount).value);
      var payload := BurnAssetPayload(TokenOf(b.tokenIds, assetId).value.text, sender, receiver.text, amount, fee);
      SendCredits(cfg, burned, payload);
      DepositReleases(cfg, burned.Send(cfg, payload).value.0, r.value.events[|b.events|]);
    }
  }

  lemma LockNftIsExplained(cfg: Config, b: BridgeState, activated: bool, origin: Origin, collection: nat, item: nat,
                           receiver: RawText, metadata: Option<string>)
    ensures Unexplained(cfg, b.After(b.LockNonfungible(cfg, activated, origin, collection, item, receiver, metadata)))
              == Unexplained(cfg, b)
  {
    var r := b.LockNonfungible(cfg, activated, origin, collection, item, receiver, metadata);
    if r.Ok? {
      var sender, fee := origin.who, b.FeeFor(Nonfungible);
      PayMovesExactly(cfg, b, sender, cfg.escrow, fee, false);
      var charged := b.PayFee(cfg, sender, Nonfungible).value;
      var moved := charged.(nfts := MoveItem(charged.nfts, collection, item, cfg.escrow).value);
      var payload := LockNftPayload(sender, receiver.text, collection, item, metadata.value, fee);
      SendCredits(cfg, moved, payload);
      DepositReleases(cfg, moved.Send(cfg, payload).value.0, r.value.events[|b.events|]);
    }
  }

  lemma UnlockIsExplained(cfg: Config, b: BridgeState, receiver: AccountId, amount: nat, e: Event)
    requires e.Unlocked? || e.ForceUnlocked?
    requires Release(cfg.escrow, e) == if receiver == cfg.escrow then 0 else amount
    ensures var r := b.Pay(cfg, cfg.escrow, receiver, amount, true);
            r.Ok? ==> Unexplained(cfg, r.value.Deposit(e)) == Unexplained(cfg, b)
  {
    var r := b.Pay(cfg, cfg.escrow, receiver, amount, true);
    PayMovesExactly(cfg, b, cfg.escrow, receiver, amount, true);
    if r.Ok? {
      DepositReleases(cfg, r.value, e);
    }
  }

  /** Calls on the token table, the oracle, prices and the coefficient move no balance. */
  lemma RegistryCallIsExplained(cfg: Config, b: BridgeState, activated: bool, call: Call)
    requires || call.SetTokenIdCall? || call.DeleteTokenIdCall? || call.SetOracleCall? || call.SetPriceCall?
             || call.SetCoefCall?
    ensures Unexplained(cfg, b.Call(cfg, activated, call)) == Unexplained(cfg, b)
  {}

  /** Every call of the bridge, successful or not, leaves the unexplained part of the escrow as it was. */
  lemma CallIsExplained(cfg: Config, b: BridgeState, activated: bool, call: Call)
    ensures Unexplained(cfg, b.Call(cfg, activated, call)) == Unexplained(cfg, b)
  {
    match call
    case LockCall(origin, receiver, amount) => LockIsExplained(cfg, b, activated, origin, receiver, amount);
    case BurnCall(origin, assetId, receiver, amount) =>
      BurnIsExplained(cfg, b, activated, origin, assetId, receiver, amount);
    case LockNftCall(origin, collection, item, receiver, metadata) =>
      LockNftIsExplained(cfg, b, activated, origin, collection, item, receiver, metadata);
    case UnlockCall(senderId, receiver, amount, index) =>
      UnlockIsExplained(cfg, b, receiver, amount, Unlocked(senderId, receiver, amount, index));
    case ForceUnlockCall(origin, who, amount) => UnlockIsExplained(cfg, b, who, amount, ForceUnlocked(who, amount));
    case MintCall(token, senderId, receiver, amount, index) =>
      MintIsExplained(cfg, b, token, senderId, receiver, amount, index);
    case UnlockNftCall(collection, item, senderId, receiver, index) =>
      UnlockNftIsExplained(cfg, b, collection, item, senderId, receiver, index);
    case _ => RegistryCallIsExplained(cfg, b, activated, call);
  }

  lemma MintIsExplained(cfg: Config, b: BridgeState, token: RawText, senderId: RawText, receiver: AccountId,
                        amount: nat, index: nat)
    ensures Unexplained(cfg, b.After(b.MintNep141(token, senderId, receiver, amount, index))) == Unexplained(cfg, b)
  {}

  lemma UnlockNftIsExplained(cfg: Config, b: BridgeState, collection: nat, item: nat, senderId: RawText,
                             receiver: AccountId, index: nat)
    ensures Unexplained(cfg, b.After(b.UnlockNonfungible(collection, item, senderId, receiver, index)))
         == Unexplained(cfg, b)
  {}

  // ---------------------------------------------------------------- when the escrow pays

  /** Whether the escrow can pay somebody else: it must stay alive, and the receiver must come alive. */
  predicate Payable(cfg: Config, free: map<AccountId, nat>, receiver: AccountId, amount: nat) {
    var minimum, held := cfg.existentialDeposit, Get(free, cfg.escrow, 0);
    || amount == 0 || receiver == cfg.escrow
    || (amount + minimum <= held && minimum <= Get(free, receiver, 0) + amount)
  }

  /** The amount went from the escrow to the receiver; paying itself leaves the escrow as it was. */
  ghost predicate Paid(cfg: Config, before: map<AccountId, nat>, after: map<AccountId, nat>, receiver: AccountId,
                       amount: nat) {
    forall a :: Get(after, a, 0) == Get(before, a, 0) + (if a == receiver then amount else 0)
                                    - (if a == cfg.escrow then amount else 0)
  }

  /** Root makes the escrow pay exactly when it can; nobody else can, and the payment is the only change. */
  lemma ForceUnlockOutcome(cfg: Config, b: BridgeState, origin: Origin, who: AccountId, amount: nat)
    ensures var r := b.ForceUnlock(cfg, origin, who, amount);
            && (r.Ok? <==> origin.Root? && Payable(cfg, b.shared.free, who, amount))
            && (r.Ok? ==>
                  && Paid(cfg, b.shared.free, r.value.shared.free, who, amount)
                  && r.value == b.(shared := b.shared.(free := r.value.shared.free),
                                   events := b.events + [ForceUnlocked(who, amount)]))
  {}

  // ---------------------------------------------------------------- when a lock goes through

  /** What a sender keeps after paying: a remainder below the existential deposit is lost as dust. */
  function Left(have: int, paid: nat, existential: nat): int {
    if paid != 0 && have - paid < existential then 0 else have - paid
  }

  ghost predicate Accepts(cfg: Config, b: BridgeState, payload: Payload) {
    && |b.shared.queue.pending| < cfg.messages.maxMessagesPerCommit
    && cfg.messages.encodedLen(payload) <= cfg.messages.maxPayloadSize
    && b.shared.queue.nonce != U64_MAX
  }

  /** The sender is left with `rest`, the escrow has gained `paid`, and nobody else is affected. */
  ghost predicate Settled(cfg: Config, before: map<AccountId, nat>, after: map<AccountId, nat>, sender: AccountId,
                          rest: int, paid: nat) {
    && Get(after, sender, 0) == rest
    && Get(after, cfg.escrow, 0) == Get(before, cfg.escrow, 0) + paid
    && (forall a :: a != sender && a != cfg.escrow ==> Get(after, a, 0) == Get(before, a, 0))
  }

  /** Whether the sender can pay the escrow: nothing, or no more than it has and enough to keep the escrow alive. */
  predicate CanPay(cfg: Config, have: int, held: nat, amount: nat) {
    amount == 0 || (amount <= have && cfg.existentialDeposit <= held + amount)
  }

  lemma PayOutcome(cfg: Config, b: BridgeState, sender: AccountId, amount: nat)
    requires sender != cfg.escrow
    ensures var r, have, held := b.Pay(cfg, sender, cfg.escrow, amount, false), Get(b.shared.free, sender, 0),
                                 Get(b.shared.free, cfg.escrow, 0);
            && (r.Ok? <==> CanPay(cfg, have, held, amount))
            && (r.Ok? ==> Settled(cfg, b.shared.free, r.value.shared.free, sender,
                                  Left(have, amount, cfg.existentialDeposit), amount))
            && (r.Ok? ==> r.value == b.(shared := b.shared.(free := r.value.shared.free)))
  {}

  /**
   * Exactly when a lock goes through, and what it then does to every balance: fee and amount leave the sender
   * one after the other, so dust lost after the fee can no longer be locked.
   */
  lemma LockOutcome(cfg: Config, b: BridgeState, activated: bool, sender: AccountId, receiver: RawText, amount: nat)
    requires sender != cfg.escrow
    ensures var r := b.Lock(cfg, activated, Signed(sender), receiver, amount);
            var have, held := Get(b.shared.free, sender, 0), Get(b.shared.free, cfg.escrow, 0);
            var fee := Get(b.fees, Fungible, 0);
            var rest := Left(have, fee, cfg.existentialDeposit);
            && (r.Ok? <==> && activated && receiver.Utf8? && amount <= U128_MAX
                           && CanPay(cfg, have, held, fee) && CanPay(cfg, rest, held + fee, amount)
                           && Accepts(cfg, b, LockPayload(sender, receiver.text, amount, fee)))
            && (r.Ok? ==> Settled(cfg, b.shared.free, r.value.shared.free, sender,
                                  Left(rest, amount, cfg.existentialDeposit), fee + amount))
  {
    var fee := Get(b.fees, Fungible, 0);
    PayOutcome(cfg, b, sender, fee);
    var paid := b.PayFee(cfg, sender, Fungible);
    if receiver.Utf8? && paid.Ok? {
      PayOutcome(cfg, paid.value, sender, amount);
      UpwardMessages.SubmitExtendsStream(cfg.messages, b.shared.queue, LockPayload(sender, receiver.text, amount, fee));
    }
  }

  /** The burner's balance went down by the amount, or to nothing where less than the minimum would remain. */
  ghost predicate Burned(before: Asset, assets: map<nat, Asset>, id: nat, who: AccountId, amount: nat) {
    && id in assets && assets[id].minBalance == before.minBalance
    && Get(assets[id].accounts, who, 0) == Left(Get(before.accounts, who, 0), amount, before.minBalance)
    && (forall a :: a != who ==> Get(assets[id].accounts, a, 0) == Get(before.accounts, a, 0))
  }

  /** Exactly when wrapped tokens can be burned towards the mainchain: only the fee reaches the escrow. */
  lemma BurnOutcome(cfg: Config, b: BridgeState, activated: bool, sender: AccountId, assetId: nat,
                    found: Option<RawText>, receiver: RawText, amount: nat)
    requires sender != cfg.escrow
    ensures var r := b.BurnFound(cfg, activated, Signed(sender), assetId, found, receiver, amount);
            var have, held := Get(b.shared.free, sender, 0), Get(b.shared.free, cfg.escrow, 0);
            var fee := Get(b.fees, Fungible, 0);
            && (r.Ok? <==> && activated && receiver.Utf8? && found.Some? && found.value.Utf8?
                           && CanPay(cfg, have, held, fee)
                           && assetId in b.assets && amount <= Get(b.assets[assetId].accounts, sender, 0)
                           && Accepts(cfg, b, BurnAssetPayload(found.value.text, sender, receiver.text, amount, fee)))
            && (r.Ok? ==>
                  && Settled(cfg, b.shared.free, r.value.shared.free, sender,
                             Left(have, fee, cfg.existentialDeposit), fee)
                  && Burned(b.assets[assetId], r.value.assets, assetId, sender, amount)
                  && (forall other :: other in b.assets && other != assetId ==>
                        other in r.value.assets && r.value.assets[other] == b.assets[other]))
  {
    var fee := Get(b.fees, Fungible, 0);
    PayOutcome(cfg, b, sender, fee);
    if receiver.Utf8? && found.Some? && found.value.Utf8? {
      UpwardMessages.SubmitExtendsStream(cfg.messages, b.shared.queue,
        BurnAssetPayload(found.value.text, sender, receiver.text, amount, fee));
    }
  }

  /** Exactly when a collectible can be locked: the escrow becomes its owner and receives the fee. */
  lemma LockNftOutcome(cfg: Config, b: BridgeState, activated: bool, sender: AccountId, collection: nat, item: nat,
                       receiver: RawText, metadata: Option<string>)
    requires sender != cfg.escrow
    ensures var r := b.LockNonfungible(cfg, activated, Signed(sender), collection, item, receiver, metadata);
            var have, held := Get(b.shared.free, sender, 0), Get(b.shared.free, cfg.escrow, 0);
            var fee, key := Get(b.fees, Nonfungible, 0), (collection, item);
            && (r.Ok? <==> && activated && receiver.Utf8? && metadata.Some? && CanPay(cfg, have, held, fee)
                           && key in b.nfts
                           && Accepts(cfg, b, LockNftPayload(sender, receiver.text, collection, item,
                                                             metadata.value, fee)))
            && (r.Ok? ==>
                  && Settled(cfg, b.shared.free, r.value.shared.free, sender,
                             Left(have, fee, cfg.existentialDeposit), fee)
                  && r.value.nfts == b.nfts[key := cfg.escrow] && r.value.assets == b.assets)
  {
    PayOutcome(cfg, b, sender, Get(b.fees, Nonfungible, 0));
  }
}
