/** The bridge pallet: calls that update storage in place, with rollback where the call is transactional. */
module BridgePallet {
  import opened Base
  import opened Payloads
  import opened Ledger
  import opened Bridge
  import UpwardMessages
  import Fee

  class Pallet {
    const cfg: Config
    const currency: Balances
    const messages: UpwardMessages.MessagePallet
    var assets: map<nat, Asset>
    var nfts: map<(nat, nat), AccountId>
    var assetIdByTokenId: map<RawText, nat>
    var crosschainTransferFee: map<TransferType, nat>
    var oracleAccount: Option<AccountId>
    var tokenPrice: Option<nat>
    var nearPrice: Option<nat>
    var coef: nat
    ghost var events: seq<Event>

    constructor (cfg: Config, currency: Balances, messages: UpwardMessages.MessagePallet,
                 assets: map<nat, Asset>, nfts: map<(nat, nat), AccountId>, tokenIds: map<RawText, nat>)
      requires currency.existentialDeposit == cfg.existentialDeposit && messages.cfg == cfg.messages
      ensures this.cfg == cfg && this.currency == currency && this.messages == messages && Wired()
      ensures View() == BridgeState(Shared(currency.free, messages.View()), assets, nfts, tokenIds,
                                    map[], None, None, None, 3, [])
    {
      this.cfg, this.currency, this.messages := cfg, currency, messages;
      this.assets, this.nfts, assetIdByTokenId := assets, nfts, tokenIds;
      crosschainTransferFee, oracleAccount, tokenPrice, nearPrice, coef := map[], None, None, None, 3;
      events := [];
    }

    ghost predicate Wired() {
      currency.existentialDeposit == cfg.existentialDeposit && messages.cfg == cfg.messages
    }

    ghost function View(): BridgeState
      reads this, currency, messages
    {
      BridgeState(Shared(currency.free, messages.View()), assets, nfts, assetIdByTokenId,
                  crosschainTransferFee, oracleAccount, tokenPrice, nearPrice, coef, events)
    }

    // -------------------------------------------------------------- lookups

    method TryGetAssetId(token: RawText) returns (r: Result<nat, Error>)
      ensures r == if token in assetIdByTokenId then Ok(assetIdByTokenId[token]) else Err(NoTokenId)
    {
      if token in assetIdByTokenId {
        return Ok(assetIdByTokenId[token]);
      }
      return Err(NoTokenId);
    }

    /** Searches the table; with an injective table there is at most one token to find. */
    method TryGetTokenId(assetId: nat) returns (r: Result<RawText, Error>)
      ensures r.Err? ==> r.error == NoAssetId
      ensures Finds(assetIdByTokenId, assetId, if r.Ok? then Some(r.value) else None)
      ensures Injective(assetIdByTokenId) ==>
                TokenOf(assetIdByTokenId, assetId) == if r.Ok? then Some(r.value) else None
    {
      var rest := assetIdByTokenId.Keys;
      while rest != {}
        invariant rest <= assetIdByTokenId.Keys
        invariant forall t :: t in assetIdByTokenId && t !in rest ==> assetIdByTokenId[t] != assetId
        decreases |rest|
      {
        var t :| t in rest;
        if assetIdByTokenId[t] == assetId {
          TokenOfFinds(assetIdByTokenId, assetId, Some(t));
          return Ok(t);
        }
        rest := rest - {t};
      }
      TokenOfFinds(assetIdByTokenId, assetId, None);
      return Err(NoAssetId);
    }

    // -------------------------------------------------------------- fees

    method LockTransferFee(sender: AccountId, kind: TransferType) returns (r: Result<nat, Error>)
      requires Wired()
      modifies currency
      ensures match old(View()).PayFee(cfg, sender, kind)
              case Ok(b) => View() == b && r == Ok(b.FeeFor(kind))
              case Err(e) => View() == old(View()) && r == Err(e)
    {
      var fee := 0;
      if kind in crosschainTransferFee {
        fee := crosschainTransferFee[kind];
      }
      var paid := currency.Transfer(sender, cfg.escrow, fee, false);
      if paid.Err? {
        return Err(NotEnoughBalanceForDeductionFee);
      }
      return Ok(fee);
    }

    method CalculateAndUpdateFee(near: nat, native: nat) returns (r: Result<(), Error>)
      requires 0 < native && coef <= 100
      modifies this`crosschainTransferFee
      ensures var fee := Fee.ChargedFee(near, native, coef, cfg.threshold, cfg.nativeTokenDecimals);
              if fee > cfg.maxBalance then
                r == Err(InvalidFeeMakeOverflow) && crosschainTransferFee == old(crosschainTransferFee)
              else
                r == Ok(()) && crosschainTransferFee == map[Fungible := fee, Nonfungible := fee]
    {
      var fee := Fee.CalculateFee(near, native, coef, cfg.threshold, cfg.nativeTokenDecimals);
      if fee > cfg.maxBalance {
        return Err(InvalidFeeMakeOverflow);
      }
      crosschainTransferFee := crosschainTransferFee[Fungible := fee];
      crosschainTransferFee := crosschainTransferFee[Nonfungible := fee];
      assert forall k :: k in crosschainTransferFee ==> k == Fungible || k == Nonfungible;
      return Ok(());
    }

    method SetTokenPrice(origin: Origin, near: nat, native: nat) returns (r: Result<(), Error>)
      requires Wired() && coef <= 100
      modifies this
      ensures View() == old(View()).Call(cfg, true, SetPriceCall(origin, near, native))
      ensures r.Ok? <==> old(View()).SetTokenPrice(cfg, origin, near, native).Ok?
    {
      if !origin.Signed? {
        return Err(BadOrigin);
      }
      if near == 0 {
        return Err(NearPriceSetedIsZero);
      }
      if native == 0 {
        return Err(NativeTokenPriceSetedIsZero);
      }
      if oracleAccount.None? {
        return Err(NoOracleAccount);
      }
      if origin.who != oracleAccount.value {
        return Err(UpdatePriceWithNoPermissionAccount);
      }
      var tokenPrice0, nearPrice0 := tokenPrice, nearPrice;
      tokenPrice := Some(native);
      nearPrice := Some(near);
      r := CalculateAndUpdateFee(near, native);
      if r.Err? {
        tokenPrice, nearPrice := tokenPrice0, nearPrice0;
      }
    }

    method SetCoef(origin: Origin, newCoef: nat) returns (r: Result<(), Error>)
      modifies this`coef
      ensures View() == old(View()).Call(cfg, true, SetCoefCall(origin, newCoef))
      ensures r.Ok? <==> origin.Root? && 0 < newCoef <= 100
    {
      if !origin.Root? {
        return Err(BadOrigin);
      }
      if !(newCoef > 0 && newCoef <= 100) {
        return Err(InvalidCoef);
      }
      coef := newCoef;
      return Ok(());
    }

    method SetOracleAccount(origin: Origin, who: AccountId) returns (r: Result<(), Error>)
      modifies this`oracleAccount
      ensures View() == old(View()).Call(cfg, true, SetOracleCall(origin, who))
      ensures r.Ok? <==> origin.Root?
    {
      if !origin.Root? {
        return Err(BadOrigin);
      }
      oracleAccount := Some(who);
      return Ok(());
    }

    // -------------------------------------------------------------- the token table

    method SetTokenId(activated: bool, origin: Origin, token: RawText, assetId: nat) returns (r: Result<(), Error>)
      modifies this`assetIdByTokenId
      ensures View() == old(View()).Call(cfg, activated, SetTokenIdCall(origin, token, assetId))
      ensures r.Ok? <==> old(View()).SetTokenId(activated, origin, token, assetId).Ok?
      ensures Injective(old(assetIdByTokenId)) ==> Injective(assetIdByTokenId)
    {
      if !origin.Root? {
        return Err(BadOrigin);
      }
      if !activated {
        return Err(NotActivated);
      }
      if token in assetIdByTokenId {
        return Err(TokenIdInUse);
      }
      var found := TryGetTokenId(assetId);
      if found.Ok? {
        assert assetIdByTokenId[found.value] in assetIdByTokenId.Values;
        return Err(AssetIdInUse);
      }
      assert forall t :: t in assetIdByTokenId ==> assetIdByTokenId[t] in assetIdByTokenId.Values;
      assetIdByTokenId := assetIdByTokenId[token := assetId];
      return Ok(());
    }

    method DeleteTokenId(origin: Origin, token: RawText) returns (r: Result<(), Error>)
      modifies this`assetIdByTokenId
      ensures View() == old(View()).Call(cfg, true, DeleteTokenIdCall(origin, token))
      ensures r.Ok? <==> origin.Root? && token in old(assetIdByTokenId)
    {
      if !origin.Root? {
        return Err(BadOrigin);
      }
      if token !in assetIdByTokenId {
        return Err(TokenIdNotExist);
      }
      assetIdByTokenId := assetIdByTokenId - {token};
      return Ok(());
    }

    // -------------------------------------------------------------- upward transfers

    /** What a failing step may leave behind for the transactional caller to undo. */
    twostate predicate OnlySharedTouched()
      reads this, currency, messages
    {
      && View() == old(View()).(shared := View().shared)
      && messages.committed == old(messages.committed)
    }

    method DoLock(sender: AccountId, receiver: RawText, amount: nat) returns (r: Result<(), Error>)
      requires Wired()
      modifies this`events, currency, messages`nonce, messages`messageQueue
      ensures match old(View()).Lock(cfg, true, Signed(sender), receiver, amount)
              case Ok(b) => View() == b && r == Ok(())
              case Err(e) => OnlySharedTouched() && r == Err(e)
    {
      if receiver.NotUtf8? {
        return Err(InvalidReceiverId);
      }
      if amount > U128_MAX {
        return Err(AmountOverflow);
      }
      var fee := LockTransferFee(sender, Fungible);
      if fee.Err? {
        return Err(fee.error);
      }
      var paid := currency.Transfer(sender, cfg.escrow, amount, false);
      if paid.Err? {
        return Err(FromBalances(paid.error));
      }
      var sequence := messages.Submit(LockPayload(sender, receiver.text, amount, fee.value));
      if sequence.Err? {
        return Err(FromMessages(sequence.error));
      }
      events := events + [Locked(sender, receiver.text, amount, fee.value, sequence.value)];
      return Ok(());
    }

    method Lock(activated: bool, origin: Origin, receiver: RawText, amount: nat) returns (r: Result<(), Error>)
      requires Wired()
      modifies this`events, currency, messages`nonce, messages`messageQueue
      ensures View() == old(View()).Call(cfg, activated, LockCall(origin, receiver, amount))
      ensures r.Ok? <==> old(View()).Lock(cfg, activated, origin, receiver, amount).Ok?
    {
      var free0, nonce0, queue0 := currency.free, messages.nonce, messages.messageQueue;
      if !origin.Signed? {
        return Err(BadOrigin);
      }
      if !activated {
        return Err(NotActivated);
      }
      r := DoLock(origin.who, receiver, amount);
      if r.Err? {
        currency.free, messages.nonce, messages.messageQueue := free0, nonce0, queue0;
      }
    }

    /** The token id to report for an asset, as text; `found` is what the search by asset yields. */
    method TokenText(assetId: nat) returns (r: Result<string, Error>, ghost found: Option<RawText>)
      ensures r.Ok? ==> Lookup(assetIdByTokenId, Utf8(r.value)) == Some(assetId)
      ensures r == Err(NoAssetId) <==> assetId !in assetIdByTokenId.Values
      ensures Finds(assetIdByTokenId, assetId, found)
      ensures Injective(assetIdByTokenId) ==> found == TokenOf(assetIdByTokenId, assetId)
      ensures r == if found.None? then Err(NoAssetId)
                   else if found.value.NotUtf8? then Err(InvalidTokenId)
                   else Ok(found.value.text)
    {
      var token := TryGetTokenId(assetId);
      if token.Err? {
        return Err(NoAssetId), None;
      }
      if token.value.NotUtf8? {
        return Err(InvalidTokenId), Some(token.value);
      }
      return Ok(token.value.text), Some(token.value);
    }

    /** Fee, burn, message and event, once token and receiver are known as text. */
    method BurnText(assetId: nat, token: string, sender: AccountId, receiverId: string, amount: nat)
      returns (r: Result<(), Error>)
      requires Wired()
      modifies this`events, this`assets, currency, messages`nonce, messages`messageQueue
      ensures match old(View()).BurnFound(cfg, true, Signed(sender), assetId, Some(Utf8(token)), Utf8(receiverId),
                                          amount)
              case Ok(b) => View() == b && r == Ok(())
              case Err(e) =>
                && r == Err(e)
                && View() == old(View()).(shared := View().shared, assets := assets)
                && messages.committed == old(messages.committed)
    {
      var fee := LockTransferFee(sender, Fungible);
      if fee.Err? {
        return Err(fee.error);
      }
      var burned := BurnFrom(assets, assetId, sender, amount);
      if burned.Err? {
        return Err(FromAssets(burned.error));
      }
      assets := burned.value;
      var sequence := messages.Submit(BurnAssetPayload(token, sender, receiverId, amount, fee.value));
      if sequence.Err? {
        return Err(FromMessages(sequence.error));
      }
      events := events + [Nep141Burned(assetId, sender, receiverId, amount, fee.value, sequence.value)];
      return Ok(());
    }

    /** `found` is the token the search by asset yields. */
    method DoBurnNep141(assetId: nat, sender: AccountId, receiver: RawText, amount: nat)
      returns (r: Result<(), Error>, ghost found: Option<RawText>)
      requires Wired()
      modifies this`events, this`assets, currency, messages`nonce, messages`messageQueue
      ensures Finds(old(assetIdByTokenId), assetId, found)
      ensures Injective(old(assetIdByTokenId)) ==> found == TokenOf(old(assetIdByTokenId), assetId)
      ensures match old(View()).BurnFound(cfg, true, Signed(sender), assetId, found, receiver, amount)
              case Ok(b) => View() == b && r == Ok(())
              case Err(e) =>
                && r == Err(e)
                && View() == old(View()).(shared := View().shared, assets := assets)
                && messages.committed == old(messages.committed)
    {
      if receiver.NotUtf8? {
        found := TokenOf(assetIdByTokenId, assetId);
        TokenOfFinds(assetIdByTokenId, assetId, found);
        return Err(InvalidReceiverId), found;
      }
      var token: Result<string, Error>;
      token, found := TokenText(assetId);
      if token.Err? {
        return Err(token.error), found;
      }
      r := BurnText(assetId, token.value, sender, receiver.text, amount);
    }

    method BurnNep141(activated: bool, origin: Origin, assetId: nat, receiver: RawText, amount: nat)
      returns (r: Result<(), Error>, ghost found: Option<RawText>)
      requires Wired()
      modifies this`events, this`assets, currency, messages`nonce, messages`messageQueue
      ensures Finds(old(assetIdByTokenId), assetId, found)
      ensures Injective(old(assetIdByTokenId)) ==> found == TokenOf(old(assetIdByTokenId), assetId)
      ensures var burned := old(View()).BurnFound(cfg, activated, origin, assetId, found, receiver, amount);
              View() == old(View()).After(burned) && (r.Ok? <==> burned.Ok?)
    {
      found := TokenOf(assetIdByTokenId, assetId);
      TokenOfFinds(assetIdByTokenId, assetId, found);
      var free0, nonce0, queue0, assets0 := currency.free, messages.nonce, messages.messageQueue, assets;
      if !origin.Signed? {
        return Err(BadOrigin), found;
      }
      if !activated {
        return Err(NotActivated), found;
      }
      r, found := DoBurnNep141(assetId, origin.who, receiver, amount);
      if r.Err? {
        currency.free, messages.nonce, messages.messageQueue, assets := free0, nonce0, queue0, assets0;
      }
    }

    method DoLockNonfungible(collection: nat, item: nat, sender: AccountId, receiver: RawText, metadata: Option<string>)
      returns (r: Result<(), Error>)
      requires Wired()
      modifies this`events, this`nfts, currency, messages`nonce, messages`messageQueue
      ensures match old(View()).LockNonfungible(cfg, true, Signed(sender), collection, item, receiver, metadata)
              case Ok(b) => View() == b && r == Ok(())
              case Err(e) =>
                && r == Err(e)
                && View() == old(View()).(shared := View().shared, nfts := nfts)
                && messages.committed == old(messages.committed)
    {
      if receiver.NotUtf8? {
        return Err(InvalidReceiverId);
      }
      if metadata.None? {
        return Err(ConvertorNotImplement);
      }
      var fee := LockTransferFee(sender, Nonfungible);
      if fee.Err? {
        return Err(fee.error);
      }
      var moved := MoveItem(nfts, collection, item, cfg.escrow);
      if moved.Err? {
        return Err(FromNfts(moved.error));
      }
      nfts := moved.value;
      var sequence := messages.Submit(
        LockNftPayload(sender, receiver.text, collection, item, metadata.value, fee.value));
      if sequence.Err? {
        return Err(FromMessages(sequence.error));
      }
      events := events + [NonfungibleLocked(collection, item, sender, receiver.text, fee.value, sequence.value)];
      return Ok(());
    }

    method LockNonfungible(activated: bool, origin: Origin, collection: nat, item: nat, receiver: RawText,
                           metadata: Option<string>) returns (r: Result<(), Error>)
      requires Wired()
      modifies this`events, this`nfts, currency, messages`nonce, messages`messageQueue
      ensures View() == old(View()).Call(cfg, activated, LockNftCall(origin, collection, item, receiver, metadata))
      ensures r.Ok? <==> old(View()).LockNonfungible(cfg, activated, origin, collection, item, receiver, metadata).Ok?
    {
      var free0, nonce0, queue0, nfts0 := currency.free, messages.nonce, messages.messageQueue, nfts;
      if !origin.Signed? {
        return Err(BadOrigin);
      }
      if !activated {
        return Err(NotActivated);
      }
      r := DoLockNonfungible(collection, item, origin.who, receiver, metadata);
      if r.Err? {
        currency.free, messages.nonce, messages.messageQueue, nfts := free0, nonce0, queue0, nfts0;
      }
    }

    // -------------------------------------------------------------- transfers ordered by the mainchain or by root

    method Unlock(senderId: RawText, receiver: AccountId, amount: nat, index: nat) returns (r: Result<(), Error>)
      requires Wired()
      modifies this`events, currency
      ensures View() == old(View()).Call(cfg, true, UnlockCall(senderId, receiver, amount, index))
      ensures r.Ok? <==> old(View()).Unlock(cfg, senderId, receiver, amount, index).Ok?
      ensures messages.View() == old(messages.View())
    {
      if amount > cfg.maxBalance {
        return Err(AmountOverflow);
      }
      var paid := currency.Transfer(cfg.escrow, receiver, amount, true);
      if paid.Err? {
        return Err(FromBalances(paid.error));
      }
      events := events + [Unlocked(senderId, receiver, amount, index)];
      return Ok(());
    }

    method MintNep141(token: RawText, senderId: RawText, receiver: AccountId, amount: nat, index: nat)
      returns (r: Result<(), Error>)
      modifies this`events, this`assets
      ensures View() == old(View()).Call(cfg, true, MintCall(token, senderId, receiver, amount, index))
      ensures r.Ok? <==> old(View()).MintNep141(token, senderId, receiver, amount, index).Ok?
    {
      var assetId := TryGetAssetId(token);
      if assetId.Err? {
        return Err(NoTokenId);
      }
      var minted := MintInto(assets, assetId.value, receiver, amount);
      if minted.Err? {
        return Err(FromAssets(minted.error));
      }
      assets := minted.value;
      events := events + [Nep141Minted(assetId.value, senderId, receiver, amount, index)];
      return Ok(());
    }

    method UnlockNonfungible(collection: nat, item: nat, senderId: RawText, receiver: AccountId, index: nat)
      returns (r: Result<(), Error>)
      modifies this`events, this`nfts
      ensures View() == old(View()).Call(cfg, true, UnlockNftCall(collection, item, senderId, receiver, index))
      ensures r.Ok? <==> old(View()).UnlockNonfungible(collection, item, senderId, receiver, index).Ok?
    {
      var moved := MoveItem(nfts, collection, item, receiver);
      if moved.Err? {
        return Err(FromNfts(moved.error));
      }
      nfts := moved.value;
      events := events + [NonfungibleUnlocked(collection, item, senderId, receiver, index)];
      return Ok(());
    }

    method ForceUnlock(origin: Origin, who: AccountId, amount: nat) returns (r: Result<(), Error>)
      requires Wired()
      modifies this`events, currency
      ensures View() == old(View()).Call(cfg, true, ForceUnlockCall(origin, who, amount))
      ensures r.Ok? <==> old(View()).ForceUnlock(cfg, origin, who, amount).Ok?
    {
      if !origin.Root? {
        return Err(BadOrigin);
      }
      var paid := currency.Transfer(cfg.escrow, who, amount, true);
      if paid.Err? {
        return Err(FromBalances(paid.error));
      }
      events := events + [ForceUnlocked(who, amount)];
      return Ok(());
    }
  }
}
