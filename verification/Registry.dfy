/** What root and the oracle store: prices and the fee they imply, the coefficient, the oracle and the token table. */
module Registry {
  import opened Base
  import opened Bridge
  import Fee

  // ---------------------------------------------------------------- prices

  /**
   * A price report is accepted exactly from the oracle account, for two prices that are not 0 and a fee that is a
   * balance. Both prices and the fee for both kinds of transfer are then stored, and nothing else changes.
   */
  lemma SetPriceOutcome(cfg: Config, b: BridgeState, origin: Origin, near: nat, native: nat)
    ensures var r := b.SetTokenPrice(cfg, origin, near, native);
            && (r.Ok? <==>
                  && origin.Signed? && b.oracle == Some(origin.who) && near != 0 && native != 0
                  && Fee.ChargedFee(near, native, b.coef, cfg.threshold, cfg.nativeTokenDecimals) <= cfg.maxBalance)
            && (r.Ok? ==>
                  && r.value == b.(nearPrice := Some(near), tokenPrice := Some(native), fees := r.value.fees)
                  && forall kind :: Lookup(r.value.fees, kind)
                       == Some(Fee.ChargedFee(near, native, b.coef, cfg.threshold, cfg.nativeTokenDecimals)))
  {
    var r := b.SetTokenPrice(cfg, origin, near, native);
    if r.Ok? {
      var fee := Fee.ChargedFee(near, native, b.coef, cfg.threshold, cfg.nativeTokenDecimals);
      forall kind ensures Lookup(r.value.fees, kind) == Some(fee) {
        match kind
        case Fungible =>
        case Nonfungible =>
      }
    }
  }

  /** The fee stored for a kind of transfer, in terms of the two prices themselves. */
  ghost predicate FollowsPrices(cfg: Config, b: BridgeState, near: nat, native: nat, coef: nat, kind: TransferType)
    requires 0 < native
  {
    kind in b.fees && Fee.InPrices(near, native, coef, cfg.threshold, cfg.nativeTokenDecimals, b.fees[kind])
  }

  /** As long as the prices do not make it wrap, an accepted report stores the fee its prices stand for. */
  lemma StoredFeeFollowsPrices(cfg: Config, b: BridgeState, origin: Origin, near: nat, native: nat, kind: TransferType)
    requires b.SetTokenPrice(cfg, origin, near, native).Ok? && b.coef <= 100
    requires native != 0 && near / native * b.coef <= U64_MAX
    ensures FollowsPrices(cfg, b.SetTokenPrice(cfg, origin, near, native).value, near, native, b.coef, kind)
  {
    SetPriceOutcome(cfg, b, origin, near, native);
    assert Lookup(b.SetTokenPrice(cfg, origin, near, native).value.fees, kind).Some?;
    Fee.ChargedFeeInPrices(near, native, b.coef, cfg.threshold, cfg.nativeTokenDecimals);
  }

  /** Of two accepted reports under one coefficient, an exact one with the higher ratio never stores the lower fee. */
  lemma HigherRatioNeverCheaper(cfg: Config, b1: BridgeState, origin1: Origin, near1: nat, native1: nat,
                                b2: BridgeState, origin2: Origin, near2: nat, native2: nat, kind: TransferType)
    requires b1.coef == b2.coef <= 100
    requires b1.SetTokenPrice(cfg, origin1, near1, native1).Ok? && b2.SetTokenPrice(cfg, origin2, near2, native2).Ok?
    requires native1 != 0 && native2 != 0 && near1 * native2 <= near2 * native1
    requires Fee.Exact(near2, native2, b2.coef, cfg.threshold)
    ensures Get(b1.SetTokenPrice(cfg, origin1, near1, native1).value.fees, kind, 0)
         <= Get(b2.SetTokenPrice(cfg, origin2, near2, native2).value.fees, kind, 0)
  {
    SetPriceOutcome(cfg, b1, origin1, near1, native1);
    SetPriceOutcome(cfg, b2, origin2, near2, native2);
    var t1 := b1.SetTokenPrice(cfg, origin1, near1, native1).value;
    var t2 := b2.SetTokenPrice(cfg, origin2, near2, native2).value;
    assert Lookup(t1.fees, kind).Some? && Lookup(t2.fees, kind).Some?;
    Fee.FeeMonotone(near1, native1, near2, native2, b1.coef, b2.coef, cfg.threshold, cfg.nativeTokenDecimals);
  }

  // ---------------------------------------------------------------- coefficient and oracle

  /** Root sets a coefficient from 1 to 100 and touches nothing else, the stored fee included. */
  lemma SetCoefOutcome(b: BridgeState, origin: Origin, coef: nat)
    ensures var r := b.SetCoef(origin, coef);
            (r.Ok? <==> origin.Root? && 1 <= coef <= 100) && (r.Ok? ==> r.value == b.(coef := coef))
  {}

  lemma SetOracleOutcome(b: BridgeState, origin: Origin, who: AccountId)
    ensures var r := b.SetOracleAccount(origin, who);
            (r.Ok? <==> origin.Root?) && (r.Ok? ==> r.value == b.(oracle := Some(who)))
  {}

  // ---------------------------------------------------------------- the token table

  /** Nothing but the token table changed, and that for one token only. */
  ghost predicate Registers(b: BridgeState, t: BridgeState, token: RawText, asset: Option<nat>) {
    && t == b.(tokenIds := t.tokenIds)
    && (forall other :: Lookup(t.tokenIds, other) == if other == token then asset else Lookup(b.tokenIds, other))
  }

  /** Root registers a token that has no asset for an asset that has no token, on an activated chain. */
  lemma SetTokenIdOutcome(b: BridgeState, activated: bool, origin: Origin, token: RawText, asset: nat)
    ensures var r := b.SetTokenId(activated, origin, token, asset);
            && (r.Ok? <==> && origin.Root? && activated && Lookup(b.tokenIds, token) == None
                           && forall other :: Lookup(b.tokenIds, other) != Some(asset))
            && (r.Ok? ==> Registers(b, r.value, token, Some(asset)))
  {
    if asset in b.tokenIds.Values {
      var holder :| holder in b.tokenIds && b.tokenIds[holder] == asset;
      assert Lookup(b.tokenIds, holder) == Some(asset);
    }
  }

  /** Root deletes a registered token, on any chain. */
  lemma DeleteTokenIdOutcome(b: BridgeState, origin: Origin, token: RawText)
    ensures var r := b.DeleteTokenId(origin, token);
            && (r.Ok? <==> origin.Root? && Lookup(b.tokenIds, token) != None)
            && (r.Ok? ==> Registers(b, r.value, token, None))
  {}

  /** Deleting what was just registered, and registering again what was just deleted, restores the state. */
  lemma SetAndDeleteUndoEachOther(b: BridgeState, token: RawText, asset: nat)
    ensures var r := b.SetTokenId(true, Root, token, asset);
            r.Ok? ==> r.value.DeleteTokenId(Root, token) == Ok(b)
    ensures var r := b.DeleteTokenId(Root, token);
            r.Ok? && Injective(b.tokenIds) && Lookup(b.tokenIds, token) == Some(asset) ==>
              r.value.SetTokenId(true, Root, token, asset) == Ok(b)
  {
    if token !in b.tokenIds {
      assert b.tokenIds[token := asset] - {token} == b.tokenIds;
    } else if b.tokenIds[token] == asset {
      assert (b.tokenIds - {token})[token := asset] == b.tokenIds;
      if Injective(b.tokenIds) {
        assert asset !in (b.tokenIds - {token}).Values;
      }
    }
  }
}
