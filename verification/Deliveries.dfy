/** All or nothing: what carrying out a notification does to the ledgers, and how the history records it. */
module Deliveries {
  import opened Base
  import opened Observations
  import opened Voting
  import opened System
  import Bridge
  import Escrow

  /** Counter and history advance with every delivery, whether or not the bridge refused. */
  ghost predicate Recorded(v: VotingState, t: VotingState, o: Observation, result: NotificationResult) {
    && t.nextNotificationId == v.nextNotificationId + 1
    && t.history == v.history[o.Index() := result]
    && t.delivered == v.delivered + [Delivery(o, result)]
    && t.planned == v.planned && t.nextSetId == v.nextSetId
  }

  lemma DeliveryRecorded(c: Config, v: VotingState, o: Observation)
    requires Wired(c) && o.IsNotification() && v.nextNotificationId != U32_MAX
    ensures v.Execute(c.p, o).Ok?
    ensures var t := v.Execute(c.p, o).value;
            var (call, failure) := v.CallFor(o);
            var outcome := v.bridge.Perform(c.bridge, true, call);
            Recorded(v, t, o, if outcome.Ok? then Success else failure) && t.bridge == v.bridge.After(outcome)
  {}

  lemma UnlockOutcome(c: Config, b: Bridge.BridgeState, senderId: RawText, receiver: AccountId, amount: nat, index: nat)
    ensures var r := b.Unlock(c.bridge, senderId, receiver, amount, index);
            && (r.Ok? <==> amount <= c.bridge.maxBalance && Escrow.Payable(c.bridge, b.shared.free, receiver, amount))
            && (r.Ok? ==> Escrow.Paid(c.bridge, b.shared.free, r.value.shared.free, receiver, amount)
                          && r.value.assets == b.assets && r.value.nfts == b.nfts)
  {}

  /**
   * A burn on the mainchain moves its amount out of the escrow and is recorded as a success exactly when amount and
   * balances allow it; otherwise it is recorded as failed and the bridge is as before.
   */
  lemma BurnOutcome(c: Config, v: VotingState, o: Observation)
    requires Wired(c) && o.Burn? && v.nextNotificationId != U32_MAX
    ensures v.Execute(c.p, o).Ok?
    ensures var t, free := v.Execute(c.p, o).value, v.bridge.shared.free;
            var success := o.amount <= c.bridge.maxBalance && Escrow.Payable(c.bridge, free, o.receiver, o.amount);
            && Recorded(v, t, o, if success then Success else UnlockFailed)
            && (success ==> Escrow.Paid(c.bridge, free, t.bridge.shared.free, o.receiver, o.amount))
            && (!success ==> t.bridge == v.bridge)
  {
    DeliveryRecorded(c, v, o);
    UnlockOutcome(c, v.bridge, o.senderId, o.receiver, o.amount, o.index);
  }

  /** Whether the token is registered for an asset that can hold the new balance. */
  predicate Mintable(b: Bridge.BridgeState, token: RawText, receiver: AccountId, amount: nat) {
    && token in b.tokenIds && b.tokenIds[token] in b.assets
    && (var asset := b.assets[b.tokenIds[token]];
        amount == 0 || asset.minBalance <= Get(asset.accounts, receiver, 0) + amount)
  }

  lemma MintOutcome(c: Config, v: VotingState, o: Observation)
    requires Wired(c) && o.LockAsset? && v.nextNotificationId != U32_MAX
    ensures v.Execute(c.p, o).Ok?
    ensures var t, success := v.Execute(c.p, o).value, Mintable(v.bridge, o.tokenId, o.receiver, o.amount);
            && Recorded(v, t, o, if success then Success else AssetMintFailed)
            && (success ==>
                  var id := v.bridge.tokenIds[o.tokenId];
                  && t.bridge.assets.Keys == v.bridge.assets.Keys
                  && (forall a :: Get(t.bridge.assets[id].accounts, a, 0)
                                  == Get(v.bridge.assets[id].accounts, a, 0)
                                     + (if a == o.receiver then o.amount else 0))
                  && (forall other :: other in v.bridge.assets && other != id ==>
                        t.bridge.assets[other] == v.bridge.assets[other])
                  && t.bridge.shared == v.bridge.shared)
            && (!success ==> t.bridge == v.bridge)
  {
    DeliveryRecorded(c, v, o);
    var r := v.bridge.MintNep141(o.tokenId, o.senderId, o.receiver, o.amount, o.index);
    assert r.Ok? <==> Mintable(v.bridge, o.tokenId, o.receiver, o.amount);
  }

  lemma NftOutcome(c: Config, v: VotingState, o: Observation)
    requires Wired(c) && o.BurnNft? && v.nextNotificationId != U32_MAX
    ensures v.Execute(c.p, o).Ok?
    ensures var t, key := v.Execute(c.p, o).value, (o.collection, o.item);
            && Recorded(v, t, o, if key in v.bridge.nfts then Success else NftUnlockFailed)
            && (key in v.bridge.nfts ==>
                  t.bridge.nfts == v.bridge.nfts[key := o.receiver] && t.bridge.shared == v.bridge.shared)
            && (key !in v.bridge.nfts ==> t.bridge == v.bridge)
  {}
}
