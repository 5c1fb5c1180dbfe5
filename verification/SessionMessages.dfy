/** What the session machinery tells the mainchain: the last session of an era, and who is left out of its payout. */
module SessionMessages {
  import opened Base
  import opened Payloads
  import opened Ledger
  import opened Lpos
  import opened EraRuns
  import opened EraTheorems
  import EraHistory
  import StakeFacts
  import UpwardMessages

  // ---------------------------------------------------------------- one message

  /** Whether the queue has room for a payload of this length under a next nonce. */
  ghost predicate Takes(cfg: UpwardMessages.Config, q: UpwardMessages.Queue, payload: Payload) {
    && |q.pending| < cfg.maxMessagesPerCommit && cfg.encodedLen(payload) <= cfg.maxPayloadSize && q.nonce != U64_MAX
  }

  /** The stream gains exactly this payload under the next nonce, if the queue takes it; otherwise nothing changes. */
  ghost predicate Sends(cfg: UpwardMessages.Config, q: UpwardMessages.Queue, t: UpwardMessages.Queue,
                        payload: Payload)
  {
    if Takes(cfg, q, payload) then
      && t.Stream() == q.Stream() + [UpwardMessages.Message(q.nonce + 1, payload)]
      && t.nonce == q.nonce + 1 && t.committed == q.committed
    else t == q
  }

  lemma SendIs(cfg: Config, shared: Shared, payload: Payload)
    ensures var t := LposState.Send(cfg, shared, payload);
            t.free == shared.free && Sends(cfg.messages, shared.queue, t.queue, payload)
  {
    UpwardMessages.SubmitExtendsStream(cfg.messages, shared.queue, payload);
  }

  // ---------------------------------------------------------------- announcing an era

  /**
   * Planning session n sends the next set id to the mainchain exactly when the chain is activated and n is the last
   * session of an era of at least two; otherwise balances and queue are left alone.
   */
  lemma NewSessionTells(cfg: Config, l: LposState, n: nat, reach: nat, app: Appchain, shared: Shared)
    requires PlannedOk(cfg, l, n, reach)
    ensures var after := l.NewSession(cfg, shared, n, app).1;
            if app.isActivated && Announces(cfg, n) then
              && after.free == shared.free
              && Sends(cfg.messages, shared.queue, after.queue, PlanNewEraPayload(app.nextSetId))
            else after == shared
  {
    var length := cfg.sessionsPerEra;
    if 0 < n {
      NextSession(Length(cfg), n);
      assert Stored(l.eras, l.log.plannedEras, |l.log.plannedEras| - 1);
      assert l.EraLength(n) == n - (n - 1) / Length(cfg) * Length(cfg);
    }
    if 2 <= length {
      LastSession(length, n);
    }
    SendIs(cfg, shared, PlanNewEraPayload(app.nextSetId));
  }

  // ---------------------------------------------------------------- reporting a payout

  /** Eighty times the average in 32 bits: a hundred times the points that keep a staker in. */
  function HundredfoldThreshold(total: nat, stakers: nat): nat {
    if stakers == 0 then 0 else WrapU32(total / stakers * 80)
  }

  /** The stakers a payout leaves out: all if nobody earned a point, else those without entry or below the threshold. */
  function LeftOut(stakers: map<AccountId, nat>, points: RewardPoints): set<AccountId> {
    set v | v in stakers &&
      (|| points.individual == map[] || v !in points.individual
       || 100 * (points.individual[v] + 1) <= HundredfoldThreshold(points.total, |stakers|))
  }

  lemma ExcludedAreLeftOut(stakers: map<AccountId, nat>, points: RewardPoints)
    requires points.individual != map[] ==> stakers != map[]
    ensures Excluded(stakers, points) == LeftOut(stakers, points)
  {
    if points.individual != map[] {
      assert |stakers.Keys| > 0;
      forall v ensures v in Excluded(stakers, points) <==> v in LeftOut(stakers, points) {
        StakeFacts.ExcludedMeans(stakers, points, v);
      }
    }
  }

  /** What the mainchain is told when the active era ends with a payout. */
  function PayoutReport(l: LposState): Payload
    requires l.activeEra.Some?
  {
    var era := l.activeEra.value;
    EraPayoutPayload(era.setId, LeftOut(l.eras.StakersOf(era.index), l.eras.PointsOf(era.index)), l.offenders)
  }

  /** The amount is credited to the payout account, and nobody else's balance changes. */
  ghost predicate Credited(cfg: Config, before: map<AccountId, nat>, after: map<AccountId, nat>, amount: nat) {
    forall a :: Get(after, a, 0) == Get(before, a, 0) + if a == cfg.payoutAccount then amount else 0
  }

  lemma EndEraTells(cfg: Config, l: LposState, app: Appchain, shared: Shared)
    requires l.OwesPayout(app) && l.CanExclude() && l.eraPayout <= cfg.maxBalance
    ensures var after := l.EndEra(cfg, shared, app).1;
            && Credited(cfg, shared.free, after.free, l.eraPayout)
            && Sends(cfg.messages, shared.queue, after.queue, PayoutReport(l))
  {
    var era := l.activeEra.value;
    ExcludedAreLeftOut(l.eras.StakersOf(era.index), l.eras.PointsOf(era.index));
    SendIs(cfg, shared.(free := Deposited(shared.free, cfg.payoutAccount, l.eraPayout)), PayoutReport(l));
  }

  /**
   * Ending a session pays and reports exactly when the active era ends, is due its payout and the amount is a balance:
   * under the set id the era reports, with the stakers left out and the offenders counted so far.
   */
  lemma EndSessionTells(cfg: Config, floor: nat, m: Machine, app: Appchain, shared: Shared)
    requires Inv(cfg, floor, m) && Enabled(floor, m, End, app)
    ensures var l, after := m.lpos, m.lpos.EndSession(cfg, shared, m.driver.ended, app).1;
            if PayoutDue(cfg, m, app) && l.eraPayout <= cfg.maxBalance then
              && Credited(cfg, shared.free, after.free, l.eraPayout)
              && Sends(cfg.messages, shared.queue, after.queue, PayoutReport(l))
            else after == shared
  {
    DueIsOwed(cfg, floor, m, app);
    if PayoutDue(cfg, m, app) && m.lpos.eraPayout <= cfg.maxBalance {
      EndEraTells(cfg, m.lpos, app, shared);
    }
  }
}
