/**
 * What an undisturbed execution does in any state that the platform can reach: a refund
 * or payout that cannot be funded ends without a posting; one that the provider declines,
 * or that was never sent, leaves every balance as it found it.
 */
module ServiceOutcomes {
  import opened Prelude
  import opened Money
  import opened Chart
  import opened Posting
  import opened Books
  import opened Fsm
  import opened Engine
  import opened EngineOutcomes
  import opened EngineBalances
  import opened EngineCaptures
  import opened EngineRefunds
  import opened EngineLaws
  import opened Services
  import EngineLedger

  function Available(merchant: string, currency: Currency): Acct {
    Acct(MerchantAvailable, merchant, currency)
  }

  // ---------------------------------------------------------------- refunds

  /** Without the balance to reserve, a refund is canceled and nothing is posted. */
  lemma {:induction false} UnfundedRefundIsCanceled(bps: int, steps: seq<Step>, r: nat, reply: ProviderReply)
    requires var w := Run(bps, steps);
             && r < |w.refunds| && w.refunds[r].status.Created?
             && Bal(w.log, Available(w.refunds[r].merchant, w.refunds[r].currency)) < w.refunds[r].amount
    ensures var w := Run(bps, steps);
            var t := ExecuteRefund(w, r, reply);
            t.refunds[r].status.Canceled? && t.log == w.log
  {
    RunKeepsCore(bps, steps);
    FreshRefundAsks(Run(bps, steps), r);
  }

  lemma {:induction false} LiabilityNotNegative(bps: int, steps: seq<Step>, merchant: string, currency: Currency)
    ensures Bal(Run(bps, steps).log, Acct(RefundLiability, merchant, currency)) >= 0
  {
    var w := Run(bps, steps);
    CustodyOfRefundsAndDisputes(bps, steps, merchant, currency);
    RunKeepsCounted(bps, steps);
    forall i | 0 <= i < |w.refunds| ensures RefundsReserved(merchant, currency)(w.refunds[i]) >= 0 {
      assert RefundOk(w.intents, w.refunds[i]);
    }
    SumNotNegative(w.refunds, RefundsReserved(merchant, currency));
  }

  /** A reservation and its cancellation have no effect together. */
  lemma {:induction false} ReserveAndCancel(w: World, r: nat, x: Acct)
    requires r < |w.refunds|
    ensures Effect(RefundMove(w, r, RequestRefund), x) + Effect(RefundMove(w, r, CancelRefund), x) == 0
  {
  }

  lemma {:induction false} CancelFollowsReserve(w: World, r: nat)
    requires Core(w) && r < |w.refunds| && w.refunds[r].status.Created?
    requires Bal(w.log, Acct(RefundLiability, w.refunds[r].merchant, w.refunds[r].currency)) >= 0
    requires Ask(w.log, RefundMove(w, r, RequestRefund)) == Posted
    ensures var mid := PostRefund(w, r, RequestRefund, RefundStatus.Processing);
            && mid.log == w.log + [RefundMove(w, r, RequestRefund)]
            && mid.refunds == w.refunds[r := w.refunds[r].(status := RefundStatus.Processing)]
            && RefundPosts(mid, r, CancelRefund, RefundStatus.Failed)
  {
    var m, c := RefundMove(w, r, RequestRefund), RefundMove(w, r, CancelRefund);
    var x := Acct(RefundLiability, w.refunds[r].merchant, w.refunds[r].currency);
    assert RefundKeyed(w.log, w.refunds, r);
    HasPush(w.log, m, c.key);
    BalPush(w.log, m, x);
    var mid := PostRefund(w, r, RequestRefund, RefundStatus.Processing);
    assert RefundMove(mid, r, CancelRefund) == c;
  }

  /** A refund that the provider declines, or that was never sent, leaves every balance as it was. */
  lemma {:induction false} DeclinedRefundRestores(bps: int, steps: seq<Step>, r: nat, reply: ProviderReply)
    requires reply.Declined? || reply.NotSent?
    requires var w := Run(bps, steps);
             && r < |w.refunds| && w.refunds[r].status.Created?
             && Bal(w.log, Available(w.refunds[r].merchant, w.refunds[r].currency)) >= w.refunds[r].amount
    ensures var w := Run(bps, steps);
            var t := ExecuteRefund(w, r, reply);
            t.refunds[r].status.Failed? && forall x :: Bal(t.log, x) == Bal(w.log, x)
  {
    var w := Run(bps, steps);
    RunKeepsCore(bps, steps);
    FreshRefundAsks(w, r);
    LiabilityNotNegative(bps, steps, w.refunds[r].merchant, w.refunds[r].currency);
    CancelFollowsReserve(w, r);
    var mid := PostRefund(w, r, RequestRefund, RefundStatus.Processing);
    var m, c := RefundMove(w, r, RequestRefund), RefundMove(mid, r, CancelRefund);
    RejectIsPosting(mid, r);
    assert c == RefundMove(w, r, CancelRefund);
    forall x: Acct ensures Bal(w.log + [m] + [c], x) == Bal(w.log, x) {
      BalPush(w.log, m, x);
      BalPush(w.log + [m], c, x);
      ReserveAndCancel(w, r, x);
    }
    assert ExecuteRefund(w, r, reply).log == w.log + [m] + [c];
  }

  // ---------------------------------------------------------------- payouts

  /** Without the balance to emit, a payout fails and nothing is posted. */
  lemma {:induction false} UnfundedPayoutFails(bps: int, steps: seq<Step>, p: nat, reply: Reply)
    requires var w := Run(bps, steps);
             && p < |w.payouts| && w.payouts[p].status.Requested?
             && Bal(w.log, Available(w.payouts[p].merchant, w.payouts[p].currency)) < w.payouts[p].amount
    ensures var w := Run(bps, steps);
            var t := ExecutePayout(w, p, reply);
            t.payouts[p].status.Failed? && !Stranded(t.payouts[p]) && t.log == w.log
  {
    var w := Run(bps, steps);
    RunKeepsCore(bps, steps);
    FreshPayoutAsks(w, p);
    assert PayoutOk(w.payouts[p]);
  }

  lemma {:induction false} InTransitNotNegative(bps: int, steps: seq<Step>, merchant: string, currency: Currency)
    requires bps >= 0
    ensures Bal(Run(bps, steps).log, Acct(PayoutInTransit, merchant, currency)) >= 0
  {
    var w := Run(bps, steps);
    InTransitFollowsStatuses(bps, steps, merchant, currency);
    EngineLedger.RunIsFit(bps, steps);
    SumNotNegative(w.payouts, PayoutsOnTheirWay(currency));
    SumNotNegative(w.payouts, StrandedMoney(currency));
  }

  lemma {:induction false} EmitAndFail(w: World, p: nat, x: Acct)
    requires p < |w.payouts|
    ensures Effect(PayoutMove(w, p, EmitPayout), x) + Effect(PayoutMove(w, p, FailPayout), x) == 0
  {
  }

  lemma {:induction false} FailFollowsEmit(w: World, p: nat)
    requires Core(w) && p < |w.payouts| && w.payouts[p].status.Requested?
    requires Bal(w.log, Acct(PayoutInTransit, w.payouts[p].merchant, w.payouts[p].currency)) >= 0
    requires Ask(w.log, PayoutMove(w, p, EmitPayout)) == Posted
    ensures var mid := PostPayout(w, p, EmitPayout, PayoutStatus.InTransit);
            && mid.log == w.log + [PayoutMove(w, p, EmitPayout)]
            && mid.payouts == w.payouts[p := w.payouts[p].(status := PayoutStatus.InTransit, held := true)]
            && PayoutPosts(mid, p, FailPayout, PayoutStatus.Failed)
  {
    var m, c := PayoutMove(w, p, EmitPayout), PayoutMove(w, p, FailPayout);
    var x := Acct(PayoutInTransit, w.payouts[p].merchant, w.payouts[p].currency);
    assert PayoutKeyed(w.log, w.payouts, p) && PayoutOk(w.payouts[p]);
    HasPush(w.log, m, c.key);
    BalPush(w.log, m, x);
    var mid := PostPayout(w, p, EmitPayout, PayoutStatus.InTransit);
    assert PayoutMove(mid, p, FailPayout) == c;
  }

  /** A payout that the bank refuses, or that was never sent, leaves every balance as it was. */
  lemma {:induction false} RefusedPayoutRestores(bps: int, steps: seq<Step>, p: nat, reply: Reply)
    requires bps >= 0 && (reply.Refused? || reply.NeverSent?)
    requires var w := Run(bps, steps);
             && p < |w.payouts| && w.payouts[p].status.Requested?
             && Bal(w.log, Available(w.payouts[p].merchant, w.payouts[p].currency)) >= w.payouts[p].amount
    ensures var w := Run(bps, steps);
            var t := ExecutePayout(w, p, reply);
            && t.payouts[p].status.Failed? && !Stranded(t.payouts[p])
            && forall x :: Bal(t.log, x) == Bal(w.log, x)
  {
    var w := Run(bps, steps);
    RunKeepsCore(bps, steps);
    FreshPayoutAsks(w, p);
    InTransitNotNegative(bps, steps, w.payouts[p].merchant, w.payouts[p].currency);
    FailFollowsEmit(w, p);
    var mid := PostPayout(w, p, EmitPayout, PayoutStatus.InTransit);
    var m, c := PayoutMove(w, p, EmitPayout), PayoutMove(mid, p, FailPayout);
    assert c == PayoutMove(w, p, FailPayout);
    forall x: Acct ensures Bal(w.log + [m] + [c], x) == Bal(w.log, x) {
      BalPush(w.log, m, x);
      BalPush(w.log + [m], c, x);
      EmitAndFail(w, p, x);
    }
    assert ExecutePayout(w, p, reply).log == w.log + [m] + [c];
  }

  lemma {:induction false} EmissionMoves(w: World, p: nat)
    requires p < |w.payouts|
    ensures var row := w.payouts[p];
            var m := PayoutMove(w, p, EmitPayout);
            && Effect(m, Available(row.merchant, row.currency)) == -row.amount
            && Effect(m, Acct(PayoutInTransit, row.merchant, row.currency)) == row.amount
  {
  }

  lemma {:induction false} RequestedIsUnposted(w: World, p: nat)
    requires Reachable(w) && p < |w.payouts| && w.payouts[p].status.Requested?
    ensures var log := w.log + [PayoutMove(w, p, EmitPayout)];
            && Has(log, ResourceKey(EmitPayout, p))
            && !Has(log, ResourceKey(SettlePayout, p)) && !Has(log, ResourceKey(FailPayout, p))
  {
    ReachableAgrees(w);
    assert PayoutKeyed(w.log, w.payouts, p);
    HasPush(w.log, PayoutMove(w, p, EmitPayout), ResourceKey(EmitPayout, p));
    HasPush(w.log, PayoutMove(w, p, EmitPayout), ResourceKey(SettlePayout, p));
    HasPush(w.log, PayoutMove(w, p, EmitPayout), ResourceKey(FailPayout, p));
  }

  /**
   * A funded payout whose call to the bank throws, or is not answered yet, is indeterminate
   * with its money held in transit: emitted, neither settled nor returned, so it cannot be
   * paid twice.
   */
  lemma {:induction false} DoubtfulPayoutStaysInTransit(w: World, t: World, p: nat, reply: ProviderReply)
    requires reply.Pending? || reply.Thrown?
    requires Reachable(w) && PayoutExecuted(w, t, p, reply)
    requires p < |w.payouts| && w.payouts[p].status.Requested?
    requires Bal(w.log, Available(w.payouts[p].merchant, w.payouts[p].currency)) >= w.payouts[p].amount
    ensures var row := w.payouts[p];
            var transit, available := Acct(PayoutInTransit, row.merchant, row.currency), Available(row.merchant, row.currency);
            && |t.payouts| == |w.payouts| && t.payouts[p].status.Indeterminate?
            && Has(t.log, ResourceKey(EmitPayout, p))
            && !Has(t.log, ResourceKey(SettlePayout, p)) && !Has(t.log, ResourceKey(FailPayout, p))
            && Bal(t.log, transit) == Bal(w.log, transit) + row.amount
            && Bal(t.log, available) == Bal(w.log, available) - row.amount
  {
    var row, m := w.payouts[p], PayoutMove(w, p, EmitPayout);
    RequestedIsUnposted(w, p);
    EmissionMoves(w, p);
    BalPush(w.log, m, Acct(PayoutInTransit, row.merchant, row.currency));
    BalPush(w.log, m, Available(row.merchant, row.currency));
    assert t.log == w.log + [m];
  }
}
