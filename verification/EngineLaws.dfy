/**
 * What each step of the lifecycles does in any state that can be reached, told from
 * statuses and balances alone: exactly when it takes effect, and what it then leaves. The
 * ledger's answers, the transition maps and the checks of the database are worked out,
 * because on every run the rows, the log and the balances agree.
 */
module EngineLaws {
  import opened Prelude
  import opened Money
  import opened Chart
  import opened Posting
  import opened Books
  import opened Fsm
  import opened Engine
  import opened EngineOutcomes
  import opened EngineBalances
  import opened EngineCaptures
  import opened EngineRefunds

  /** Some run leads here. */
  ghost predicate Reachable(w: World) {
    exists bps: int, steps: seq<Step> :: bps >= 0 && w == Run(bps, steps)
  }

  lemma {:induction false} AfterIsReachable(w: World, steps: seq<Step>)
    requires Reachable(w)
    ensures Reachable(After(w, steps))
  {
    var bps: int, before: seq<Step> :| bps >= 0 && w == Run(bps, before);
    AfterMore(Begin(bps), before, steps);
    assert After(w, steps) == Run(bps, before + steps);
  }

  lemma {:induction false} NextIsReachable(w: World, step: Step)
    requires Reachable(w)
    ensures Reachable(Next(w, step))
  {
    AfterOne(w, step);
    AfterIsReachable(w, [step]);
  }

  lemma {:induction false} ReachableAgrees(w: World)
    requires Reachable(w)
    ensures w.bps >= 0 && Core(w) && Paired(w) && Counted(w) && AmountsPositive(w)
  {
    var bps: int, steps: seq<Step> :| bps >= 0 && w == Run(bps, steps);
    RunKeepsCore(bps, steps);
    RunKeepsPaired(bps, steps);
    RunKeepsCounted(bps, steps);
    RunKeepsAmounts(bps, steps);
  }

  // --------------------------------------------- what is reserved covers its row

  lemma {:induction false} LiabilityCovers(w: World, r: nat)
    requires Reachable(w) && r < |w.refunds| && (w.refunds[r].status.Processing? || w.refunds[r].status.Indeterminate?)
    ensures Bal(w.log, Acct(RefundLiability, w.refunds[r].merchant, w.refunds[r].currency)) >= w.refunds[r].amount
  {
    var bps: int, steps: seq<Step> :| bps >= 0 && w == Run(bps, steps);
    var merchant, currency := w.refunds[r].merchant, w.refunds[r].currency;
    CustodyOfRefundsAndDisputes(bps, steps, merchant, currency);
    ReachableAgrees(w);
    forall k | 0 <= k < |w.refunds| ensures 0 <= RefundsReserved(merchant, currency)(w.refunds[k]) {
      assert RefundOk(w.intents, w.refunds[k]);
    }
    SumBoundsTerm(w.refunds, RefundsReserved(merchant, currency), r);
  }

  lemma {:induction false} TransitCovers(w: World, p: nat)
    requires Reachable(w) && p < |w.payouts| && (w.payouts[p].status.InTransit? || w.payouts[p].status.Indeterminate?)
    ensures Bal(w.log, Acct(PayoutInTransit, w.payouts[p].merchant, w.payouts[p].currency)) >= w.payouts[p].amount
  {
    var bps: int, steps: seq<Step> :| bps >= 0 && w == Run(bps, steps);
    var merchant, currency := w.payouts[p].merchant, w.payouts[p].currency;
    InTransitFollowsStatuses(bps, steps, merchant, currency);
    ReachableAgrees(w);
    SumBoundsTerm(w.payouts, PayoutsOnTheirWay(currency), p);
    SumNotNegative(w.payouts, StrandedMoney(currency));
  }

  lemma {:induction false} TransitNotNegative(w: World, merchant: string, currency: Currency)
    requires Reachable(w)
    ensures Bal(w.log, Acct(PayoutInTransit, merchant, currency)) >= 0
  {
    var bps: int, steps: seq<Step> :| bps >= 0 && w == Run(bps, steps);
    InTransitFollowsStatuses(bps, steps, merchant, currency);
    ReachableAgrees(w);
    SumNotNegative(w.payouts, PayoutsOnTheirWay(currency));
    SumNotNegative(w.payouts, StrandedMoney(currency));
  }

  lemma {:induction false} ReserveCovers(w: World, d: nat)
    requires Reachable(w) && d < |w.disputes| && (w.disputes[d].status.Open? || w.disputes[d].status.UnderReview?)
    ensures Bal(w.log, Acct(DisputeReserve, w.disputes[d].merchant, w.disputes[d].currency)) >= w.disputes[d].amount
  {
    var bps: int, steps: seq<Step> :| bps >= 0 && w == Run(bps, steps);
    var merchant, currency := w.disputes[d].merchant, w.disputes[d].currency;
    CustodyOfRefundsAndDisputes(bps, steps, merchant, currency);
    ReachableAgrees(w);
    SumBoundsTerm(w.disputes, DisputesReserved(merchant, currency), d);
  }

  // ------------------------------------------------------ intents and attempts

  /** A confirmation takes effect exactly on an intent that was never submitted or canceled. */
  lemma {:induction false} ConfirmTakesEffectIff(w: World, i: nat)
    ensures Next(w, IntentConfirm(i)) ==
            if i < |w.intents| && (w.intents[i].status.Created? || w.intents[i].status.RequiresPaymentMethod?
                                   || w.intents[i].status.RequiresConfirmation?) then
              var intent := w.intents[i];
              w.(intents := w.intents[i := intent.(status := IntentStatus.Processing)],
                 attempts := w.attempts
                   + [Attempt(i, intent.merchant, intent.currency, intent.amount, AttemptStatus.Submitting)])
            else w
  {
    if i < |w.intents| && ConfirmPath(w.intents[i].status) != [] {
      PathsReachProcessing(w.intents[i].status);
    }
  }

  /** A cancellation takes effect exactly before an intent is submitted. */
  lemma {:induction false} CancelTakesEffectIff(w: World, i: nat)
    requires Reachable(w)
    ensures Next(w, IntentCancel(i)) ==
            if i < |w.intents| && (w.intents[i].status.Created? || w.intents[i].status.RequiresPaymentMethod?
                                   || w.intents[i].status.RequiresConfirmation?)
            then w.(intents := w.intents[i := w.intents[i].(status := IntentStatus.Canceled)])
            else w
  {
    ReachableAgrees(w);
    if i < |w.intents| {
      assert IntentOk(w.intents[i], Sum(w.attempts, OfIntent(i)));
    }
  }

  /** An attempt whose outcome is not recorded yet. */
  predicate Pending(s: AttemptStatus) {
    s.Submitting? || s.Submitted? || s.Indeterminate?
  }

  function WithAttempt(w: World, a: nat, status: AttemptStatus): World
    requires a < |w.attempts|
  {
    w.(attempts := w.attempts[a := w.attempts[a].(status := status)])
  }

  /** The notes of an execution concern an attempt that is being submitted, and no later one. */
  lemma {:induction false} AttemptMarksTakeEffectIff(w: World, a: nat)
    ensures Next(w, AttemptSubmit(a)) ==
            if a < |w.attempts| && w.attempts[a].status.Submitting? then WithAttempt(w, a, AttemptStatus.Submitted) else w
    ensures Next(w, AttemptDoubt(a)) ==
            if a < |w.attempts| && w.attempts[a].status.Submitting? then WithAttempt(w, a, AttemptStatus.Indeterminate) else w
  {
  }

  /** Its capture posted, the attempt succeeded, and its intent paid with all of it captured. */
  function Captured(w: World, a: nat): World
    requires a < |w.attempts| && w.attempts[a].intent < |w.intents|
  {
    var row := w.attempts[a];
    var intent := w.intents[row.intent];
    w.(log := w.log + [Move(AttemptKey(a), Charge(FeeOn(row.amount, w.bps)), row.merchant, row.currency, row.amount)],
       attempts := w.attempts[a := row.(status := AttemptStatus.Succeeded)],
       intents := w.intents[row.intent := intent.(status := IntentStatus.Succeeded, captured := row.amount)])
  }

  /** The attempt failed and its intent with it, and nothing posted. */
  function Declined(w: World, a: nat): World
    requires a < |w.attempts| && w.attempts[a].intent < |w.intents|
  {
    var row := w.attempts[a];
    w.(attempts := w.attempts[a := row.(status := AttemptStatus.Failed)],
       intents := w.intents[row.intent := w.intents[row.intent].(status := IntentStatus.Failed)])
  }

  /** An approval is captured exactly when its attempt is pending and the fee leaves something. */
  lemma {:induction false} ApprovalTakesEffectIff(w: World, a: nat)
    requires Reachable(w)
    ensures a < |w.attempts| ==> w.attempts[a].intent < |w.intents|
    ensures Next(w, AttemptApprove(a)) ==
            if a < |w.attempts| && Pending(w.attempts[a].status) && FeeOn(w.attempts[a].amount, w.bps) < w.attempts[a].amount
            then Captured(w, a)
            else w
  {
    ReachableAgrees(w);
    if a < |w.attempts| {
      OutcomesAreLegalIff(w.attempts[a].status, RefundStatus.Created, Requested, Open);
      assert AttemptOk(w.intents, w.attempts[a]) && AttemptKeyed(w.log, w.attempts, a);
    }
  }

  /** A decline takes effect exactly on a pending attempt. */
  lemma {:induction false} DeclineTakesEffectIff(w: World, a: nat)
    requires Reachable(w)
    ensures a < |w.attempts| ==> w.attempts[a].intent < |w.intents|
    ensures Next(w, AttemptDecline(a)) ==
            if a < |w.attempts| && Pending(w.attempts[a].status) then Declined(w, a) else w
  {
    ReachableAgrees(w);
    if a < |w.attempts| {
      assert AttemptOk(w.intents, w.attempts[a]);
    }
  }

  // --------------------------------------------------------------- refunds

  function WithRefund(w: World, r: nat, status: RefundStatus): World
    requires r < |w.refunds|
  {
    w.(refunds := w.refunds[r := w.refunds[r].(status := status)])
  }

  /**
   * A refund begins exactly on a paid intent and for a positive amount within what remains:
   * all of that, unless an amount is asked for.
   */
  lemma {:induction false} RefundBeginsIff(w: World, i: nat, asked: Option<int>)
    ensures Next(w, RefundBegin(i, asked)) ==
            if i < |w.intents| && (w.intents[i].status.Succeeded? || w.intents[i].status.PartiallyRefunded?)
               && 0 < (if asked.Some? then asked.value else Remaining(w, i)) <= Remaining(w, i)
            then w.(refunds := w.refunds
                      + [Refund(i, w.intents[i].merchant, w.intents[i].currency,
                                if asked.Some? then asked.value else Remaining(w, i), RefundStatus.Created)])
            else w
  {
  }

  lemma {:induction false} FreshRefundAsks(w: World, r: nat)
    requires Core(w) && r < |w.refunds| && w.refunds[r].status.Created?
    ensures Ask(w.log, RefundMove(w, r, RequestRefund)) ==
            if Bal(w.log, Acct(MerchantAvailable, w.refunds[r].merchant, w.refunds[r].currency)) < w.refunds[r].amount
            then Insufficient else Posted
  {
    assert RefundKeyed(w.log, w.refunds, r);
  }

  /** A refund is reserved exactly when it is new and its merchant's available balance covers it. */
  lemma {:induction false} ReservationTakesEffectIff(w: World, r: nat)
    requires Reachable(w)
    ensures Next(w, RefundReserve(r)) ==
            if r < |w.refunds| && w.refunds[r].status.Created?
               && w.refunds[r].amount <= Bal(w.log, Acct(MerchantAvailable, w.refunds[r].merchant, w.refunds[r].currency))
            then WithRefund(w, r, RefundStatus.Processing).(log := w.log + [RefundMove(w, r, RequestRefund)])
            else w
  {
    ReserveIsPosting(w, r);
    RefundPostingIs(w, r, RequestRefund, RefundStatus.Processing);
    ReachableAgrees(w);
    if r < |w.refunds| && w.refunds[r].status.Created? {
      FreshRefundAsks(w, r);
    }
  }

  /** The provider's clearing balance covers refund r, and its intent has that much left to refund. */
  predicate CanSettle(w: World, r: nat)
    requires r < |w.refunds| && w.refunds[r].intent < |w.intents|
  {
    var row := w.refunds[r];
    && row.amount <= w.intents[row.intent].captured - w.intents[row.intent].refunded
    && row.amount <= Bal(w.log, Acct(ProviderClearing, row.merchant, row.currency))
  }

  /** Its settlement posted, the refund succeeded, its amount counted, and its intent refunded in whole or in part. */
  function SettledRefund(w: World, r: nat): World
    requires r < |w.refunds| && w.refunds[r].intent < |w.intents|
  {
    var row := w.refunds[r];
    var intent := w.intents[row.intent];
    var refunded := intent.refunded + row.amount;
    WithRefund(w, r, RefundStatus.Succeeded).(
      log := w.log + [RefundMove(w, r, Operation.SettleRefund)],
      intents := w.intents[row.intent := intent.(
        refunded := refunded,
        status := if refunded == intent.captured then IntentStatus.Refunded else IntentStatus.PartiallyRefunded)])
  }

  lemma {:induction false} CoveredSettlementPosts(w: World, r: nat)
    requires r < |w.refunds| && (w.refunds[r].status.Processing? || w.refunds[r].status.Indeterminate?)
    requires RefundKeyed(w.log, w.refunds, r)
    requires w.refunds[r].amount <= Bal(w.log, Acct(RefundLiability, w.refunds[r].merchant, w.refunds[r].currency))
    ensures RefundPosts(w, r, Operation.SettleRefund, RefundStatus.Succeeded) <==>
            w.refunds[r].amount <= Bal(w.log, Acct(ProviderClearing, w.refunds[r].merchant, w.refunds[r].currency))
  {
  }

  lemma {:induction false} SettlementIsAsked(w: World, r: nat)
    requires Reachable(w) && r < |w.refunds| && (w.refunds[r].status.Processing? || w.refunds[r].status.Indeterminate?)
    ensures RefundPosts(w, r, Operation.SettleRefund, RefundStatus.Succeeded) <==>
            w.refunds[r].amount <= Bal(w.log, Acct(ProviderClearing, w.refunds[r].merchant, w.refunds[r].currency))
  {
    ReachableAgrees(w);
    LiabilityCovers(w, r);
    CoveredSettlementPosts(w, r);
  }

  /** What the row of a refund's intent tells of it. */
  lemma {:induction false} IntentOfRefund(w: World, r: nat)
    requires Reachable(w) && r < |w.refunds|
    ensures w.refunds[r].amount > 0 && w.refunds[r].intent < |w.intents|
    ensures var intent := w.intents[w.refunds[r].intent];
            && 0 <= intent.refunded <= intent.captured
            && (intent.status.Succeeded? || intent.status.PartiallyRefunded?
                || (intent.status.Refunded? && intent.refunded == intent.captured))
  {
    ReachableAgrees(w);
    assert RefundOk(w.intents, w.refunds[r]);
    assert RefundedOk(w.intents[w.refunds[r].intent], Sum(w.refunds, SettledOn(w.refunds[r].intent)));
  }

  lemma {:induction false} SettlementApplies(w: World, r: nat, intent: Intent)
    requires RefundPosts(w, r, Operation.SettleRefund, RefundStatus.Succeeded)
    requires w.refunds[r].intent < |w.intents| && intent == w.intents[w.refunds[r].intent]
    requires w.refunds[r].amount > 0 && 0 <= intent.refunded <= intent.captured
    requires intent.status.Succeeded? || intent.status.PartiallyRefunded?
             || (intent.status.Refunded? && intent.refunded == intent.captured)
    ensures CloseRefund(w, r) ==
            if intent.refunded + w.refunds[r].amount <= intent.captured then SettledRefund(w, r) else w
  {
  }

  /**
   * A settlement takes effect exactly when the refund is processing or indeterminate, its
   * amount is within what the intent has left, and the provider's clearing covers it.
   */
  lemma {:induction false} SettlementTakesEffectIff(w: World, r: nat)
    requires Reachable(w)
    ensures r < |w.refunds| ==> w.refunds[r].intent < |w.intents|
    ensures Next(w, RefundSettle(r)) ==
            if r < |w.refunds| && (w.refunds[r].status.Processing? || w.refunds[r].status.Indeterminate?) && CanSettle(w, r)
            then SettledRefund(w, r)
            else w
  {
    if r < |w.refunds| {
      IntentOfRefund(w, r);
      if w.refunds[r].status.Processing? || w.refunds[r].status.Indeterminate? {
        SettlementIsAsked(w, r);
        if RefundPosts(w, r, Operation.SettleRefund, RefundStatus.Succeeded) {
          SettlementApplies(w, r, w.intents[w.refunds[r].intent]);
        }
      }
    }
  }

  /** So a refund of all that is left, when clearing covers it, leaves its intent refunded. */
  lemma {:induction false} WholeRefundIsRefunded(w: World, r: nat)
    requires Reachable(w) && r < |w.refunds| && (w.refunds[r].status.Processing? || w.refunds[r].status.Indeterminate?)
    requires w.refunds[r].intent < |w.intents|
    requires w.refunds[r].amount == w.intents[w.refunds[r].intent].captured - w.intents[w.refunds[r].intent].refunded
    requires w.refunds[r].amount <= Bal(w.log, Acct(ProviderClearing, w.refunds[r].merchant, w.refunds[r].currency))
    ensures var t := Next(w, RefundSettle(r));
            var intent := t.intents[w.refunds[r].intent];
            && r < |t.refunds| && t.refunds[r].status.Succeeded?
            && intent.status.Refunded? && intent.refunded == intent.captured
  {
    SettlementTakesEffectIff(w, r);
  }

  lemma {:induction false} CoveredRejectionPosts(w: World, r: nat)
    requires r < |w.refunds| && (w.refunds[r].status.Processing? || w.refunds[r].status.Indeterminate?)
    requires RefundKeyed(w.log, w.refunds, r)
    requires w.refunds[r].amount <= Bal(w.log, Acct(RefundLiability, w.refunds[r].merchant, w.refunds[r].currency))
    ensures RefundPosts(w, r, CancelRefund, RefundStatus.Failed)
  {
  }

  lemma {:induction false} RejectionIsAsked(w: World, r: nat)
    requires Reachable(w) && r < |w.refunds| && (w.refunds[r].status.Processing? || w.refunds[r].status.Indeterminate?)
    ensures RefundPosts(w, r, CancelRefund, RefundStatus.Failed)
  {
    ReachableAgrees(w);
    LiabilityCovers(w, r);
    CoveredRejectionPosts(w, r);
  }

  lemma {:induction false} RefundPostingIs(w: World, r: nat, op: Operation, to: RefundStatus)
    ensures PostRefund(w, r, op, to) ==
            if RefundPosts(w, r, op, to) then WithRefund(w, r, to).(log := w.log + [RefundMove(w, r, op)]) else w
  {
  }

  lemma {:induction false} OnlyOpenRefundsFail(w: World, r: nat)
    requires RefundPosts(w, r, CancelRefund, RefundStatus.Failed)
    ensures w.refunds[r].status.Processing? || w.refunds[r].status.Indeterminate?
  {
    OutcomesAreLegalIff(AttemptStatus.Created, w.refunds[r].status, Requested, Open);
  }

  /** A rejection returns what was reserved exactly when the refund is processing or indeterminate. */
  lemma {:induction false} RejectionTakesEffectIff(w: World, r: nat)
    requires Reachable(w)
    ensures Next(w, RefundReject(r)) ==
            if r < |w.refunds| && (w.refunds[r].status.Processing? || w.refunds[r].status.Indeterminate?)
            then WithRefund(w, r, RefundStatus.Failed).(log := w.log + [RefundMove(w, r, CancelRefund)])
            else w
  {
    RejectIsPosting(w, r);
    RefundPostingIs(w, r, CancelRefund, RefundStatus.Failed);
    if r < |w.refunds| && (w.refunds[r].status.Processing? || w.refunds[r].status.Indeterminate?) {
      RejectionIsAsked(w, r);
    } else if RefundPosts(w, r, CancelRefund, RefundStatus.Failed) {
      OnlyOpenRefundsFail(w, r);
    }
  }

  /** Doubt concerns refunds in processing, and a cancellation without posting those that are new. */
  lemma {:induction false} RefundMarksTakeEffectIff(w: World, r: nat)
    ensures Next(w, RefundDoubt(r)) ==
            if r < |w.refunds| && w.refunds[r].status.Processing? then WithRefund(w, r, RefundStatus.Indeterminate) else w
    ensures Next(w, RefundDrop(r)) ==
            if r < |w.refunds| && w.refunds[r].status.Created? then WithRefund(w, r, RefundStatus.Canceled) else w
  {
  }

  // --------------------------------------------------------------- payouts

  function WithPayout(w: World, p: nat, status: PayoutStatus, held: bool): World
    requires p < |w.payouts|
  {
    w.(payouts := w.payouts[p := w.payouts[p].(status := status, held := held)])
  }

  /** A payout begins exactly for a positive amount within what is available and not yet asked for. */
  lemma {:induction false} PayoutBeginsIff(w: World, merchant: string, currency: Currency, amount: int)
    ensures Next(w, PayoutBegin(merchant, currency, amount)) ==
            if 0 < amount <= Bal(w.log, Acct(MerchantAvailable, merchant, currency))
                             - Sum(w.payouts, AskedFor(merchant, currency))
            then w.(payouts := w.payouts + [Payout(merchant, currency, amount, PayoutStatus.Requested, false)])
            else w
  {
  }

  /** The sweep of stale payouts puts those in transit in doubt, and no other. */
  lemma {:induction false} SweepTakesEffectIff(w: World, p: nat)
    ensures Next(w, PayoutSweep(p)) ==
            if p < |w.payouts| && w.payouts[p].status.InTransit?
            then w.(payouts := w.payouts[p := w.payouts[p].(status := PayoutStatus.Indeterminate)])
            else w
  {
  }

  lemma {:induction false} FreshPayoutAsks(w: World, p: nat)
    requires Core(w) && p < |w.payouts| && w.payouts[p].status.Requested?
    ensures Ask(w.log, PayoutMove(w, p, EmitPayout)) ==
            if Bal(w.log, Acct(MerchantAvailable, w.payouts[p].merchant, w.payouts[p].currency)) < w.payouts[p].amount
            then Insufficient else Posted
  {
    assert PayoutKeyed(w.log, w.payouts, p) && PayoutOk(w.payouts[p]);
  }

  /** An emission posts exactly when the payout is requested and the available balance covers it. */
  lemma {:induction false} EmissionTakesEffectIff(w: World, p: nat)
    requires Reachable(w) && p < |w.payouts|
    ensures PostPayout(w, p, EmitPayout, PayoutStatus.InTransit) ==
            if w.payouts[p].status.Requested?
               && w.payouts[p].amount <= Bal(w.log, Acct(MerchantAvailable, w.payouts[p].merchant, w.payouts[p].currency))
            then WithPayout(w, p, PayoutStatus.InTransit, true).(log := w.log + [PayoutMove(w, p, EmitPayout)])
            else w
  {
    ReachableAgrees(w);
    assert PayoutKeyed(w.log, w.payouts, p) && PayoutOk(w.payouts[p]);
  }

  /** A payout on its way whose money stands in transit. */
  ghost predicate OnItsWay(w: World, p: nat) {
    && Core(w) && p < |w.payouts| && (w.payouts[p].status.InTransit? || w.payouts[p].status.Indeterminate?)
    && w.payouts[p].amount <= Bal(w.log, Acct(PayoutInTransit, w.payouts[p].merchant, w.payouts[p].currency))
  }

  lemma {:induction false} ReachableIsOnItsWay(w: World, p: nat)
    requires Reachable(w) && p < |w.payouts| && (w.payouts[p].status.InTransit? || w.payouts[p].status.Indeterminate?)
    ensures OnItsWay(w, p)
  {
    ReachableAgrees(w);
    TransitCovers(w, p);
  }

  lemma {:induction false} EmittedIsOnItsWay(w: World, p: nat)
    requires Reachable(w) && p < |w.payouts| && w.payouts[p].status.Requested?
    requires w.payouts[p].amount <= Bal(w.log, Acct(MerchantAvailable, w.payouts[p].merchant, w.payouts[p].currency))
    ensures OnItsWay(PostPayout(w, p, EmitPayout, PayoutStatus.InTransit), p)
  {
    ReachableAgrees(w);
    EmissionTakesEffectIff(w, p);
    PostPayoutKeepsKeys(w, p, EmitPayout, PayoutStatus.InTransit);
    EmissionFillsTransit(w, p);
  }

  lemma {:induction false} EmissionFillsTransit(w: World, p: nat)
    requires Reachable(w) && p < |w.payouts|
    ensures Bal(w.log + [PayoutMove(w, p, EmitPayout)], Acct(PayoutInTransit, w.payouts[p].merchant, w.payouts[p].currency))
         >= w.payouts[p].amount
  {
    TransitNotNegative(w, w.payouts[p].merchant, w.payouts[p].currency);
    BalPush(w.log, PayoutMove(w, p, EmitPayout), Acct(PayoutInTransit, w.payouts[p].merchant, w.payouts[p].currency));
  }

  lemma {:induction false} PaymentIsAsked(w: World, p: nat)
    requires OnItsWay(w, p)
    ensures PayoutPosts(w, p, SettlePayout, PayoutStatus.Paid) <==>
            w.payouts[p].amount <= Bal(w.log, Acct(PlatformCash, w.payouts[p].merchant, w.payouts[p].currency))
  {
    assert PayoutKeyed(w.log, w.payouts, p) && PayoutOk(w.payouts[p]);
  }

  lemma {:induction false} ReturnIsAsked(w: World, p: nat)
    requires OnItsWay(w, p)
    ensures PayoutPosts(w, p, FailPayout, PayoutStatus.Failed)
  {
    assert PayoutKeyed(w.log, w.payouts, p) && PayoutOk(w.payouts[p]);
  }

  lemma {:induction false} PayoutPostingIs(w: World, p: nat, op: Operation, to: PayoutStatus)
    ensures PostPayout(w, p, op, to) ==
            if PayoutPosts(w, p, op, to) then WithPayout(w, p, to, op.EmitPayout?).(log := w.log + [PayoutMove(w, p, op)])
            else w
  {
  }

  /** A payout on its way is paid exactly when the platform's cash covers it, and returned always. */
  lemma {:induction false} PayoutClosesIff(w: World, p: nat)
    requires OnItsWay(w, p)
    ensures PostPayout(w, p, SettlePayout, PayoutStatus.Paid) ==
            if w.payouts[p].amount <= Bal(w.log, Acct(PlatformCash, w.payouts[p].merchant, w.payouts[p].currency))
            then WithPayout(w, p, PayoutStatus.Paid, false).(log := w.log + [PayoutMove(w, p, SettlePayout)])
            else w
    ensures PostPayout(w, p, FailPayout, PayoutStatus.Failed) ==
            WithPayout(w, p, PayoutStatus.Failed, false).(log := w.log + [PayoutMove(w, p, FailPayout)])
  {
    PaymentIsAsked(w, p);
    PayoutPostingIs(w, p, SettlePayout, PayoutStatus.Paid);
    ReturnIsAsked(w, p);
    PayoutPostingIs(w, p, FailPayout, PayoutStatus.Failed);
  }

  // -------------------------------------------------------------- disputes

  function WithDispute(w: World, d: nat, status: DisputeStatus): World
    requires d < |w.disputes|
  {
    w.(disputes := w.disputes[d := w.disputes[d].(status := status)])
  }

  function Hold(w: World, merchant: string, currency: Currency, amount: int): Move {
    Move(ResourceKey(Operation.OpenDispute, |w.disputes|), Legs(Operation.OpenDispute), merchant, currency, amount)
  }

  lemma {:induction false} HoldIsAsked(w: World, merchant: string, currency: Currency, amount: int)
    requires Core(w)
    ensures Ask(w.log, Hold(w, merchant, currency, amount)) == Posted <==>
            amount <= Bal(w.log, Acct(MerchantAvailable, merchant, currency))
  {
    assert DisputeKeyed(w.log, w.disputes, |w.disputes|);
  }

  lemma {:induction false} HoldNeedsFunds(w: World, merchant: string, currency: Currency, amount: int)
    requires Ask(w.log, Hold(w, merchant, currency, amount)) == Posted
    ensures amount <= Bal(w.log, Acct(MerchantAvailable, merchant, currency))
  {
  }

  lemma {:induction false} FilingIs(w: World, merchant: string, currency: Currency, amount: int)
    ensures Next(w, DisputeOpen(merchant, currency, amount)) ==
            if amount > 0 && Ask(w.log, Hold(w, merchant, currency, amount)) == Posted
            then w.(log := w.log + [Hold(w, merchant, currency, amount)],
                    disputes := w.disputes + [Dispute(merchant, currency, amount, Open)])
            else w
  {
  }

  /** A dispute is filed, with its hold, exactly when its amount is positive and available. */
  lemma {:induction false} DisputeOpensIff(w: World, merchant: string, currency: Currency, amount: int)
    requires Reachable(w)
    ensures Next(w, DisputeOpen(merchant, currency, amount)) ==
            if 0 < amount <= Bal(w.log, Acct(MerchantAvailable, merchant, currency))
            then w.(log := w.log + [Hold(w, merchant, currency, amount)],
                    disputes := w.disputes + [Dispute(merchant, currency, amount, Open)])
            else w
  {
    ReachableAgrees(w);
    HoldIsAsked(w, merchant, currency, amount);
    FilingIs(w, merchant, currency, amount);
  }

  /** A dispute that is not closed, with its keys and the hold that covers it. */
  ghost predicate HeldDispute(w: World, d: nat) {
    && d < |w.disputes| && (w.disputes[d].status.Open? || w.disputes[d].status.UnderReview?)
    && DisputeKeyed(w.log, w.disputes, d)
    && w.disputes[d].amount <= Bal(w.log, Acct(DisputeReserve, w.disputes[d].merchant, w.disputes[d].currency))
  }

  lemma {:induction false} ReachableIsHeld(w: World, d: nat)
    requires Reachable(w) && d < |w.disputes| && (w.disputes[d].status.Open? || w.disputes[d].status.UnderReview?)
    ensures HeldDispute(w, d)
  {
    ReachableAgrees(w);
    ReserveCovers(w, d);
  }

  lemma {:induction false} WinIsAsked(w: World, d: nat)
    requires HeldDispute(w, d)
    ensures DisputePosts(w, d, WinDispute, Won)
  {
  }

  lemma {:induction false} LossIsAsked(w: World, d: nat)
    requires HeldDispute(w, d)
    ensures DisputePosts(w, d, LoseDispute, Lost) <==>
            w.disputes[d].amount <= Bal(w.log, Acct(ProviderClearing, w.disputes[d].merchant, w.disputes[d].currency))
  {
  }

  lemma {:induction false} DisputePostingIs(w: World, d: nat, op: Operation, to: DisputeStatus)
    ensures PostDispute(w, d, op, to) ==
            if DisputePosts(w, d, op, to)
            then WithDispute(w, d, to).(log := w.log + [DisputeMove(d, w.disputes[d], op)])
            else w
  {
  }

  lemma {:induction false} OnlyOpenDisputesClose(w: World, d: nat, op: Operation, to: DisputeStatus)
    requires DisputePosts(w, d, op, to) && (to.Won? || to.Lost?)
    ensures w.disputes[d].status.Open? || w.disputes[d].status.UnderReview?
  {
    OutcomesAreLegalIff(AttemptStatus.Created, RefundStatus.Created, Requested, w.disputes[d].status);
  }

  /** A dispute that is open or under review is won whenever that is resolved; a closed one stays. */
  lemma {:induction false} WinTakesEffectIff(w: World, d: nat)
    requires Reachable(w)
    ensures Next(w, DisputeWin(d)) ==
            if d < |w.disputes| && (w.disputes[d].status.Open? || w.disputes[d].status.UnderReview?)
            then WithDispute(w, d, Won).(log := w.log + [DisputeMove(d, w.disputes[d], WinDispute)])
            else w
  {
    WinIsPosting(w, d);
    DisputePostingIs(w, d, WinDispute, Won);
    if d < |w.disputes| && (w.disputes[d].status.Open? || w.disputes[d].status.UnderReview?) {
      ReachableIsHeld(w, d);
      WinIsAsked(w, d);
    } else if DisputePosts(w, d, WinDispute, Won) {
      OnlyOpenDisputesClose(w, d, WinDispute, Won);
    }
  }

  /** It is lost exactly when the provider's clearing balance covers it. */
  lemma {:induction false} LossTakesEffectIff(w: World, d: nat)
    requires Reachable(w)
    ensures Next(w, DisputeLose(d)) ==
            if d < |w.disputes| && (w.disputes[d].status.Open? || w.disputes[d].status.UnderReview?)
               && w.disputes[d].amount <= Bal(w.log, Acct(ProviderClearing, w.disputes[d].merchant, w.disputes[d].currency))
            then WithDispute(w, d, Lost).(log := w.log + [DisputeMove(d, w.disputes[d], LoseDispute)])
            else w
  {
    LoseIsPosting(w, d);
    DisputePostingIs(w, d, LoseDispute, Lost);
    if d < |w.disputes| && (w.disputes[d].status.Open? || w.disputes[d].status.UnderReview?) {
      ReachableIsHeld(w, d);
      LossIsAsked(w, d);
    } else if DisputePosts(w, d, LoseDispute, Lost) {
      OnlyOpenDisputesClose(w, d, LoseDispute, Lost);
    }
  }

  // ------------------------------------------------------- direct postings

  /** The account that a direct operation draws on. */
  function DrawsOn(op: Operation): Code
    requires IsDirect(op)
  {
    match op
    case ReleaseSettlement => MerchantPending
    case HoldReserve => MerchantAvailable
    case ReleaseReserve => MerchantReserve
    case ReceiveProviderSettlement => ProviderClearing
  }

  /** A direct posting is made exactly when its name is new and the account that it draws on covers it. */
  lemma {:induction false} DirectPostsIff(w: World, name: string, op: Operation, merchant: string, currency: Currency, amount: int)
    ensures Next(w, DirectPost(name, op, merchant, currency, amount)) ==
            if IsDirect(op) && NameFits(name) && !Has(w.log, DirectKey(name))
               && 0 < amount <= Bal(w.log, Acct(DrawsOn(op), merchant, currency))
            then w.(log := w.log + [Move(DirectKey(name), Legs(op), merchant, currency, amount)])
            else w
  {
  }
}
