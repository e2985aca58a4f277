/**
 * Every run of the lifecycles is a run of the ledger: the postings that it makes, in
 * their order, are a run of the catalogue whose tables hold exactly its balances.
 */
module EngineLedger {
  import opened Prelude
  import opened Money
  import opened Chart
  import opened Ledger
  import opened Posting
  import opened Books
  import opened Refinement
  import opened EngineBalances
  import opened EngineCaptures
  import Engine
  import Fsm
  import EngineRefunds
  import EngineOutcomes
  import EnginePayouts
  import DecimalText

  // -------------------------------------------------------- accounts are added

  lemma {:induction false} FindPush(accounts: seq<Account>, x: Account, name: string, currency: Currency)
    ensures Find(accounts + [x], name, currency) ==
            if x.name == name && x.currency == currency then Some(|accounts|) else Find(accounts, name, currency)
  {
    assert (accounts + [x])[..|accounts|] == accounts;
  }

  /** No account that was there is found elsewhere. */
  ghost predicate Grown(before: seq<Account>, after: seq<Account>) {
    forall code: Code, merchant, currency ::
      AccountOf(before, code, merchant, currency).Some? ==>
        AccountOf(after, code, merchant, currency) == AccountOf(before, code, merchant, currency)
  }

  lemma {:induction false} GrownKeepsChart(before: seq<Account>, after: seq<Account>, m: Move)
    requires Grown(before, after) && Ready(before, m)
    ensures Ready(after, m) && ChartIds(after, m.merchant, m.currency) == ChartIds(before, m.merchant, m.currency)
  {
    var old', new' := ChartIds(before, m.merchant, m.currency), ChartIds(after, m.merchant, m.currency);
    forall code: Code ensures code in new' && new'[code] == old'[code] {
      assert code in old';
    }
  }

  lemma {:induction false} GrownKeepsTxs(before: Db, after: Db, log: seq<Move>)
    requires TxsMatch(before, log) && after.txs == before.txs && Grown(before.accounts, after.accounts)
    ensures TxsMatch(after, log)
  {
    forall i | 0 <= i < |log| ensures TxMatches(after.accounts, after.txs[i], log[i]) {
      assert TxMatches(before.accounts, before.txs[i], log[i]);
      GrownKeepsChart(before.accounts, after.accounts, log[i]);
    }
  }

  lemma {:induction false} OpenedGrows(accounts: seq<Account>, x: Account)
    requires Find(accounts, x.name, x.currency).None?
    ensures Grown(accounts, accounts + [x])
  {
    forall code: Code, merchant, currency | AccountOf(accounts, code, merchant, currency).Some?
      ensures AccountOf(accounts + [x], code, merchant, currency) == AccountOf(accounts, code, merchant, currency)
    {
      FindPush(accounts, x, AccountName(code, merchant), currency);
    }
  }

  /** An account that is opened holds nothing, as the log says. */
  lemma {:induction false} OpenedStores(db: Db, after: Db, account: Account, x: Acct)
    requires Find(db.accounts, account.name, account.currency).None? && AllLive(db.accounts) && !account.deleted
    requires after.accounts == db.accounts + [account] && |db.accounts| !in db.balances
    requires after.balances == db.balances[|db.accounts| := Balance(0, 0, 0)]
    ensures Stored(after, x) == Stored(db, x)
  {
    FindPush(db.accounts, account, AccountName(x.code, x.merchant), x.currency);
  }

  lemma {:induction false} ProvisionCases(db: Db, step: Step)
    requires step.Provision?
    ensures var after, known := Next(db, step), Find(db.accounts, step.name, step.currency);
            && after.txs == db.txs && after.hooks == db.hooks
            && (known.Some? ==>
                  && after.accounts == db.accounts
                  && after.balances == if known.value in db.balances then db.balances
                                       else db.balances[known.value := Balance(0, 0, 0)])
            && (known.None? ==>
                  && after.accounts == db.accounts + [Account(step.name, step.currency, step.normal, false)]
                  && after.balances == db.balances[|db.accounts| := Balance(0, 0, 0)])
  {
    if Find(db.accounts, step.name, step.currency).None? {
      assert Next(db, step) == Next(db, Open(step.name, step.currency, step.normal, true));
    }
  }

  lemma {:induction false} OpenRepresents(db: Db, log: seq<Move>, after: Db, account: Account)
    requires Represents(db, log) && ChartedAccount(account) && !account.deleted
    requires Find(db.accounts, account.name, account.currency).None?
    requires after.accounts == db.accounts + [account] && after.txs == db.txs
    requires after.balances == db.balances[|db.accounts| := Balance(0, 0, 0)]
    ensures Represents(after, log)
  {
    OpenedGrows(db.accounts, account);
    GrownKeepsTxs(db, after, log);
    forall x: Acct ensures Stored(after, x) == Bal(log, x) {
      StoredIsBal(db, log, x);
      OpenedStores(db, after, account, x);
    }
    forall a: AccountId ensures Projected(after.balances, a).pending == 0 {
      assert Projected(db.balances, a).pending == 0;
    }
  }

  lemma {:induction false} RowRepresents(db: Db, log: seq<Move>, after: Db, a: AccountId)
    requires Represents(db, log) && a < |db.accounts| && a !in db.balances
    requires after.accounts == db.accounts && after.txs == db.txs
    requires after.balances == db.balances[a := Balance(0, 0, 0)]
    ensures Represents(after, log)
  {
    assert forall b: AccountId :: Projected(after.balances, b) == Projected(db.balances, b);
    GrownKeepsTxs(db, after, log);
    forall x: Acct ensures Stored(after, x) == Bal(log, x) {
      StoredIsBal(db, log, x);
    }
  }

  lemma {:induction false} SameTablesRepresent(db: Db, log: seq<Move>, after: Db)
    requires Represents(db, log)
    requires after.accounts == db.accounts && after.txs == db.txs && after.balances == db.balances
    ensures Represents(after, log)
  {
    GrownKeepsTxs(db, after, log);
    forall x: Acct ensures Stored(after, x) == Bal(log, x) {
      StoredIsBal(db, log, x);
    }
  }

  lemma {:induction false} ProvisionRepresents(db: Db, log: seq<Move>, code: Code, merchant: string, currency: Currency)
    requires Represents(db, log)
    ensures var after := Next(db, ProvisionStep(code, merchant, currency));
            Represents(after, log) && AccountOf(after.accounts, code, merchant, currency).Some?
            && Grown(db.accounts, after.accounts)
  {
    var step := ProvisionStep(code, merchant, currency);
    var after, known := Next(db, step), Find(db.accounts, step.name, step.currency);
    ProvisionCases(db, step);
    if known.None? {
      var account := Account(step.name, step.currency, step.normal, false);
      NameTellsCode(code, merchant);
      OpenRepresents(db, log, after, account);
      OpenedGrows(db.accounts, account);
      FindPush(db.accounts, account, step.name, step.currency);
    } else if known.value in db.balances {
      SameTablesRepresent(db, log, after);
    } else {
      RowRepresents(db, log, after, known.value);
    }
  }

  lemma {:induction false} EnsureRepresents(db: Db, log: seq<Move>, merchant: string, currency: Currency, codes: seq<Code>)
    requires Represents(db, log)
    ensures var after := Provisioned(db, merchant, currency, codes);
            && Represents(after, log)
            && forall k :: 0 <= k < |codes| ==> AccountOf(after.accounts, codes[k], merchant, currency).Some?
  {
    if codes == [] {
      assert Provisioned(db, merchant, currency, codes) == db;
    } else {
      var n := |codes| - 1;
      var before := Provisioned(db, merchant, currency, codes[..n]);
      EnsureRepresents(db, log, merchant, currency, codes[..n]);
      ProvisionedPush(db, merchant, currency, codes[..n], codes[n]);
      assert codes == codes[..n] + [codes[n]];
      ProvisionRepresents(before, log, codes[n], merchant, currency);
      forall k | 0 <= k < n
        ensures AccountOf(Provisioned(db, merchant, currency, codes).accounts, codes[k], merchant, currency).Some?
      {
        assert AccountOf(before.accounts, codes[..n][k], merchant, currency).Some?;
      }
    }
  }

  lemma {:induction false} EnsureReadies(db: Db, log: seq<Move>, m: Move)
    requires Represents(db, log)
    ensures var after := Provisioned(db, m.merchant, m.currency, CODES);
            Represents(after, log) && Ready(after.accounts, m)
  {
    EnsureRepresents(db, log, m.merchant, m.currency, CODES);
    var after := Provisioned(db, m.merchant, m.currency, CODES);
    forall code: Code ensures code in ChartIds(after.accounts, m.merchant, m.currency) {
      CodesAreAll(code);
      var k :| 0 <= k < |CODES| && CODES[k] == code;
      assert AccountOf(after.accounts, CODES[k], m.merchant, m.currency).Some?;
    }
  }

  // -------------------------------------------------- a log as catalogue calls

  function PostCall(m: Move): Call {
    match m.form
    case Charge(fee) => Capture(ContextOf(m), Money(m.amount, m.currency), Money(0, m.currency), Money(fee, m.currency), true)
    case Legs(op) => Apply(op, ContextOf(m), Money(m.amount, m.currency), true)
  }

  function EnsureCall(m: Move): Call {
    Ensure(m.merchant, m.currency, CODES)
  }

  /** Each posting ensures its chart first, in a transaction of its own. */
  function CallsOf(log: seq<Move>): seq<Call> {
    if log == [] then []
    else CallsOf(log[..|log| - 1]) + [EnsureCall(log[|log| - 1])] + [PostCall(log[|log| - 1])]
  }

  lemma {:induction false} CatalogueNext(calls: seq<Call>, call: Call)
    ensures Catalogue(calls + [call]) == Extend(Catalogue(calls), Steps(Catalogue(calls), call))
  {
    assert (calls + [call])[..|calls|] == calls;
    ExtendTwice(EMPTY, Script(calls), Steps(Catalogue(calls), call));
  }

  lemma {:induction false} LegsStep(db: Db, m: Move)
    requires Ready(db.accounts, m) && Sendable(m) && m.form.Legs?
    ensures Steps(db, PostCall(m)) == [PostStep(InputOf(db.accounts, m), true)]
  {
    var chart, op := ChartIds(db.accounts, m.merchant, m.currency), m.form.op;
    assert op.DebitCode() in chart && op.CreditCode() in chart;
  }

  lemma {:induction false} ChargeStep(db: Db, m: Move)
    requires Ready(db.accounts, m) && Sendable(m) && m.form.Charge?
    ensures Steps(db, PostCall(m)) == [PostStep(InputOf(db.accounts, m), true)]
  {
  }

  lemma {:induction false} PostCallPosts(db: Db, m: Move)
    requires Ready(db.accounts, m) && Sendable(m)
    ensures Extend(db, Steps(db, PostCall(m))) == Post(db, InputOf(db.accounts, m), true).0
  {
    if m.form.Legs? {
      LegsStep(db, m);
    } else {
      ChargeStep(db, m);
    }
    InputKey(db.accounts, m);
    ExtendByPosting(db, InputOf(db.accounts, m));
  }

  lemma {:induction false} ExtendByPosting(db: Db, input: PostInput)
    requires input.tx.reverses.None?
    ensures Extend(db, [PostStep(input, true)]) == Post(db, input, true).0
  {
    var step := PostStep(input, true);
    assert [step][..0] == [];
    assert Extend(db, [step]) == Next(db, step);
  }

  /** A move that the lifecycles can make. */
  predicate Proper(m: Move) {
    && KeyOk(m.key) && (m.key.DirectKey? ==> NameFits(m.key.name))
    && m.amount > 0 && (m.form.Charge? ==> 0 <= m.form.fee < m.amount)
  }

  /** Every move was accepted when it came. */
  ghost predicate Accepted(log: seq<Move>) {
    forall i :: 0 <= i < |log| ==> AcceptedAt(log, i)
  }

  ghost predicate AcceptedAt(log: seq<Move>, i: nat)
    requires i < |log|
  {
    Proper(log[i]) && Ask(log[..i], log[i]) == Answer.Posted
  }

  /** The texts of the keys fit the ledger's column. */
  ghost predicate KeysFit(log: seq<Move>) {
    forall i :: 0 <= i < |log| ==> 8 <= |KeyText(log[i].key)| <= 200
  }

  lemma {:induction false} EmptyRepresents()
    ensures Represents(EMPTY, [])
  {
    forall x: Acct ensures Stored(EMPTY, x) == Bal([], x) {
    }
  }

  lemma {:induction false} FrontAccepted(log: seq<Move>)
    requires Accepted(log) && log != []
    ensures Accepted(log[..|log| - 1])
    ensures KeysFit(log) ==> KeysFit(log[..|log| - 1])
  {
    var front := log[..|log| - 1];
    forall i | 0 <= i < |front| ensures AcceptedAt(front, i) {
      assert AcceptedAt(log, i) && front[..i] == log[..i];
    }
  }

  lemma {:induction false} OneMoreCall(log: seq<Move>, m: Move, calls: seq<Call>)
    requires Represents(Catalogue(calls), log) && Sendable(m) && Ask(log, m) == Answer.Posted
    ensures Represents(Catalogue(calls + [EnsureCall(m)] + [PostCall(m)]), log + [m])
  {
    CatalogueNext(calls, EnsureCall(m));
    CatalogueNext(calls + [EnsureCall(m)], PostCall(m));
    var db := Catalogue(calls + [EnsureCall(m)]);
    EnsureReadies(Catalogue(calls), log, m);
    PostCallPosts(db, m);
    PostRefines(db, log, m);
  }

  lemma {:induction false} LastAccepted(log: seq<Move>)
    requires Accepted(log) && log != []
    ensures var front, m := log[..|log| - 1], log[|log| - 1];
            log == front + [m] && Proper(m) && Ask(front, m) == Answer.Posted
  {
    assert AcceptedAt(log, |log| - 1);
  }

  lemma {:induction false} NothingRepresents()
    ensures Represents(Catalogue(CallsOf([])), [])
  {
    EmptyRepresents();
    assert CallsOf([]) == [];
    assert Catalogue([]) == EMPTY;
  }

  /** The tables of the catalogue's run represent the log. */
  lemma {:induction false} TablesRepresentLog(log: seq<Move>)
    requires Accepted(log) && KeysFit(log)
    ensures Represents(Catalogue(CallsOf(log)), log)
  {
    if log == [] {
      NothingRepresents();
    } else {
      var front, m := log[..|log| - 1], log[|log| - 1];
      FrontAccepted(log);
      LastAccepted(log);
      TablesRepresentLog(front);
      LastMoveRepresents(log, front, m);
    }
  }

  lemma {:induction false} LastMoveRepresents(log: seq<Move>, front: seq<Move>, m: Move)
    requires log == front + [m] && Sendable(m) && Ask(front, m) == Answer.Posted
    requires Represents(Catalogue(CallsOf(front)), front)
    ensures Represents(Catalogue(CallsOf(log)), log)
  {
    PushRepresents(front, m);
  }

  lemma {:induction false} PushRepresents(log: seq<Move>, m: Move)
    requires Represents(Catalogue(CallsOf(log)), log) && Sendable(m) && Ask(log, m) == Answer.Posted
    ensures Represents(Catalogue(CallsOf(log + [m])), log + [m])
  {
    CallsPush(log, m);
    OneMoreCall(log, m, CallsOf(log));
  }

  lemma {:induction false} CallsPush(log: seq<Move>, m: Move)
    ensures CallsOf(log + [m]) == CallsOf(log) + [EnsureCall(m)] + [PostCall(m)]
  {
    assert (log + [m])[..|log|] == log;
  }

  // ------------------------------------------- what a run of the lifecycles posts

  ghost predicate Appends(before: seq<Move>, after: seq<Move>) {
    after == before || exists m :: AppendsMove(before, after, m)
  }

  ghost predicate AppendsMove(before: seq<Move>, after: seq<Move>, m: Move) {
    after == before + [m] && Proper(m) && Ask(before, m) == Answer.Posted
  }

  ghost predicate Fit(w: Engine.World) {
    w.bps >= 0 && EngineOutcomes.AmountsPositive(w) && Paired(w) && EngineRefunds.Counted(w)
  }

  lemma {:induction false} RefundsAppend(w: Engine.World, r: nat, op: Operation, to: Fsm.RefundStatus)
    requires Fit(w) && EngineOutcomes.IsRefundOp(op)
    ensures Appends(w.log, Engine.PostRefund(w, r, op, to).log)
  {
    if Engine.RefundPosts(w, r, op, to) {
      assert EngineRefunds.RefundOk(w.intents, w.refunds[r]);
      assert AppendsMove(w.log, Engine.PostRefund(w, r, op, to).log, Engine.RefundMove(w, r, op));
    }
  }

  lemma {:induction false} PayoutsAppend(w: Engine.World, p: nat, op: Operation, to: Fsm.PayoutStatus)
    requires Fit(w) && EngineOutcomes.IsPayoutOp(op)
    ensures Appends(w.log, Engine.PostPayout(w, p, op, to).log)
  {
    if Engine.PayoutPosts(w, p, op, to) {
      assert AppendsMove(w.log, Engine.PostPayout(w, p, op, to).log, Engine.PayoutMove(w, p, op));
    }
  }

  lemma {:induction false} DisputesAppend(w: Engine.World, d: nat, op: Operation, to: Fsm.DisputeStatus)
    requires Fit(w) && EngineOutcomes.IsDisputeOp(op)
    ensures Appends(w.log, Engine.PostDispute(w, d, op, to).log)
  {
    if Engine.DisputePosts(w, d, op, to) {
      assert AppendsMove(w.log, Engine.PostDispute(w, d, op, to).log, Engine.DisputeMove(d, w.disputes[d], op));
    }
  }

  lemma {:induction false} FeeNotNegative(amount: int, bps: int)
    requires amount > 0 && bps >= 0
    ensures FeeOn(amount, bps) >= 0
  {
    assert amount * bps >= 0;
  }

  lemma {:induction false} ApproveAppends(w: Engine.World, a: nat)
    requires Fit(w)
    ensures Appends(w.log, Engine.Approve(w, a).log)
  {
    var t := Engine.Approve(w, a);
    if t != w {
      assert AttemptOk(w.intents, w.attempts[a]);
      var i := w.attempts[a].intent;
      assert IntentOk(w.intents[i], Sum(w.attempts, OfIntent(i)));
      FeeNotNegative(w.attempts[a].amount, w.bps);
      assert AppendsMove(w.log, t.log, Engine.CaptureMove(w, a));
    }
  }

  lemma {:induction false} FileAppends(w: Engine.World, merchant: string, currency: Currency, amount: int)
    ensures Appends(w.log, Engine.FileDispute(w, merchant, currency, amount).log)
  {
    var t := Engine.FileDispute(w, merchant, currency, amount);
    if t != w {
      assert AppendsMove(w.log, t.log, t.log[|w.log|]);
    }
  }

  lemma {:induction false} DirectAppends(w: Engine.World, name: string, op: Operation, merchant: string, currency: Currency, amount: int)
    ensures Appends(w.log, Engine.PostDirect(w, name, op, merchant, currency, amount).log)
  {
    var t := Engine.PostDirect(w, name, op, merchant, currency, amount);
    if t != w {
      assert AppendsMove(w.log, t.log, t.log[|w.log|]);
    }
  }

  lemma {:induction false} AdvanceAppends(w: Engine.World, k: nat, reply: Engine.Reply)
    requires Fit(w) && k < |w.tasks|
    ensures Appends(w.log, Engine.AdvanceTask(w, k, reply).log)
  {
    var p := w.tasks[k].payout;
    PayoutsAppend(w, p, EmitPayout, Fsm.PayoutStatus.InTransit);
    PayoutsAppend(w, p, SettlePayout, Fsm.PayoutStatus.Paid);
    PayoutsAppend(w, p, FailPayout, Fsm.PayoutStatus.Failed);
  }

  lemma {:induction false} SettleAppends(w: Engine.World, r: nat)
    requires Fit(w)
    ensures Appends(w.log, Engine.CloseRefund(w, r).log)
  {
    RefundsAppend(w, r, Operation.SettleRefund, Fsm.RefundStatus.Succeeded);
  }

  lemma {:induction false} RefundStepAppends(w: Engine.World, step: Engine.Step)
    requires Fit(w) && (step.RefundReserve? || step.RefundReject? || step.RefundSettle?)
    ensures Appends(w.log, Engine.Next(w, step).log)
  {
    if step.RefundReserve? {
      ReserveIsPosting(w, step.r);
      RefundsAppend(w, step.r, RequestRefund, Fsm.RefundStatus.Processing);
    } else if step.RefundReject? {
      RejectIsPosting(w, step.r);
      RefundsAppend(w, step.r, CancelRefund, Fsm.RefundStatus.Failed);
    } else {
      SettleAppends(w, step.r);
    }
  }

  lemma {:induction false} DisputeStepAppends(w: Engine.World, step: Engine.Step)
    requires Fit(w) && (step.DisputeWin? || step.DisputeLose?)
    ensures Appends(w.log, Engine.Next(w, step).log)
  {
    DisputesAppend(w, step.d, WinDispute, Fsm.DisputeStatus.Won);
    DisputesAppend(w, step.d, LoseDispute, Fsm.DisputeStatus.Lost);
  }

  lemma {:induction false} NextAppends(w: Engine.World, step: Engine.Step)
    requires Fit(w)
    ensures Appends(w.log, Engine.Next(w, step).log)
  {
    if step.AttemptApprove? {
      ApproveAppends(w, step.a);
    } else if step.RefundReserve? || step.RefundReject? || step.RefundSettle? {
      RefundStepAppends(w, step);
    } else if step.DisputeOpen? {
      FileAppends(w, step.merchant, step.currency, step.amount);
    } else if step.DisputeWin? || step.DisputeLose? {
      DisputeStepAppends(w, step);
    } else if step.DirectPost? {
      DirectAppends(w, step.name, step.op, step.merchant, step.currency, step.amount);
    } else if !step.TaskAdvance? {
      ElsewhereSameLog(w, step);
    } else if step.k < |w.tasks| {
      AdvanceAppends(w, step.k, step.reply);
    }
  }

  lemma {:induction false} ElsewhereSameLog(w: Engine.World, step: Engine.Step)
    requires !step.AttemptApprove? && !step.RefundReserve? && !step.RefundReject? && !step.RefundSettle?
    requires !step.DisputeOpen? && !step.DisputeWin? && !step.DisputeLose? && !step.DirectPost? && !step.TaskAdvance?
    ensures Engine.Next(w, step).log == w.log
  {
  }

  lemma {:induction false} RunIsFit(bps: int, steps: seq<Engine.Step>)
    requires bps >= 0
    ensures Fit(Engine.Run(bps, steps))
  {
    RunKeepsPaired(bps, steps);
    EngineRefunds.RunKeepsCounted(bps, steps);
    EngineOutcomes.RunKeepsAmounts(bps, steps);
  }

  lemma {:induction false} AcceptedPush(log: seq<Move>, m: Move)
    requires Accepted(log) && Proper(m) && Ask(log, m) == Answer.Posted
    ensures Accepted(log + [m])
  {
    var all := log + [m];
    forall i | 0 <= i < |all| ensures AcceptedAt(all, i) {
      if i < |log| {
        assert AcceptedAt(log, i) && all[..i] == log[..i];
      } else {
        assert all[..i] == log;
      }
    }
  }

  lemma {:induction false} RunIsAccepted(bps: int, steps: seq<Engine.Step>)
    requires bps >= 0
    ensures Accepted(Engine.Run(bps, steps).log)
  {
    if steps != [] {
      var before, last := Engine.Run(bps, steps[..|steps| - 1]), steps[|steps| - 1];
      RunIsFit(bps, steps[..|steps| - 1]);
      NextAppends(before, last);
      RunIsAccepted(bps, steps[..|steps| - 1]);
      var log, after := before.log, Engine.Run(bps, steps).log;
      if after != log {
        var m :| AppendsMove(log, after, m);
        AcceptedPush(log, m);
      }
    }
  }

  // -------------------------------------------------- the texts of keys fit

  /** Rows are named by UUIDs, and there are no more of those. */
  const UUIDS: nat := 0x1_0000_0000_0000_0000_0000_0000_0000_0000

  predicate HasUuids(w: Engine.World) {
    |w.attempts| <= UUIDS && |w.refunds| <= UUIDS && |w.payouts| <= UUIDS && |w.disputes| <= UUIDS
  }

  lemma {:induction false} UuidIsShort(id: nat)
    requires id < UUIDS
    ensures |DecimalText.Numeral(id)| <= 39
  {
    assert DecimalText.Pow10(13) == 10_000_000_000_000;
    DecimalText.Pow10Sum(13, 13);
    DecimalText.Pow10Sum(26, 13);
    DecimalText.NumeralIsShort(id, 39);
  }

  lemma {:induction false} TextFits(key: Key)
    requires key.AttemptKey? ==> key.attempt < UUIDS
    requires key.ResourceKey? ==> key.id < UUIDS
    requires key.DirectKey? ==> NameFits(key.name)
    ensures 8 <= |KeyText(key)| <= 200
  {
    match key
    case AttemptKey(a) => UuidIsShort(a);
    case ResourceKey(op, id) => UuidIsShort(id);
    case DirectKey(_) =>
  }

  /** A key of the log names a row that is there. */
  lemma {:induction false} KeyNamesRow(w: Engine.World, key: Key)
    requires EngineOutcomes.Core(w) && Has(w.log, key) && KeyOk(key) && HasUuids(w)
    ensures key.AttemptKey? ==> key.attempt < UUIDS
    ensures key.ResourceKey? ==> key.id < UUIDS
  {
    match key
    case AttemptKey(a) => assert EngineOutcomes.AttemptKeyed(w.log, w.attempts, a);
    case ResourceKey(op, id) =>
      assert EngineOutcomes.RefundKeyed(w.log, w.refunds, id);
      assert EngineOutcomes.PayoutKeyed(w.log, w.payouts, id);
      assert EngineOutcomes.DisputeKeyed(w.log, w.disputes, id);
    case DirectKey(_) =>
  }

  lemma {:induction false} RunKeysFit(bps: int, steps: seq<Engine.Step>)
    requires bps >= 0 && HasUuids(Engine.Run(bps, steps))
    ensures KeysFit(Engine.Run(bps, steps).log)
  {
    var w := Engine.Run(bps, steps);
    RunIsAccepted(bps, steps);
    EngineOutcomes.RunKeepsCore(bps, steps);
    forall i | 0 <= i < |w.log| ensures 8 <= |KeyText(w.log[i].key)| <= 200 {
      assert AcceptedAt(w.log, i);
      HasIsIn(w.log, w.log[i].key);
      KeyNamesRow(w, w.log[i].key);
      TextFits(w.log[i].key);
    }
  }

  // ------------------------------------------------------- never below zero

  lemma {:induction false} PlatformAccountsAreShared(log: seq<Move>, code: Code, m: string, n: string, currency: Currency)
    requires code.Scope() == PlatformScope
    ensures Bal(log, Acct(code, m, currency)) == Bal(log, Acct(code, n, currency))
  {
    SumSame(log, EffectOn(Acct(code, m, currency)), EffectOn(Acct(code, n, currency)));
  }

  lemma {:induction false} UsedAccount(log: seq<Move>, m: Move, code: Code, x: Acct)
    requires Uses(m, code, x)
    ensures Bal(log, Acct(code, m.merchant, m.currency)) == Bal(log, x)
  {
    if code.Scope() == PlatformScope {
      PlatformAccountsAreShared(log, code, m.merchant, x.merchant, x.currency);
    }
  }

  lemma {:induction false} MoveKeepsNonNegative(log: seq<Move>, m: Move, x: Acct)
    requires Proper(m) && Ask(log, m) == Answer.Posted && Bal(log, x) >= 0
    ensures Bal(log + [m], x) >= 0
  {
    BalPush(log, m, x);
    if m.form.Legs? {
      if Uses(m, m.form.op.DebitCode(), x) {
        UsedAccount(log, m, m.form.op.DebitCode(), x);
      } else if Uses(m, m.form.op.CreditCode(), x) {
        UsedAccount(log, m, m.form.op.CreditCode(), x);
      }
    }
  }

  lemma {:induction false} AcceptedStaysNonNegative(log: seq<Move>, x: Acct)
    requires Accepted(log)
    ensures Bal(log, x) >= 0
  {
    if log != [] {
      FrontAccepted(log);
      LastAccepted(log);
      AcceptedStaysNonNegative(log[..|log| - 1], x);
      MoveKeepsNonNegative(log[..|log| - 1], log[|log| - 1], x);
    }
  }

  // ------------------------------------------------------------ main results

  /**
   * The postings of any run of the lifecycles, made on the ledger from an empty chart,
   * are all accepted, and leave every row of balance_projections equal to the balance
   * that the run gives its account.
   */
  lemma {:induction false} RowsHoldBalances(bps: int, steps: seq<Engine.Step>, x: Acct)
    requires bps >= 0 && HasUuids(Engine.Run(bps, steps))
    ensures var log := Engine.Run(bps, steps).log;
            var db := Catalogue(CallsOf(log));
            Sound(db) && |db.txs| == |log| && Stored(db, x) == Bal(log, x)
  {
    var log := Engine.Run(bps, steps).log;
    RunIsAccepted(bps, steps);
    RunKeysFit(bps, steps);
    TablesRepresentLog(log);
    StoredIsBal(Catalogue(CallsOf(log)), log, x);
    CatalogueIsSafe(CallsOf(log));
  }

  /** No account that the lifecycles use is ever below zero, on any run. */
  lemma {:induction false} LifecyclesStayNonNegative(bps: int, steps: seq<Engine.Step>, x: Acct)
    requires bps >= 0
    ensures Bal(Engine.Run(bps, steps).log, x) >= 0
  {
    RunIsAccepted(bps, steps);
    AcceptedStaysNonNegative(Engine.Run(bps, steps).log, x);
  }

  /** The stored available balance of a merchant is the function of statuses. */
  lemma {:induction false} StoredAvailableFollowsStatuses(bps: int, steps: seq<Engine.Step>, merchant: string, currency: Currency)
    requires bps >= 0 && HasUuids(Engine.Run(bps, steps))
    ensures var w := Engine.Run(bps, steps);
            var db := Catalogue(CallsOf(w.log));
            Stored(db, Acct(MerchantAvailable, merchant, currency))
            == Sum(w.log, Releases(merchant, currency))
               - Stored(db, Acct(MerchantReserve, merchant, currency))
               - Sum(w.refunds, RefundsTaken(merchant, currency))
               - Sum(w.payouts, PayoutsTaken(merchant, currency))
               - Sum(w.disputes, DisputesTaken(merchant, currency))
  {
    RowsHoldBalances(bps, steps, Acct(MerchantAvailable, merchant, currency));
    RowsHoldBalances(bps, steps, Acct(MerchantReserve, merchant, currency));
    AvailableFollowsStatuses(bps, steps, merchant, currency);
  }

  /**
   * With one execution of a payout at a time its payouts are exactly those in transit,
   * indeterminate or paid, and the stored payout.in_transit is those in transit or
   * indeterminate.
   */
  lemma {:induction false} StoredWithOneAtATime(bps: int, steps: seq<Engine.Step>, merchant: string, currency: Currency)
    requires bps >= 0 && HasUuids(Engine.Run(bps, steps)) && EnginePayouts.OneAtATime(bps, steps)
    ensures var w := Engine.Run(bps, steps);
            var db := Catalogue(CallsOf(w.log));
            && Stored(db, Acct(MerchantAvailable, merchant, currency))
               == Sum(w.log, Releases(merchant, currency))
                  - Stored(db, Acct(MerchantReserve, merchant, currency))
                  - Sum(w.refunds, RefundsTaken(merchant, currency))
                  - Sum(w.payouts, EnginePayouts.PayoutsUnderway(merchant, currency))
                  - Sum(w.disputes, DisputesTaken(merchant, currency))
            && Stored(db, Acct(PayoutInTransit, merchant, currency)) == Sum(w.payouts, PayoutsOnTheirWay(currency))
  {
    RowsHoldBalances(bps, steps, Acct(MerchantAvailable, merchant, currency));
    RowsHoldBalances(bps, steps, Acct(MerchantReserve, merchant, currency));
    RowsHoldBalances(bps, steps, Acct(PayoutInTransit, merchant, currency));
    EnginePayouts.AvailableWithOneAtATime(bps, steps, merchant, currency);
    EnginePayouts.InTransitCustody(bps, steps, merchant, currency);
  }
}
