/** A sale that is captured and released: the common beginning of the counterexamples. */
module EngineExamples {
  import opened Prelude
  import opened Money
  import opened Chart
  import opened Posting
  import opened Books
  import opened Fsm
  import opened Engine

  lemma {:induction false} AfterTwo(w: World, a: Step, b: Step)
    ensures After(w, [a, b]) == Next(Next(w, a), b)
  {
    assert [a, b] == [a] + [b];
    AfterMore(w, [a], [b]);
    AfterOne(w, a);
    AfterOne(Next(w, a), b);
  }

  lemma {:induction false} AfterFour(w: World, a: Step, b: Step, c: Step, d: Step)
    ensures After(w, [a, b, c, d]) == Next(Next(Next(Next(w, a), b), c), d)
  {
    assert [a, b, c, d] == [a, b] + [c, d];
    AfterMore(w, [a, b], [c, d]);
    AfterTwo(w, a, b);
    AfterTwo(Next(Next(w, a), b), c, d);
  }

  function Sale(m: string, c: Currency, n: int): seq<Step> {
    [IntentCreate(m, c, n), IntentConfirm(0), AttemptApprove(0), DirectPost("release", ReleaseSettlement, m, c, n)]
  }

  function Charged(m: string, c: Currency, n: int): Move {
    Move(AttemptKey(0), Charge(0), m, c, n)
  }

  function Directed(name: string, op: Operation, m: string, c: Currency, n: int): Move {
    Move(DirectKey(name), Legs(op), m, c, n)
  }

  function Sold(m: string, c: Currency, n: int, log: seq<Move>, payouts: seq<Payout>, tasks: seq<Task>): World {
    World(0, log, [Intent(m, c, n, IntentStatus.Succeeded, n, 0)], [Attempt(0, m, c, n, AttemptStatus.Succeeded)],
          [], payouts, [], tasks)
  }

  lemma {:induction false} BalOfOne(a: Move, x: Acct)
    ensures Bal([a], x) == Effect(a, x)
  {
    assert [a] == [] + [a];
    BalPush([], a, x);
  }

  lemma {:induction false} BalOfNext(log: seq<Move>, m: Move, x: Acct, before: int)
    requires Bal(log, x) == before
    ensures Bal(log + [m], x) == before + Effect(m, x)
  {
    BalPush(log, m, x);
  }

  lemma {:induction false} WholePath()
    ensures var path := ConfirmPath(IntentStatus.Created);
            path != [] && Walk(IntentStatus.Created, path) == Some(IntentStatus.Processing)
  {
    var path := ConfirmPath(IntentStatus.Created);
    assert path[1..] == [IntentStatus.RequiresConfirmation, IntentStatus.Processing];
    assert path[1..][1..] == [IntentStatus.Processing];
    assert path[1..][1..][1..] == [];
  }

  function Confirming(m: string, c: Currency, n: int): World {
    World(0, [], [Intent(m, c, n, IntentStatus.Processing, 0, 0)], [Attempt(0, m, c, n, AttemptStatus.Submitting)],
          [], [], [], [])
  }

  lemma {:induction false} SaleConfirms(m: string, c: Currency, n: int)
    requires n > 0
    ensures Next(Next(Begin(0), IntentCreate(m, c, n)), IntentConfirm(0)) == Confirming(m, c, n)
  {
    var w1 := Next(Begin(0), IntentCreate(m, c, n));
    assert w1 == Begin(0).(intents := [Intent(m, c, n, IntentStatus.Created, 0, 0)]);
    WholePath();
  }

  lemma {:induction false} SaleIsCaptured(m: string, c: Currency, n: int)
    requires n > 0
    ensures Next(Confirming(m, c, n), AttemptApprove(0)) == Sold(m, c, n, [Charged(m, c, n)], [], [])
  {
    assert FeeOn(n, 0) == 0;
    assert CaptureMove(Confirming(m, c, n), 0) == Charged(m, c, n);
  }

  lemma {:induction false} SaleIsReleased(m: string, c: Currency, n: int)
    requires n > 0
    ensures Next(Sold(m, c, n, [Charged(m, c, n)], [], []), DirectPost("release", ReleaseSettlement, m, c, n))
         == Sold(m, c, n, Released(m, c, n), [], [])
  {
    BalOfOne(Charged(m, c, n), Acct(MerchantPending, m, c));
  }

  function Released(m: string, c: Currency, n: int): seq<Move> {
    [Charged(m, c, n), Directed("release", ReleaseSettlement, m, c, n)]
  }

  lemma {:induction false} SaleWorks(m: string, c: Currency, n: int)
    requires n > 0
    ensures After(Begin(0), Sale(m, c, n)) == Sold(m, c, n, Released(m, c, n), [], [])
  {
    SaleConfirms(m, c, n);
    SaleIsCaptured(m, c, n);
    SaleIsReleased(m, c, n);
    AfterFour(Begin(0), IntentCreate(m, c, n), IntentConfirm(0), AttemptApprove(0),
              DirectPost("release", ReleaseSettlement, m, c, n));
  }

  /** What the log of the run so far holds for the merchant. */
  lemma {:induction false} ReleasedBalances(m: string, c: Currency, n: int)
    ensures Bal(Released(m, c, n), Acct(MerchantAvailable, m, c)) == n
  {
    var x := Acct(MerchantAvailable, m, c);
    BalOfOne(Charged(m, c, n), x);
    BalOfNext([Charged(m, c, n)], Directed("release", ReleaseSettlement, m, c, n), x, 0);
    assert Released(m, c, n) == [Charged(m, c, n)] + [Directed("release", ReleaseSettlement, m, c, n)];
  }
}
