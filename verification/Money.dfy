/** Conservation: funds only ever enter by minting. */
module Money {
  import opened Ids
  import opened Transactions
  import opened AccountSpec
  import opened Ledgers
  import opened Changes
  import opened Sums

  ghost function Balances(l: Ledger): map<ScalegraphId, real> {
    map x | x in l :: l[x].balance
  }

  ghost function Total(l: Ledger): real {
    Sum(Balances(l))
  }

  /** Everything ever minted: successful mints and initial balances. */
  function Issued(run: Run): real {
    match run
    case Start => 0.0
    case Then(before, Mint(_, amount), _) => Issued(before) + (if OutcomeOf(run).Done? then amount else 0.0)
    case Then(before, CreateAccount(_, initial), _) =>
      Issued(before) + (if OutcomeOf(run).Done? && initial > 0.0 then initial else 0.0)
    case Then(before, _, _) => Issued(before)
  }

  /** After any run, whatever succeeded or failed, the balances add up to what was minted. */
  lemma {:induction false} Conservation(run: Run)
    ensures Total(After(run)) == Issued(run)
  {
    match run
    case Start =>
      assert Balances(After(run)) == map[];
    case Then(before, req, txId) =>
      Conservation(before);
      WellFormedAfter(before);
      IssuedBy(run);
      ExecuteIsOneChange(After(before), req, txId);
      match ChangeOf(After(before), req, txId)
      case Nothing =>
      case Opening(x, initial) => BalanceSet(After(before), x, Opened(x, initial));
      case Dropping(x, t) => BalanceSet(After(before), x, Dropped(After(before)[x], t));
      case Posting(trx) =>
        PostingIsLawful(After(before), req, txId);
        PostingShiftsFunds(After(before), trx);
  }

  function MintedFunds(change: Change): real {
    match change
    case Opening(_, Some(MintTx(_, _, amount))) => amount
    case Posting(MintTx(_, _, amount)) => amount
    case _ => 0.0
  }

  lemma {:induction false} IssuedBy(run: Run)
    requires run.Then? && WellFormed(After(run.before))
    ensures Issued(run) == Issued(run.before) + MintedFunds(ChangeOf(After(run.before), run.request, run.txId))
  {
    ExecuteIsOneChange(After(run.before), run.request, run.txId);
  }

  lemma BalanceSet(l: Ledger, x: ScalegraphId, a: AccountState)
    ensures Total(l[x := a]) == Total(l) + a.balance - if x in l then l[x].balance else 0.0
  {
    SumUpdate(Balances(l), x, a.balance);
    assert Balances(l[x := a]) == Balances(l)[x := a.balance];
  }

  lemma PostingShiftsFunds(l: Ledger, trx: Transaction)
    requires WellFormed(l) && Lawful(l, trx)
    ensures Total(PostAll(l, trx)) == Total(l) + if trx.MintTx? then trx.amount else 0.0
  {
    var x := First(trx);
    var l1 := l[x := Posted(l[x], trx)];
    BalanceSet(l, x, Posted(l[x], trx));
    if trx.TwoSided() {
      BalanceSet(l1, trx.receiver, Posted(l[trx.receiver], trx));
    }
  }
}
