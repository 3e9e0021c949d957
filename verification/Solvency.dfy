/** No account ever spends its locked minimum balance, except by way of a negative amount, which
    the domain layer does not refuse. */
module Solvency {
  import opened Ids
  import opened Transactions
  import opened AccountSpec
  import opened Ledgers
  import opened Changes
  import opened MbrCounts

  ghost predicate Solvent(l: Ledger) {
    forall x | x in l :: l[x].balance >= l[x].mbr
  }

  /** A negative amount that would take more from its recipient than is free. Everything here can be
      read off the ledger and the request before the call. */
  predicate Overdraws(l: Ledger, req: Request) {
    match req
    case Mint(to, amount) => to in l && l[to].Available() + amount < 0.0
    case Transfer(from, to, amount, nonce) =>
      && from in l && to in l && from != to && nonce == l[from].nonce
      && amount < 0.0 && l[to].Available() + amount < 0.0
    case _ => false
  }

  /** One request keeps a solvent ledger solvent exactly when it does not overdraw. */
  lemma StepSolventExactly(l: Ledger, req: Request, txId: TxId)
    requires WellFormed(l) && Solvent(l)
    ensures Solvent(Execute(l, req, txId).0) <==> !Overdraws(l, req)
  {
    var l' := Execute(l, req, txId).0;
    ExecuteIsOneChange(l, req, txId);
    match ChangeOf(l, req, txId)
    case Nothing =>
    case Opening(y, initial) => assert l'[y].balance >= l'[y].mbr;
    case Dropping(y, t) =>
    case Posting(trx) =>
      PostingIsLawful(l, req, txId);
      PostingSolventExactly(l, trx);
      assert OverdrawsTx(l, trx) <==> Overdraws(l, req);
  }

  predicate OverdrawsTx(l: Ledger, trx: Transaction) {
    (trx.MintTx? || trx.TransferTx?) && trx.receiver in l && l[trx.receiver].Available() + trx.amount < 0.0
  }

  lemma PostingSolventExactly(l: Ledger, trx: Transaction)
    requires WellFormed(l) && Lawful(l, trx) && Solvent(l)
    ensures Solvent(PostAll(l, trx)) <==> !OverdrawsTx(l, trx)
  {
    var l' := PostAll(l, trx);
    forall x | x in l
      ensures l'.Keys == l.Keys
      ensures l'[x].Available() >= 0.0 <==> !(OverdrawsTx(l, trx) && x == trx.receiver)
    {
      PostAllAt(l, trx, x);
      if trx.Involves(x) { EffectAvailable(l[x], trx); }
    }
    if OverdrawsTx(l, trx) { assert l'[trx.receiver].Available() < 0.0; }
    assert forall x | x in l :: l[x].Available() >= 0.0;
    assert Solvent(l') <==> forall x | x in l' :: l'[x].Available() >= 0.0;
  }

  lemma EffectAvailable(a: AccountState, trx: Transaction)
    requires a.Available() >= 0.0 && Refusal(a, trx).None?
    requires trx.TwoSided() ==> trx.sender != trx.receiver
    requires trx.MintTx? ==> trx.receiver == a.id
    ensures Effect(a, trx).Available() >= 0.0 <==>
            !((trx.MintTx? || trx.TransferTx?) && trx.receiver == a.id && a.Available() + trx.amount < 0.0)
  {
  }

  predicate NeverOverdrawn(run: Run) {
    run.Then? ==> NeverOverdrawn(run.before) && !Overdraws(After(run.before), run.request)
  }

  ghost predicate SolventThroughout(run: Run) {
    Solvent(After(run)) && (run.Then? ==> SolventThroughout(run.before))
  }

  /** Over whole runs: every account stays solvent at every step exactly when no request overdraws. */
  lemma {:induction false} SolventExactly(run: Run)
    ensures SolventThroughout(run) <==> NeverOverdrawn(run)
  {
    if run.Then? {
      SolventExactly(run.before);
      WellFormedAfter(run.before);
      if SolventThroughout(run.before) {
        StepSolventExactly(After(run.before), run.request, run.txId);
      }
    }
  }

  predicate AmountsNonNegative(run: Run) {
    match run
    case Start => true
    case Then(before, Mint(_, amount), _) => AmountsNonNegative(before) && amount >= 0.0
    case Then(before, Transfer(_, _, amount, _), _) => AmountsNonNegative(before) && amount >= 0.0
    case Then(before, _, _) => AmountsNonNegative(before)
  }

  /** The RPC schema admits only positive amounts; then 0 <= MBR <= balance everywhere, always. */
  lemma {:induction false} AlwaysSolvent(run: Run, x: ScalegraphId)
    requires AmountsNonNegative(run) && x in After(run)
    ensures 0.0 <= After(run)[x].mbr <= After(run)[x].balance
  {
    NonNegativeNeverOverdraws(run);
    MbrIsCounted(run, x);
  }

  lemma {:induction false} NonNegativeNeverOverdraws(run: Run)
    requires AmountsNonNegative(run)
    ensures NeverOverdrawn(run) && Solvent(After(run))
  {
    if run.Then? {
      NonNegativeNeverOverdraws(run.before);
    }
    SolventExactly(run);
  }

  /** The condition is needed: a transfer of -1 from an account with 1 to an empty one succeeds. */
  lemma {:induction false} NegativeTransferOverdraws(a: ScalegraphId, b: ScalegraphId, txId: TxId)
    requires a != b
    ensures
      var run := Then(Then(Then(Start, CreateAccount(a, 1.0), txId), CreateAccount(b, 0.0), txId),
                      Transfer(a, b, -1.0, 0), txId);
      OutcomeOf(run).Done? && b in After(run) && After(run)[b].balance == -1.0 && After(run)[b].mbr == 0.0
  {
    var r1 := Then(Start, CreateAccount(a, 1.0), txId);
    var r2 := Then(r1, CreateAccount(b, 0.0), txId);
    assert After(r1) == map[a := Posted(NewAccount(a), MintTx(txId, a, 1.0))];
    assert After(r2) == After(r1)[b := NewAccount(b)];
    assert Refusal(After(r2)[a], TransferTx(txId, a, b, -1.0)).None?;
  }
}
