/** The locked minimum balance of every account is exact: it is the sum of what each store entry
    anywhere charges that account, plus the charges burned frozen tokens never gave back. */
module Mbr {
  import opened Wrappers
  import opened Ids
  import opened Tokens
  import opened Transactions
  import opened AccountSpec
  import opened Ledgers
  import opened Changes
  import opened Sums

  /** What a token, wherever it is, charges account x: its signer for existing, its freeze authority while frozen. */
  function TokenCharge(token: Token, x: ScalegraphId): real {
    (if token.Signer() == Some(x) then TOKEN_COST else 0.0) +
    (if token.frozen && token.freeze == Some(x) then FREEZE_COST else 0.0)
  }

  /** What an entry in h's store charges x; a placeholder charges its own account. */
  function Charge(h: ScalegraphId, token: Token, x: ScalegraphId): real {
    if token.Equal(EMPTY) then (if h == x then SLOT_COST else 0.0) else TokenCharge(token, x)
  }

  ghost function Charges(store: map<TokenId, Token>, h: ScalegraphId, x: ScalegraphId): map<TokenId, real> {
    map t | t in store :: Charge(h, store[t], x)
  }

  ghost function StoreCharge(store: map<TokenId, Token>, h: ScalegraphId, x: ScalegraphId): real {
    Sum(Charges(store, h, x))
  }

  ghost function StoreCharges(l: Ledger, x: ScalegraphId): map<ScalegraphId, real> {
    map h | h in l :: StoreCharge(l[h].store, h, x)
  }

  ghost function Locked(l: Ledger, x: ScalegraphId): real {
    Sum(StoreCharges(l, x))
  }

  /** How many tokens naming x as freeze authority were burned while frozen. */
  function Stuck(run: Run, x: ScalegraphId): nat {
    match run
    case Start => 0
    case Then(before, req, _) =>
      Stuck(before, x) +
      if req.BurnToken? && OutcomeOf(run).Done? && BurnsFrozen(After(before), req, x) then 1 else 0
  }

  predicate BurnsFrozen(l: Ledger, req: Request, x: ScalegraphId)
    requires req.BurnToken?
  {
    req.account in l && req.tokenId in l[req.account].store &&
    var token := l[req.account].store[req.tokenId];
    token.frozen && token.freeze == Some(x)
  }

  function MbrOf(l: Ledger, x: ScalegraphId): real {
    if x in l then l[x].mbr else 0.0
  }

  /** In every reachable state, through every success and every rollback. An identifier without an
      account is charged nothing, so an account opened later starts exact as well. */
  lemma {:induction false} MbrExact(run: Run, x: ScalegraphId)
    ensures MbrOf(After(run), x) == Locked(After(run), x) + FREEZE_COST * Stuck(run, x) as real
  {
    match run
    case Start =>
      assert StoreCharges(After(run), x) == map[];
    case Then(before, req, txId) =>
      var l := After(before);
      MbrExact(before, x);
      WellFormedAfter(before);
      ExecuteIsOneChange(l, req, txId);
      StuckAdds(run, x);
      ChangeCharges(l, ChangeOf(l, req, txId), x) by {
        if ChangeOf(l, req, txId).Posting? { PostingIsLawful(l, req, txId); }
      }
  }

  /** A charge left behind by a burn is never given back. */
  lemma {:induction false} StuckForGood(later: Run, earlier: Run, x: ScalegraphId)
    requires Extends(later, earlier)
    ensures Stuck(earlier, x) <= Stuck(later, x)
  {
    if later != earlier {
      StuckForGood(later.before, earlier, x);
    }
  }

  /** So an account's minimum balance is just what its live tokens and placeholders charge if and only if
      no token was burned while frozen under it. */
  lemma {:induction false} MbrIsLockedExactly(run: Run, x: ScalegraphId)
    ensures MbrOf(After(run), x) == Locked(After(run), x) <==> Stuck(run, x) == 0
  {
    MbrExact(run, x);
  }

  lemma {:induction false} StuckAdds(run: Run, x: ScalegraphId)
    requires run.Then? && WellFormed(After(run.before))
    ensures FREEZE_COST * Stuck(run, x) as real == FREEZE_COST * Stuck(run.before, x) as real
         + ChangeLoss(After(run.before), ChangeOf(After(run.before), run.request, run.txId), x)
  {
    ExecuteIsOneChange(After(run.before), run.request, run.txId);
  }

  function ChangeLoss(l: Ledger, change: Change, x: ScalegraphId): real {
    if change.Posting? then BurnLoss(l, change.trx, x) else 0.0
  }

  lemma ChangeCharges(l: Ledger, change: Change, x: ScalegraphId)
    requires WellFormed(l)
    requires change.Opening? ==> change.account !in l && (change.initial.Some? ==> change.initial.value.MintTx?)
    requires change.Posting? ==> Lawful(l, change.trx)
    requires change.Dropping? ==> change.account in l && l[change.account].HasPlaceholder(change.tokenId)
    ensures MbrOf(Changed(l, change), x) - MbrOf(l, x)
         == Locked(Changed(l, change), x) - Locked(l, x) + ChangeLoss(l, change, x)
  {
    match change
    case Nothing =>
    case Opening(y, initial) =>
      assert Charges(map[], y, x) == map[];
      LockedSet(l, y, Opened(y, initial), x);
    case Dropping(y, t) =>
      LockedSet(l, y, Dropped(l[y], t), x);
      ChargeDropped(l[y].store, t, y, x);
    case Posting(trx) => PostingCharges(l, trx, x);
  }

  /** What a burn takes from x's charges without taking it from x's minimum balance. */
  function BurnLoss(l: Ledger, trx: Transaction, x: ScalegraphId): real {
    if trx.BurnTokenTx? && trx.sender in l && trx.tokenId in l[trx.sender].store &&
       l[trx.sender].store[trx.tokenId].frozen && l[trx.sender].store[trx.tokenId].freeze == Some(x)
    then FREEZE_COST else 0.0
  }

  // Sums follow store updates.

  lemma ChargeSet(store: map<TokenId, Token>, t: TokenId, token: Token, h: ScalegraphId, x: ScalegraphId)
    ensures StoreCharge(store[t := token], h, x)
         == StoreCharge(store, h, x) + Charge(h, token, x) - if t in store then Charge(h, store[t], x) else 0.0
  {
    SumUpdate(Charges(store, h, x), t, Charge(h, token, x));
    assert Charges(store[t := token], h, x) == Charges(store, h, x)[t := Charge(h, token, x)];
  }

  lemma ChargeDropped(store: map<TokenId, Token>, t: TokenId, h: ScalegraphId, x: ScalegraphId)
    requires t in store
    ensures StoreCharge(Without(store, t), h, x) == StoreCharge(store, h, x) - Charge(h, store[t], x)
  {
    SumWithout(Charges(store, h, x), t);
    assert Charges(Without(store, t), h, x) == Charges(store, h, x) - {t};
  }

  lemma LockedSet(l: Ledger, y: ScalegraphId, a: AccountState, x: ScalegraphId)
    ensures Locked(l[y := a], x)
         == Locked(l, x) + StoreCharge(a.store, y, x) - if y in l then StoreCharge(l[y].store, y, x) else 0.0
  {
    SumUpdate(StoreCharges(l, x), y, StoreCharge(a.store, y, x));
    assert StoreCharges(l[y := a], x) == StoreCharges(l, x)[y := StoreCharge(a.store, y, x)];
  }

  // One posting.

  /** What one party's part in a posting adds to x's charges. */
  function ChargeDelta(a: AccountState, trx: Transaction, x: ScalegraphId): real {
    match trx
    case MintTokenTx(_, r, token) => if r == a.id then TokenCharge(token, x) else 0.0
    case AuthorizeTx(_, s, _, t, _) => if s == a.id && t !in a.store && x == a.id then SLOT_COST else 0.0
    case UnauthorizeTx(_, s, _, t, _) => if s == a.id && x == a.id then -SLOT_COST else 0.0
    case TransferTokenTx(_, s, r, token, _) =>
      if s == a.id then -TokenCharge(token, x)
      else if r == a.id then TokenCharge(token, x) - (if x == a.id then SLOT_COST else 0.0)
      else 0.0
    case BurnTokenTx(_, s, t, _) => if s == a.id && t in a.store then -TokenCharge(a.store[t], x) else 0.0
    case ClawbackTx(_, s, r, token, _) =>
      if s == a.id then -TokenCharge(token, x) else if r == a.id then TokenCharge(token, x) else 0.0
    case FreezeTx(_, s, r, _, _) => if s != a.id && r == a.id && x == s then FREEZE_COST else 0.0
    case UnfreezeTx(_, s, r, _, _) => if s != a.id && r == a.id && x == s then -FREEZE_COST else 0.0
    case _ => 0.0
  }

  ghost predicate PartOk(a: AccountState, trx: Transaction) {
    && Refusal(a, trx).None?
    && (trx.TransferTokenTx? || trx.ClawbackTx? ==> trx.token.Signer().Some?)
    && ((trx.TransferTokenTx? || trx.ClawbackTx?) && trx.sender == a.id ==>
          trx.token.Id() in a.store && a.store[trx.token.Id()] == trx.token)
    && ((trx.FreezeTx? || trx.UnfreezeTx?) && trx.sender != a.id ==>
          a.Owns(trx.tokenId) && a.store[trx.tokenId].freeze == Some(trx.sender))
  }

  lemma EffectCharges(a: AccountState, trx: Transaction, x: ScalegraphId)
    requires PartOk(a, trx)
    ensures StoreCharge(Effect(a, trx).store, a.id, x) == StoreCharge(a.store, a.id, x) + ChargeDelta(a, trx, x)
  {
    match trx
    case MintTokenTx(_, r, token) =>
      if r == a.id {
        SignedIsNotEmpty(token);
        ChargeSet(a.store, token.Id(), token, a.id, x);
      }
    case AuthorizeTx(_, _, _, t, _) => ChargeSet(a.store, t, EMPTY, a.id, x);
    case UnauthorizeTx(_, s, _, t, _) => if s == a.id { ChargeDropped(a.store, t, a.id, x); }
    case TransferTokenTx(_, s, _, token, _) => MoveCharges(a, trx, x);
    case ClawbackTx(_, s, _, token, _) => MoveCharges(a, trx, x);
    case BurnTokenTx(_, _, t, _) => ChargeDropped(a.store, t, a.id, x);
    case FreezeTx(_, s, _, t, _) =>
      if s != a.id { ChargeSet(a.store, t, a.store[t].(frozen := true), a.id, x); }
    case UnfreezeTx(_, s, _, t, _) =>
      if s != a.id { ChargeSet(a.store, t, a.store[t].(frozen := false), a.id, x); }
    case _ =>
  }

  lemma MoveCharges(a: AccountState, trx: Transaction, x: ScalegraphId)
    requires (trx.TransferTokenTx? || trx.ClawbackTx?) && PartOk(a, trx)
    ensures StoreCharge(Effect(a, trx).store, a.id, x) == StoreCharge(a.store, a.id, x) + ChargeDelta(a, trx, x)
  {
    SignedIsNotEmpty(trx.token);
    if trx.sender == a.id {
      ChargeDropped(a.store, trx.token.Id(), a.id, x);
    } else {
      ChargeSet(a.store, trx.token.Id(), trx.token, a.id, x);
    }
  }

  /** Charges and minimum balances move together, but for what a burn of a frozen token leaves behind. */
  lemma PostingCharges(l: Ledger, trx: Transaction, x: ScalegraphId)
    requires WellFormed(l) && Lawful(l, trx)
    ensures MbrOf(PostAll(l, trx), x) - MbrOf(l, x)
         == Locked(PostAll(l, trx), x) - Locked(l, x) + BurnLoss(l, trx, x)
  {
    PostingLocks(l, trx, x);
    if trx.TwoSided() { TwoPartyCharges(l, trx, x); } else { OnePartyCharges(l, trx, x); }
  }

  lemma OnePartyCharges(l: Ledger, trx: Transaction, x: ScalegraphId)
    requires WellFormed(l) && Lawful(l, trx) && !trx.TwoSided()
    ensures MbrOf(PostAll(l, trx), x) - MbrOf(l, x) == ChargeDelta(l[First(trx)], trx, x) + BurnLoss(l, trx, x)
  {
  }

  lemma TwoPartyCharges(l: Ledger, trx: Transaction, x: ScalegraphId)
    requires WellFormed(l) && Lawful(l, trx) && trx.TwoSided()
    ensures MbrOf(PostAll(l, trx), x) - MbrOf(l, x)
         == ChargeDelta(l[trx.sender], trx, x) + ChargeDelta(l[trx.receiver], trx, x)
  {
    if trx.TransferTokenTx? || trx.ClawbackTx? {
      PlaceholderTestExact(trx.token.Id(), l[trx.sender].store[trx.token.Id()]);
    }
  }

  lemma PostingLocks(l: Ledger, trx: Transaction, x: ScalegraphId)
    requires WellFormed(l) && Lawful(l, trx)
    ensures Locked(PostAll(l, trx), x) == Locked(l, x) + ChargeDelta(l[First(trx)], trx, x)
         + if trx.TwoSided() then ChargeDelta(l[trx.receiver], trx, x) else 0.0
  {
    var y := First(trx);
    var l1 := l[y := Posted(l[y], trx)];
    if trx.TransferTokenTx? || trx.ClawbackTx? {
      PlaceholderTestExact(trx.token.Id(), l[trx.sender].store[trx.token.Id()]);
    }
    LockedSet(l, y, Posted(l[y], trx), x);
    EffectCharges(l[y], trx, x);
    if trx.TwoSided() {
      LockedSet(l1, trx.receiver, Posted(l[trx.receiver], trx), x);
      EffectCharges(l[trx.receiver], trx, x);
    }
  }
}
