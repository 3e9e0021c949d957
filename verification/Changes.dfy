/** Atomicity. Whatever a request does to the ledger is one of four changes: nothing, a new
    account, one transaction posted by all its parties, or (the one flaw) a dropped placeholder. */
module Changes {
  import opened Wrappers
  import opened Ids
  import opened Tokens
  import opened Transactions
  import opened AccountSpec
  import opened Ledgers

  // Well-formed ledgers.

  /** A store entry is the empty token, or a real one under its own identifier, signed by an account. */
  ghost predicate EntryOk(t: TokenId, token: Token) {
    token == EMPTY || (token.Id() == t && token.Signer().Some?)
  }

  ghost predicate StoreOk(store: map<TokenId, Token>) {
    forall t | t in store :: EntryOk(t, store[t])
  }

  ghost predicate WellFormed(l: Ledger) {
    forall x | x in l :: l[x].id == x && StoreOk(l[x].store)
  }

  /** In a well-formed store the placeholder test is exact, although it ignores three fields. */
  lemma PlaceholderTestExact(t: TokenId, token: Token)
    requires EntryOk(t, token)
    ensures token.Equal(EMPTY) <==> token == EMPTY
  {
    if token != EMPTY { SignedIsNotEmpty(token); }
  }

  // The four changes.

  datatype Change =
    | Nothing
    | Opening(account: ScalegraphId, initial: Option<Transaction>)
    | Posting(trx: Transaction)
    | Dropping(account: ScalegraphId, tokenId: TokenId)

  function First(trx: Transaction): ScalegraphId {
    if trx.TwoSided() || trx.BurnTokenTx? then trx.sender else trx.receiver
  }

  /** The transaction a request builds once its look-ups and the nonce check have passed. */
  function TransactionOf(l: Ledger, req: Request, txId: TxId): Option<Transaction> {
    match req
    case CreateAccount(_, _) => None
    case Mint(to, amount) => if to in l then Some(MintTx(txId, to, amount)) else None
    case Transfer(from, to, amount, nonce) =>
      if from in l && to in l && nonce == l[from].nonce then Some(TransferTx(txId, from, to, amount)) else None
    case MintToken(_, signature, _, _, nonce) =>
      var signer := Parse(signature.signerId);
      if signer.Some? && signer.value in l && nonce == l[signer.value].nonce
      then Some(MintTokenTx(txId, signer.value, MintedToken(req))) else None
    case AuthorizeTokenTransfer(a, o, t, nonce) =>
      if a in l && o in l && nonce == l[a].nonce then Some(AuthorizeTx(txId, a, o, t, nonce)) else None
    case UnauthorizeTokenTransfer(a, o, t, nonce) =>
      if a in l && o in l && nonce == l[a].nonce then Some(UnauthorizeTx(txId, a, o, t, nonce)) else None
    case TransferToken(from, to, t, nonce) =>
      if from in l && to in l && l[from].Owns(t) && nonce == l[from].nonce
      then Some(TransferTokenTx(txId, from, to, l[from].store[t], nonce)) else None
    case BurnToken(a, t, nonce) =>
      if a in l && nonce == l[a].nonce then Some(BurnTokenTx(txId, a, t, nonce)) else None
    case ClawbackToken(from, to, t, nonce) =>
      if from in l && to in l && l[from].Owns(t) && l[from].store[t].clawback == Some(to) && nonce == l[to].nonce
      then Some(ClawbackTx(txId, from, to, l[from].store[t], nonce)) else None
    case FreezeToken(s, h, t, nonce) =>
      if s in l && h in l && l[h].Owns(t) && l[h].store[t].freeze == Some(s) && nonce == l[s].nonce
      then Some(FreezeTx(txId, s, h, t, nonce)) else None
    case UnfreezeToken(s, h, t, nonce) =>
      if s in l && h in l && l[h].Owns(t) && l[h].store[t].freeze == Some(s) && nonce == l[s].nonce
      then Some(UnfreezeTx(txId, s, h, t, nonce)) else None
  }

  /** Every party exists, they differ, and each would accept the transaction as things stand. */
  predicate Accepted(l: Ledger, trx: Transaction) {
    && First(trx) in l && Refusal(l[First(trx)], trx).None?
    && (trx.TwoSided() ==>
          trx.receiver in l && trx.receiver != trx.sender && Refusal(l[trx.receiver], trx).None?)
  }

  /** An authorisation repeated over its own placeholder, which the owner's side then refuses. */
  predicate DropsPlaceholder(l: Ledger, trx: Transaction) {
    && trx.AuthorizeTx?
    && trx.sender in l && trx.receiver in l
    && l[trx.sender].HasPlaceholder(trx.tokenId)
    && (trx.receiver == trx.sender || !l[trx.receiver].Owns(trx.tokenId))
  }

  function ChangeOf(l: Ledger, req: Request, txId: TxId): Change {
    match TransactionOf(l, req, txId)
    case Some(trx) =>
      if Accepted(l, trx) then Posting(trx)
      else if DropsPlaceholder(l, trx) then Dropping(trx.sender, trx.tokenId)
      else Nothing
    case None =>
      if req.CreateAccount? && req.account !in l then
        Opening(req.account,
                if req.initialBalance > 0.0 then Some(MintTx(txId, req.account, req.initialBalance)) else None)
      else Nothing
  }

  function PostAll(l: Ledger, trx: Transaction): Ledger
    requires Accepted(l, trx)
  {
    var l1 := l[First(trx) := Posted(l[First(trx)], trx)];
    if trx.TwoSided() then l1[trx.receiver := Posted(l[trx.receiver], trx)] else l1
  }

  /** Seen from any one account, a posting is its own effect or nothing. */
  lemma PostAllAt(l: Ledger, trx: Transaction, x: ScalegraphId)
    requires Accepted(l, trx) && !trx.BurnTx? && x in l
    ensures PostAll(l, trx).Keys == l.Keys
    ensures PostAll(l, trx)[x] == if trx.Involves(x) then Posted(l[x], trx) else l[x]
  {
  }

  lemma PartyAccepts(l: Ledger, trx: Transaction, x: ScalegraphId)
    requires Accepted(l, trx) && !trx.BurnTx? && trx.Involves(x)
    ensures x in l && Refusal(l[x], trx).None?
  {
  }

  function Dropped(a: AccountState, t: TokenId): AccountState {
    a.(store := Without(a.store, t), mbr := a.mbr - SLOT_COST)
  }

  function Opened(x: ScalegraphId, initial: Option<Transaction>): AccountState {
    if initial.Some? then Posted(NewAccount(x), initial.value) else NewAccount(x)
  }

  function Changed(l: Ledger, change: Change): Ledger
    requires change.Posting? ==> Accepted(l, change.trx)
    requires change.Dropping? ==> change.account in l
  {
    match change
    case Nothing => l
    case Opening(x, initial) => l[x := Opened(x, initial)]
    case Posting(trx) => PostAll(l, trx)
    case Dropping(x, t) => l[x := Dropped(l[x], t)]
  }

  /** The step theorem. A request succeeds exactly when it opens an account or every party accepts
      its transaction in the state before the request, and then all parties post that transaction;
      otherwise the ledger is unchanged, except for a repeated authorisation, which loses its
      placeholder and the locked half unit with it. */
  lemma ExecuteIsOneChange(l: Ledger, req: Request, txId: TxId)
    requires WellFormed(l)
    ensures Execute(l, req, txId).0 == Changed(l, ChangeOf(l, req, txId))
    ensures Execute(l, req, txId).1.Succeeded() <==> ChangeOf(l, req, txId).Opening? || ChangeOf(l, req, txId).Posting?
  {
    match TransactionOf(l, req, txId)
    case Some(trx) =>
      if trx.TwoSided() && (trx.TransferTx? ==> trx.sender != trx.receiver) {
        ExecuteAppendsBoth(l, req, txId, trx);
        AppendBothIsOneChange(l, trx);
      } else {
        OnePartyIsOneChange(l, req, txId, trx);
      }
    case None => NoTransactionIsOneChange(l, req, txId);
  }

  lemma NoTransactionIsOneChange(l: Ledger, req: Request, txId: TxId)
    requires TransactionOf(l, req, txId).None?
    ensures Execute(l, req, txId).0 == Changed(l, ChangeOf(l, req, txId))
    ensures Execute(l, req, txId).1.Succeeded() <==> ChangeOf(l, req, txId).Opening?
  {
  }

  lemma ExecuteAppendsBoth(l: Ledger, req: Request, txId: TxId, trx: Transaction)
    requires WellFormed(l) && TransactionOf(l, req, txId) == Some(trx)
    requires trx.TwoSided() && (trx.TransferTx? ==> trx.sender != trx.receiver)
    ensures FromRequest(l, trx)
    ensures Execute(l, req, txId) == AppendBoth(l, trx.sender, trx.receiver, trx)
    ensures DropsPlaceholder(l, trx) ==> Refusal(l[trx.sender], trx).None?
  {
    if req.TransferToken? || req.ClawbackToken? {
      PlaceholderTestExact(req.tokenId, l[req.from].store[req.tokenId]);
    }
  }

  lemma OnePartyIsOneChange(l: Ledger, req: Request, txId: TxId, trx: Transaction)
    requires WellFormed(l) && TransactionOf(l, req, txId) == Some(trx)
    requires !trx.TwoSided() || (trx.TransferTx? && trx.sender == trx.receiver)
    ensures Execute(l, req, txId).0 == if Accepted(l, trx) then PostAll(l, trx) else l
    ensures Execute(l, req, txId).1.Succeeded() <==> Accepted(l, trx)
    ensures !DropsPlaceholder(l, trx)
  {
  }

  /** What is known of a transaction that gets posted: besides being accepted, a moved token is the
      sender's own, and clawbacks and (un)freezes come from the address the token names. */
  ghost predicate Lawful(l: Ledger, trx: Transaction) {
    && Accepted(l, trx)
    && !trx.BurnTx?
    && (trx.TransferTokenTx? || trx.ClawbackTx? ==>
          l[trx.sender].Owns(trx.token.Id()) && l[trx.sender].store[trx.token.Id()] == trx.token)
    && (trx.ClawbackTx? ==> trx.token.clawback == Some(trx.receiver))
    && (trx.FreezeTx? || trx.UnfreezeTx? ==>
          l[trx.receiver].Owns(trx.tokenId) && l[trx.receiver].store[trx.tokenId].freeze == Some(trx.sender))
    && (trx.MintTokenTx? ==> !trx.token.frozen)
  }

  /** What holds of any two-sided transaction a request builds. */
  ghost predicate FromRequest(l: Ledger, trx: Transaction) {
    && trx.TwoSided() && trx.sender in l && trx.receiver in l
    && (trx.TransferTx? ==> trx.sender != trx.receiver)
    && (trx.TransferTokenTx? || trx.ClawbackTx? ==>
          l[trx.sender].Owns(trx.token.Id()) && l[trx.sender].store[trx.token.Id()] == trx.token)
  }

  lemma AppendBothIsOneChange(l: Ledger, trx: Transaction)
    requires WellFormed(l) && FromRequest(l, trx)
    ensures AppendBoth(l, trx.sender, trx.receiver, trx).1.Succeeded() <==> Accepted(l, trx)
    ensures AppendBoth(l, trx.sender, trx.receiver, trx).0 ==
            if Accepted(l, trx) then PostAll(l, trx)
            else if DropsPlaceholder(l, trx) && Refusal(l[trx.sender], trx).None?
            then l[trx.sender := Dropped(l[trx.sender], trx.tokenId)] else l
  {
    var l1 := l[trx.sender := Posted(l[trx.sender], trx)];
    if Refusal(l[trx.sender], trx).Some? {
    } else if Accepted(l, trx) {
      assert l1[trx.receiver] == l[trx.receiver];
    } else {
      SecondRefusalIsUndone(l, trx);
      var restored := RollbackLatest(l1[trx.sender], trx).0;
      assert l1[trx.sender := restored] == l[trx.sender := restored];
    }
  }

  /** The rollback the application calls never fails, and restores the first account exactly unless
      it was repeating an authorisation. */
  lemma SecondRefusalIsUndone(l: Ledger, trx: Transaction)
    requires WellFormed(l) && FromRequest(l, trx)
    requires Refusal(l[trx.sender], trx).None? && !Accepted(l, trx)
    ensures !trx.TransferTx?
    ensures Refusal(l[trx.sender := Posted(l[trx.sender], trx)][trx.receiver], trx).Some?
    ensures RollbackLatest(Posted(l[trx.sender], trx), trx)
         == (if DropsPlaceholder(l, trx) then Dropped(l[trx.sender], trx.tokenId) else l[trx.sender], None)
  {
    var a := l[trx.sender];
    RollbackInvertsAppend(a, trx);
    match trx
    case UnauthorizeTx(_, _, _, t, _) => PlaceholderTestExact(t, a.store[t]);
    case AuthorizeTx(_, _, _, t, _) =>
      if t in a.store {
        PlaceholderTestExact(t, a.store[t]);
        assert (a.chain + [trx])[..|a.chain|] == a.chain;
      }
    case _ =>
  }

  /** An account authorises again what it already has a placeholder for, and the owner it names is
      itself or does not hold the token. */
  predicate RepeatsAuthorization(l: Ledger, req: Request) {
    && req.AuthorizeTokenTransfer?
    && req.account in l && req.owner in l
    && req.nonce == l[req.account].nonce
    && l[req.account].HasPlaceholder(req.tokenId)
    && (req.owner == req.account || !l[req.owner].Owns(req.tokenId))
  }

  /** A request fails and leaves a trace exactly if it so repeats an authorisation; the trace is the
      placeholder gone and its half unit released. */
  lemma FailureLeavesNoTrace(l: Ledger, req: Request, txId: TxId)
    requires WellFormed(l)
    ensures !Execute(l, req, txId).1.Succeeded() && Execute(l, req, txId).0 != l <==> RepeatsAuthorization(l, req)
    ensures RepeatsAuthorization(l, req) ==>
              Execute(l, req, txId).0 == l[req.account := Dropped(l[req.account], req.tokenId)]
  {
    ExecuteIsOneChange(l, req, txId);
    DropsExactly(l, req, txId);
    match ChangeOf(l, req, txId)
    case Dropping(x, t) => assert t in l[x].store && t !in Dropped(l[x], t).store;
    case _ =>
  }

  lemma DropsExactly(l: Ledger, req: Request, txId: TxId)
    requires WellFormed(l)
    ensures ChangeOf(l, req, txId).Dropping? <==> RepeatsAuthorization(l, req)
    ensures RepeatsAuthorization(l, req) ==> ChangeOf(l, req, txId) == Dropping(req.account, req.tokenId)
  {
  }

  predicate ClawsBackUnclaimable(l: Ledger, req: Request) {
    && req.ClawbackToken? && req.from in l && req.to in l
    && l[req.from].Owns(req.tokenId) && l[req.from].store[req.tokenId].clawback.None?
  }

  /** The program dies exactly on the clawback of a held token that names no clawback address. */
  lemma PanicsExactly(l: Ledger, req: Request, txId: TxId)
    ensures Execute(l, req, txId).1.Panicked? <==> ClawsBackUnclaimable(l, req)
  {
  }

  lemma {:induction false} WellFormedAfter(run: Run)
    ensures WellFormed(After(run))
  {
    match run
    case Start =>
    case Then(before, req, txId) =>
      WellFormedAfter(before);
      ExecuteIsOneChange(After(before), req, txId);
      match ChangeOf(After(before), req, txId)
      case Posting(trx) =>
        PostingIsLawful(After(before), req, txId);
        PostingKeepsWellFormed(After(before), trx);
      case _ =>
  }

  /** In every reachable store an entry passes the placeholder test exactly when it is the empty token;
      every other entry stands under its own identifier and names its signer. */
  lemma {:induction false} PlaceholdersDiscriminated(run: Run, x: ScalegraphId, t: TokenId)
    requires x in After(run) && t in After(run)[x].store
    ensures var token := After(run)[x].store[t];
            (token.Equal(EMPTY) <==> token == EMPTY) && (token != EMPTY ==> token.Id() == t && token.Signer().Some?)
  {
    WellFormedAfter(run);
    PlaceholderTestExact(t, After(run)[x].store[t]);
  }

  lemma PostingKeepsWellFormed(l: Ledger, trx: Transaction)
    requires WellFormed(l) && Lawful(l, trx)
    ensures WellFormed(PostAll(l, trx))
  {
    if trx.TransferTokenTx? || trx.ClawbackTx? {
      PlaceholderTestExact(trx.token.Id(), l[trx.sender].store[trx.token.Id()]);
    }
    EffectKeepsStoreOk(l[First(trx)], trx);
    if trx.TwoSided() {
      EffectKeepsStoreOk(l[trx.receiver], trx);
    }
  }

  lemma EffectKeepsStoreOk(a: AccountState, trx: Transaction)
    requires StoreOk(a.store) && Refusal(a, trx).None?
    requires trx.TransferTokenTx? || trx.ClawbackTx? ==> EntryOk(trx.token.Id(), trx.token)
    requires trx.UnfreezeTx? && trx.receiver == a.id ==> a.Owns(trx.tokenId)
    ensures StoreOk(Effect(a, trx).store)
  {
    if trx.FreezeTx? || trx.UnfreezeTx? {
      if trx.tokenId in a.store { PlaceholderTestExact(trx.tokenId, a.store[trx.tokenId]); }
    }
  }

  /** What a posted transaction's request has established. */
  lemma PostingIsLawful(l: Ledger, req: Request, txId: TxId)
    requires WellFormed(l)
    requires ChangeOf(l, req, txId).Posting?
    ensures Lawful(l, ChangeOf(l, req, txId).trx)
  {
  }

  ghost predicate NoncesAdvance(l: Ledger, trx: Transaction, l': Ledger) {
    forall x | x in l :: x in l' && l'[x].nonce == l[x].nonce + if trx.SignedBy(x) then 1 else 0
  }

  lemma PostingAdvancesNonces(l: Ledger, trx: Transaction)
    requires WellFormed(l) && Lawful(l, trx)
    ensures NoncesAdvance(l, trx, PostAll(l, trx))
  {
  }
}
