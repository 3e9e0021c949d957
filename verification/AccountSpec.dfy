/** What each transaction does to one account, as values: when an account refuses it, what it
    changes when accepted, and what the hand-written rollback handlers restore
    (internal/scalegraph/account.go). The class in Accounts.dfy is proved against this. */
module AccountSpec {
  import opened Wrappers
  import opened Ids
  import opened Tokens
  import opened Transactions

  const SLOT_COST := 0.5
  const TOKEN_COST := 1.0
  const FREEZE_COST := 0.1

  datatype Error =
    | NonceMismatch | InsufficientBalance | TokenExists | TokenMissing | NotAuthorized | AlreadyOwned
    | Placeholder | InvalidSigner | WrongSigner | TokenFrozen | TokenNotFrozen | NotFreezeAuthority
    | NotInvolved | NotLatest | AccountExists | AccountMissing | SelfTransfer | ClawbackMismatch

  /** An account: its chain holds the transactions after genesis, oldest first. */
  datatype AccountState = AccountState(
    id: ScalegraphId,
    balance: real,
    mbr: real,
    nonce: int,
    store: map<TokenId, Token>,
    chain: seq<Transaction>)
  {
    function Available(): real {
      balance - mbr
    }

    /** A real token is in the slot, not a placeholder. */
    predicate Owns(t: TokenId) {
      t in store && !store[t].Equal(EMPTY)
    }

    predicate HasPlaceholder(t: TokenId) {
      t in store && store[t].Equal(EMPTY)
    }
  }

  function NewAccount(id: ScalegraphId): AccountState {
    AccountState(id, 0.0, 0.0, 0, map[], [])
  }

  function Without(store: map<TokenId, Token>, t: TokenId): map<TokenId, Token> {
    store - {t}
  }

  /** Sets the frozen flag of an entry, if there is one. */
  function WithFrozen(store: map<TokenId, Token>, t: TokenId, frozen: bool): map<TokenId, Token> {
    if t in store then store[t := store[t].(frozen := frozen)] else store
  }

  /** Why account a refuses the transaction, or None. */
  function Refusal(a: AccountState, trx: Transaction): Option<Error> {
    match trx
    case MintTx(_, _, _) => None
    case TransferTx(_, s, _, amount) =>
      if s == a.id && a.Available() < amount then Some(InsufficientBalance) else None
    case BurnTx(_, r, amount) =>
      if r == a.id && a.Available() < amount then Some(InsufficientBalance) else None
    case MintTokenTx(_, r, token) =>
      if r == a.id then
        if token.nonce != a.nonce then Some(NonceMismatch) else MintTokenRefusal(a, token)
      else None
    case AuthorizeTx(_, s, r, t, nonce) =>
      if s == a.id then
        if nonce != a.nonce then Some(NonceMismatch)
        else if t !in a.store then
          if a.Available() < SLOT_COST then Some(InsufficientBalance) else None
        else if a.Owns(t) then Some(AlreadyOwned) else None
      else if r == a.id then
        if a.Owns(t) then None else Some(TokenMissing)
      else Some(NotInvolved)
    case UnauthorizeTx(_, s, r, t, nonce) =>
      if s == a.id then
        if nonce != a.nonce then Some(NonceMismatch)
        else if t !in a.store then Some(NotAuthorized)
        else if a.Owns(t) then Some(AlreadyOwned) else None
      else if r == a.id then
        if a.Owns(t) then None else Some(TokenMissing)
      else Some(NotInvolved)
    case TransferTokenTx(_, s, r, token, nonce) =>
      if s == a.id then
        if nonce != a.nonce then Some(NonceMismatch)
        else if token.Id() !in a.store then Some(TokenMissing)
        else if a.store[token.Id()].frozen then Some(TokenFrozen) else None
      else if r == a.id then
        if a.HasPlaceholder(token.Id()) then None else Some(NotAuthorized)
      else Some(NotInvolved)
    case BurnTokenTx(_, s, t, nonce) =>
      if s == a.id then
        if nonce != a.nonce then Some(NonceMismatch) else BurnTokenRefusal(a, t)
      else Some(NotInvolved)
    case ClawbackTx(_, s, r, token, nonce) =>
      if s == a.id then
        if token.Id() in a.store then None else Some(TokenMissing)
      else if r == a.id then
        if nonce != a.nonce then Some(NonceMismatch)
        else if token.Id() in a.store then Some(TokenExists) else None
      else Some(NotInvolved)
    case FreezeTx(_, s, r, t, nonce) =>
      if s == a.id then
        if nonce != a.nonce then Some(NonceMismatch)
        else if a.Available() < FREEZE_COST then Some(InsufficientBalance) else None
      else if r == a.id then
        if t !in a.store then Some(TokenMissing)
        else if !a.Owns(t) then Some(Placeholder)
        else if a.store[t].frozen then Some(TokenFrozen)
        else if a.store[t].freeze != Some(s) then Some(NotFreezeAuthority) else None
      else Some(NotInvolved)
    case UnfreezeTx(_, s, r, t, nonce) =>
      if s == a.id then
        if nonce != a.nonce then Some(NonceMismatch) else None
      else if r == a.id then
        if t !in a.store then Some(TokenMissing)
        else if !a.store[t].frozen then Some(TokenNotFrozen) else None
      else Some(NotInvolved)
  }

  function MintTokenRefusal(a: AccountState, token: Token): Option<Error> {
    if token.Id() in a.store then Some(TokenExists)
    else if token.Signer().None? then Some(InvalidSigner)
    else if token.Signer().value != a.id then Some(WrongSigner)
    else if a.Available() < TOKEN_COST then Some(InsufficientBalance) else None
  }

  function BurnTokenRefusal(a: AccountState, t: TokenId): Option<Error> {
    if t !in a.store then Some(TokenMissing)
    else if !a.Owns(t) then Some(Placeholder)
    else if a.store[t].Signer().None? then Some(InvalidSigner)
    else if a.store[t].Signer().value != a.id then Some(WrongSigner) else None
  }

  /** The account after an accepted transaction, before the block is appended. */
  function Effect(a: AccountState, trx: Transaction): AccountState {
    match trx
    case MintTx(_, _, amount) => a.(balance := a.balance + amount)
    case TransferTx(_, s, r, amount) =>
      a.(balance := a.balance - (if s == a.id then amount else 0.0) + (if r == a.id then amount else 0.0),
         nonce := if s == a.id then a.nonce + 1 else a.nonce)
    case BurnTx(_, r, amount) => if r == a.id then a.(balance := a.balance - amount) else a
    case MintTokenTx(_, r, token) =>
      if r == a.id then
        a.(mbr := a.mbr + TOKEN_COST, store := a.store[token.Id() := token], nonce := a.nonce + 1)
      else a
    case AuthorizeTx(_, s, _, t, _) =>
      if s != a.id then a
      else if t in a.store then a.(nonce := a.nonce + 1)
      else a.(mbr := a.mbr + SLOT_COST, store := a.store[t := EMPTY], nonce := a.nonce + 1)
    case UnauthorizeTx(_, s, _, t, _) =>
      if s == a.id then a.(mbr := a.mbr - SLOT_COST, store := Without(a.store, t), nonce := a.nonce + 1) else a
    case TransferTokenTx(_, s, r, token, _) =>
      if s == a.id then a.(store := Without(a.store, token.Id()), nonce := a.nonce + 1)
      else if r == a.id then a.(store := a.store[token.Id() := token], mbr := a.mbr - SLOT_COST)
      else a
    case BurnTokenTx(_, s, t, _) =>
      if s == a.id then a.(store := Without(a.store, t), mbr := a.mbr - TOKEN_COST, nonce := a.nonce + 1) else a
    case ClawbackTx(_, s, r, token, _) =>
      if s == a.id then a.(store := Without(a.store, token.Id()))
      else if r == a.id then a.(store := a.store[token.Id() := token], nonce := a.nonce + 1)
      else a
    case FreezeTx(_, s, r, t, _) =>
      if s == a.id then a.(mbr := a.mbr + FREEZE_COST, nonce := a.nonce + 1)
      else if r == a.id then a.(store := WithFrozen(a.store, t, true))
      else a
    case UnfreezeTx(_, s, r, t, _) =>
      if s == a.id then a.(mbr := a.mbr - FREEZE_COST, nonce := a.nonce + 1)
      else if r == a.id then a.(store := WithFrozen(a.store, t, false))
      else a
  }

  /** The account with the accepted transaction's block on its chain. */
  function Posted(a: AccountState, trx: Transaction): AccountState {
    Effect(a, trx).(chain := a.chain + [trx])
  }

  /** appendTransaction: a refused transaction leaves no trace. */
  function Append(a: AccountState, trx: Transaction): (AccountState, Option<Error>) {
    if Refusal(a, trx).Some? then (a, Refusal(a, trx)) else (Posted(a, trx), None)
  }

  /** Why a rollback handler fails, or None. */
  function ReversalRefusal(a: AccountState, trx: Transaction): Option<Error> {
    match trx
    case MintTokenTx(_, r, token) =>
      if r == a.id && token.Id() !in a.store then Some(TokenMissing) else None
    case ClawbackTx(_, s, r, token, _) =>
      if s == a.id then
        if token.Id() in a.store then Some(TokenExists) else None
      else if r == a.id && token.Id() !in a.store then Some(TokenMissing) else None
    case _ => None
  }

  /** What a rollback handler that does not fail leaves. */
  function Reversal(a: AccountState, trx: Transaction): AccountState {
    match trx
    case MintTx(_, _, amount) => a.(balance := a.balance - amount)
    case TransferTx(_, s, r, amount) =>
      a.(balance := a.balance + (if s == a.id then amount else 0.0) - (if r == a.id then amount else 0.0),
         nonce := if s == a.id then a.nonce - 1 else a.nonce)
    case BurnTx(_, r, amount) => if r == a.id then a.(balance := a.balance + amount) else a
    case MintTokenTx(_, r, token) =>
      if r == a.id then
        a.(mbr := a.mbr - TOKEN_COST, store := Without(a.store, token.Id()), nonce := a.nonce - 1)
      else a
    case AuthorizeTx(_, s, _, t, _) =>
      if s == a.id then a.(mbr := a.mbr - SLOT_COST, store := Without(a.store, t), nonce := a.nonce - 1) else a
    case UnauthorizeTx(_, s, _, t, _) =>
      if s == a.id then a.(mbr := a.mbr + SLOT_COST, store := a.store[t := EMPTY], nonce := a.nonce - 1) else a
    case TransferTokenTx(_, s, r, token, _) =>
      if s == a.id then a.(store := a.store[token.Id() := token], nonce := a.nonce - 1)
      else if r == a.id then a.(store := a.store[token.Id() := EMPTY], mbr := a.mbr - TOKEN_COST)
      else a
    case BurnTokenTx(_, s, _, _) =>
      if s == a.id then a.(mbr := a.mbr + TOKEN_COST, nonce := a.nonce - 1) else a
    case ClawbackTx(_, s, r, token, _) =>
      if s == a.id then a.(store := a.store[token.Id() := token])
      else if r == a.id then a.(store := Without(a.store, token.Id()), nonce := a.nonce - 1)
      else a
    case FreezeTx(_, s, r, t, _) =>
      if s == a.id then a.(mbr := a.mbr - FREEZE_COST, nonce := a.nonce - 1)
      else if r == a.id then a.(store := WithFrozen(a.store, t, false))
      else a
    case UnfreezeTx(_, s, r, t, _) =>
      if s == a.id then a.(mbr := a.mbr + FREEZE_COST, nonce := a.nonce - 1)
      else if r == a.id then a.(store := WithFrozen(a.store, t, true))
      else a
  }

  /** rollbacklatestTransaction: when the handler fails, the block is already gone. */
  function RollbackLatest(a: AccountState, trx: Transaction): (AccountState, Option<Error>) {
    if a.chain == [] || a.chain[|a.chain| - 1].txId != trx.txId then (a, Some(NotLatest))
    else
      var shorter := a.(chain := a.chain[..|a.chain| - 1]);
      if ReversalRefusal(shorter, trx).Some? then (shorter, ReversalRefusal(shorter, trx))
      else (Reversal(shorter, trx), None)
  }

  /** When the rollback handler really is the inverse of the forward one. */
  predicate Invertible(a: AccountState, trx: Transaction) {
    match trx
    case AuthorizeTx(_, s, _, t, _) => s == a.id ==> t !in a.store
    case UnauthorizeTx(_, s, _, t, _) => s == a.id ==> t in a.store && a.store[t] == EMPTY
    case TransferTokenTx(_, s, _, token, _) =>
      s == a.id && token.Id() in a.store && a.store[token.Id()] == token
    case BurnTokenTx(_, _, _, _) => false
    case ClawbackTx(_, s, _, token, _) =>
      s == a.id ==> token.Id() in a.store && a.store[token.Id()] == token
    case _ => true
  }

  /** Rolling back an append restores the whole account exactly in the invertible cases: not for a
      repeated authorisation, not for the receiving side of a token transfer, never for a burn. */
  lemma RollbackInvertsAppend(a: AccountState, trx: Transaction)
    requires Refusal(a, trx).None?
    ensures RollbackLatest(Append(a, trx).0, trx) == (a, None) <==> Invertible(a, trx)
  {
    var shorter := Effect(a, trx);
    assert Posted(a, trx).(chain := Posted(a, trx).chain[..|a.chain|]) == shorter by {
      assert (a.chain + [trx])[..|a.chain|] == a.chain;
    }
    assert RollbackLatest(Posted(a, trx), trx) ==
           if ReversalRefusal(shorter, trx).Some? then (shorter, ReversalRefusal(shorter, trx))
           else (Reversal(shorter, trx), None);
    ReversalInvertsEffect(a, trx);
  }

  lemma ReversalInvertsEffect(a: AccountState, trx: Transaction)
    requires Refusal(a, trx).None?
    ensures ReversalRefusal(Effect(a, trx), trx).None? && Reversal(Effect(a, trx), trx) == a <==> Invertible(a, trx)
  {
    var b := Effect(a, trx);
    match trx
    case MintTokenTx(_, r, token) =>
      if r == a.id { assert Without(a.store[token.Id() := token], token.Id()) == a.store; }
    case AuthorizeTx(_, s, _, t, _) =>
      if s == a.id && t !in a.store { assert Without(a.store[t := EMPTY], t) == a.store; }
    case UnauthorizeTx(_, s, _, t, _) =>
      if s == a.id { RestoreEntry(a.store, t, EMPTY); }
    case TransferTokenTx(_, s, _, token, _) =>
      if s == a.id { RestoreEntry(a.store, token.Id(), token); }
    case ClawbackTx(_, s, r, token, _) =>
      if s == a.id {
        RestoreEntry(a.store, token.Id(), token);
      } else {
        assert Without(a.store[token.Id() := token], token.Id()) == a.store;
      }
    case BurnTokenTx(_, s, t, _) =>
      assert t in a.store && t !in Reversal(b, trx).store;
    case _ =>
  }

  /** What the other three rollbacks leave: a repeated authorisation loses its placeholder and 0.5; the
      receiver of a token ends 1.5 below where it was; a burned token stays burned. */
  lemma RollbackMisses(a: AccountState, trx: Transaction)
    requires Refusal(a, trx).None?
    ensures trx.AuthorizeTx? && trx.sender == a.id && trx.tokenId in a.store ==>
              RollbackLatest(Posted(a, trx), trx) == (a.(store := a.store - {trx.tokenId}, mbr := a.mbr - 0.5), None)
    ensures trx.TransferTokenTx? && trx.sender != a.id ==>
              RollbackLatest(Posted(a, trx), trx) ==
              (a.(store := a.store[trx.token.Id() := EMPTY], mbr := a.mbr - 1.5), None)
    ensures trx.BurnTokenTx? ==>
              RollbackLatest(Posted(a, trx), trx) == (a.(store := a.store - {trx.tokenId}), None)
  {
    assert (a.chain + [trx])[..|a.chain|] == a.chain;
    if trx.TransferTokenTx? {
      assert a.store[trx.token.Id() := trx.token][trx.token.Id() := EMPTY] == a.store[trx.token.Id() := EMPTY];
    }
  }

  /** A rollback fails exactly when the transaction is not the latest, a minted or clawed-back token is
      gone, or a clawed-back one is back already; in the last two cases the block is gone all the same. */
  lemma RollbackFailsExactly(a: AccountState, trx: Transaction)
    ensures
      var t, x := if trx.MintTokenTx? || trx.ClawbackTx? then trx.token.Id() else "", a.id;
      var (a', err) := RollbackLatest(a, trx);
      if a.chain == [] || a.chain[|a.chain| - 1].txId != trx.txId then a' == a && err == Some(NotLatest)
      else if trx.MintTokenTx? && trx.receiver == x && t !in a.store
      then a' == a.(chain := a.chain[..|a.chain| - 1]) && err == Some(TokenMissing)
      else if trx.ClawbackTx? && trx.sender == x && t in a.store
      then a' == a.(chain := a.chain[..|a.chain| - 1]) && err == Some(TokenExists)
      else if trx.ClawbackTx? && trx.sender != x && trx.receiver == x && t !in a.store
      then a' == a.(chain := a.chain[..|a.chain| - 1]) && err == Some(TokenMissing)
      else a'.chain == a.chain[..|a.chain| - 1] && err == None
  {
  }

  /** What a transaction does to an account that is no party to it: funds minted are credited whoever the
      account is, the kinds that name one party or funds leave it alone, everything else is refused. */
  lemma Outsiders(a: AccountState, trx: Transaction)
    requires !trx.Involves(a.id)
    ensures trx.MintTx? ==> Append(a, trx) == (a.(balance := a.balance + trx.amount, chain := a.chain + [trx]), None)
    ensures trx.TransferTx? || trx.BurnTx? || trx.MintTokenTx? ==>
              Append(a, trx) == (a.(chain := a.chain + [trx]), None)
    ensures !(trx.MintTx? || trx.TransferTx? || trx.BurnTx? || trx.MintTokenTx?) ==>
              Append(a, trx) == (a, Some(NotInvolved))
  {
  }

  /** Burning funds takes exactly what is free and no more. */
  lemma BurnsFreeFunds(a: AccountState, trx: Transaction)
    requires trx.BurnTx? && trx.receiver == a.id
    ensures Append(a, trx) ==
            if trx.amount <= a.balance - a.mbr
            then (a.(balance := a.balance - trx.amount, chain := a.chain + [trx]), None)
            else (a, Some(InsufficientBalance))
  {
  }

  lemma RestoreEntry(store: map<TokenId, Token>, t: TokenId, token: Token)
    requires t in store
    ensures Without(store, t)[t := token] == store <==> store[t] == token
  {
    assert Without(store, t)[t := token] == store[t := token];
    if store[t] != token { assert store[t := token][t] != store[t]; }
  }
}
