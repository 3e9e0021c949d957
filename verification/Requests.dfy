/** When each request succeeds and what it then does, said directly of accounts, balances and stores:
    the reference the handlers, their order and their rollbacks are measured against. */
module Requests {
  import opened Wrappers
  import opened Ids
  import opened Tokens
  import opened Transactions
  import opened AccountSpec
  import opened Ledgers
  import opened Changes

  predicate HoldsReal(l: Ledger, x: ScalegraphId, t: TokenId) {
    x in l && t in l[x].store && l[x].store[t] != EMPTY
  }

  predicate Awaits(l: Ledger, x: ScalegraphId, t: TokenId) {
    x in l && t in l[x].store && l[x].store[t] == EMPTY
  }

  function Free(l: Ledger, x: ScalegraphId): real
    requires x in l
  {
    l[x].balance - l[x].mbr
  }

  /** Whose turn it is: the account exists and this is its next nonce. */
  predicate Due(l: Ledger, x: ScalegraphId, nonce: int) {
    x in l && l[x].nonce == nonce
  }

  lemma EntryTest(store: map<TokenId, Token>, t: TokenId)
    requires StoreOk(store)
    ensures t in store ==> (store[t].Equal(EMPTY) <==> store[t] == EMPTY)
    ensures t in store && store[t] != EMPTY ==> store[t].Id() == t && store[t].Signer().Some?
  {
    if t in store { PlaceholderTestExact(t, store[t]); }
  }

  // How a request is answered.

  /** The accounts a request names. */
  function Named(req: Request): set<ScalegraphId> {
    match req
    case CreateAccount(_, _) => {}
    case Mint(to, _) => {to}
    case Transfer(from, to, _, _) => {from, to}
    case MintToken(_, signature, _, _, _) =>
      var signer := Parse(signature.signerId);
      if signer.Some? then {signer.value} else {}
    case AuthorizeTokenTransfer(a, owner, _, _) => {a, owner}
    case UnauthorizeTokenTransfer(a, owner, _, _) => {a, owner}
    case TransferToken(from, to, _, _) => {from, to}
    case BurnToken(a, _, _) => {a}
    case ClawbackToken(from, to, _, _) => {from, to}
    case FreezeToken(authority, holder, _, _) => {authority, holder}
    case UnfreezeToken(authority, holder, _, _) => {authority, holder}
  }

  /** How a request is answered: the first thing found wrong, in the order the application and then the
      two accounts look. An account that faces itself is refused by its own second look. */
  function Answered(l: Ledger, req: Request): Outcome {
    if !req.CreateAccount? && !(Named(req) <= l.Keys) then Failed(AccountMissing)
    else
      match req
      case CreateAccount(x, _) => if x in l then Failed(AccountExists) else Done
      case Mint(_, _) => Done
      case Transfer(from, to, amount, nonce) =>
        if from == to then Failed(SelfTransfer)
        else if !Due(l, from, nonce) then Failed(NonceMismatch)
        else if Free(l, from) < amount then Failed(InsufficientBalance)
        else Done
      case MintToken(_, signature, _, _, nonce) =>
        var signer := Parse(signature.signerId);
        if signer.None? then Failed(InvalidSigner)
        else if !Due(l, signer.value, nonce) then Failed(NonceMismatch)
        else if Encode(signature.value) in l[signer.value].store then Failed(TokenExists)
        else if Free(l, signer.value) < 1.0 then Failed(InsufficientBalance)
        else DoneMint(Encode(signature.value))
      case AuthorizeTokenTransfer(a, owner, t, nonce) =>
        if !Due(l, a, nonce) then Failed(NonceMismatch)
        else if HoldsReal(l, a, t) then Failed(AlreadyOwned)
        else if t !in l[a].store && Free(l, a) < 0.5 then Failed(InsufficientBalance)
        else if a == owner then Failed(NonceMismatch)
        else if !HoldsReal(l, owner, t) then Failed(TokenMissing)
        else Done
      case UnauthorizeTokenTransfer(a, owner, t, nonce) =>
        if !Due(l, a, nonce) then Failed(NonceMismatch)
        else if t !in l[a].store then Failed(NotAuthorized)
        else if HoldsReal(l, a, t) then Failed(AlreadyOwned)
        else if a == owner then Failed(NonceMismatch)
        else if !HoldsReal(l, owner, t) then Failed(TokenMissing)
        else Done
      case TransferToken(from, to, t, nonce) =>
        if !HoldsReal(l, from, t) then Failed(TokenMissing)
        else if !Due(l, from, nonce) then Failed(NonceMismatch)
        else if l[from].store[t].frozen then Failed(TokenFrozen)
        else if from == to then Failed(NonceMismatch)
        else if !Awaits(l, to, t) then Failed(NotAuthorized)
        else Done
      case BurnToken(a, t, nonce) =>
        if !Due(l, a, nonce) then Failed(NonceMismatch)
        else if t !in l[a].store then Failed(TokenMissing)
        else if Awaits(l, a, t) then Failed(Placeholder)
        else if Parse(l[a].store[t].signature.signerId) != Some(a) then Failed(WrongSigner)
        else Done
      case ClawbackToken(from, to, t, nonce) =>
        if !HoldsReal(l, from, t) then Failed(TokenMissing)
        else if l[from].store[t].clawback.None? then Panicked
        else if l[from].store[t].clawback != Some(to) then Failed(ClawbackMismatch)
        else if !Due(l, to, nonce) then Failed(NonceMismatch)
        else if from == to then Failed(TokenMissing)
        else if t in l[to].store then Failed(TokenExists)
        else Done
      case FreezeToken(authority, holder, t, nonce) =>
        if !HoldsReal(l, holder, t) then Failed(TokenMissing)
        else if l[holder].store[t].freeze != Some(authority) then Failed(NotFreezeAuthority)
        else if !Due(l, authority, nonce) then Failed(NonceMismatch)
        else if Free(l, authority) < 0.1 then Failed(InsufficientBalance)
        else if authority == holder then Failed(NonceMismatch)
        else if l[holder].store[t].frozen then Failed(TokenFrozen)
        else Done
      case UnfreezeToken(authority, holder, t, nonce) =>
        if !HoldsReal(l, holder, t) then Failed(TokenMissing)
        else if l[holder].store[t].freeze != Some(authority) then Failed(NotFreezeAuthority)
        else if !Due(l, authority, nonce) then Failed(NonceMismatch)
        else if authority == holder then Failed(NonceMismatch)
        else if !l[holder].store[t].frozen then Failed(TokenNotFrozen)
        else Done
  }

  lemma AnswersExactly(l: Ledger, req: Request, txId: TxId)
    requires WellFormed(l)
    ensures Execute(l, req, txId).1 == Answered(l, req)
  {
    if req.AuthorizeTokenTransfer? || req.UnauthorizeTokenTransfer? {
      AuthorizationAnswered(l, req, txId);
    } else if req.TransferToken? || req.ClawbackToken? {
      MoveAnswered(l, req, txId);
    } else if req.FreezeToken? || req.UnfreezeToken? {
      FlagAnswered(l, req, txId);
    } else if req.BurnToken? {
      if req.account in l { EntryTest(l[req.account].store, req.tokenId); }
    } else if req.MintToken? {
      MintAnswered(l, req, txId);
    } else {
      FundsAnswered(l, req, txId);
    }
  }

  lemma FundsAnswered(l: Ledger, req: Request, txId: TxId)
    requires WellFormed(l) && (req.CreateAccount? || req.Mint? || req.Transfer?)
    ensures Execute(l, req, txId).1 == Answered(l, req)
  {
  }

  lemma MintAnswered(l: Ledger, req: Request, txId: TxId)
    requires WellFormed(l) && req.MintToken?
    ensures Execute(l, req, txId).1 == Answered(l, req)
  {
  }

  lemma AuthorizationAnswered(l: Ledger, req: Request, txId: TxId)
    requires WellFormed(l) && (req.AuthorizeTokenTransfer? || req.UnauthorizeTokenTransfer?)
    ensures Execute(l, req, txId).1 == Answered(l, req)
  {
    if req.account in l { EntryTest(l[req.account].store, req.tokenId); }
    if req.owner in l { EntryTest(l[req.owner].store, req.tokenId); }
  }

  lemma MoveAnswered(l: Ledger, req: Request, txId: TxId)
    requires WellFormed(l) && (req.TransferToken? || req.ClawbackToken?)
    ensures Execute(l, req, txId).1 == Answered(l, req)
  {
    if req.from in l { EntryTest(l[req.from].store, req.tokenId); }
    if req.to in l { EntryTest(l[req.to].store, req.tokenId); }
    if req.TransferToken? { TransferAnswered(l, req, txId); } else { ClawbackAnswered(l, req, txId); }
  }

  /** The placeholder test, exact for what an account may have under an identifier. */
  predicate TestExact(l: Ledger, x: ScalegraphId, t: TokenId) {
    x in l && t in l[x].store ==>
      && (l[x].store[t].Equal(EMPTY) <==> l[x].store[t] == EMPTY)
      && (l[x].store[t] != EMPTY ==> l[x].store[t].Id() == t)
  }

  lemma TransferAnswered(l: Ledger, req: Request, txId: TxId)
    requires WellFormed(l) && req.TransferToken?
    requires TestExact(l, req.from, req.tokenId) && TestExact(l, req.to, req.tokenId)
    ensures ExecuteTransferToken(l, req, txId).1 == Answered(l, req)
  {
  }

  lemma ClawbackAnswered(l: Ledger, req: Request, txId: TxId)
    requires WellFormed(l) && req.ClawbackToken?
    requires TestExact(l, req.from, req.tokenId) && TestExact(l, req.to, req.tokenId)
    ensures ExecuteClawback(l, req, txId).1 == Answered(l, req)
  {
    if HoldsReal(l, req.from, req.tokenId) && Due(l, req.to, req.nonce) {
      var token := l[req.from].store[req.tokenId];
      BothSidesOfClawback(l, ClawbackTx(txId, req.from, req.to, token, req.nonce));
    }
  }

  lemma BothSidesOfClawback(l: Ledger, trx: Transaction)
    requires WellFormed(l) && trx.ClawbackTx? && trx.sender in l && Due(l, trx.receiver, trx.nonce)
    requires trx.token.Id() in l[trx.sender].store
    ensures AppendBoth(l, trx.sender, trx.receiver, trx).1 ==
            if trx.sender == trx.receiver then Failed(TokenMissing)
            else if trx.token.Id() in l[trx.receiver].store then Failed(TokenExists)
            else Done
  {
  }

  lemma FlagAnswered(l: Ledger, req: Request, txId: TxId)
    requires WellFormed(l) && (req.FreezeToken? || req.UnfreezeToken?)
    ensures Execute(l, req, txId).1 == Answered(l, req)
  {
    if req.holder in l { EntryTest(l[req.holder].store, req.tokenId); }
    if req.FreezeToken? { FreezeAnswered(l, req, txId); } else { UnfreezeAnswered(l, req, txId); }
  }

  lemma FreezeAnswered(l: Ledger, req: Request, txId: TxId)
    requires WellFormed(l) && req.FreezeToken?
    requires req.holder in l ==> (l[req.holder].Owns(req.tokenId) <==> HoldsReal(l, req.holder, req.tokenId))
    ensures ExecuteFreeze(l, req, txId).1 == Answered(l, req)
  {
  }

  lemma UnfreezeAnswered(l: Ledger, req: Request, txId: TxId)
    requires WellFormed(l) && req.UnfreezeToken?
    requires req.holder in l ==> (l[req.holder].Owns(req.tokenId) <==> HoldsReal(l, req.holder, req.tokenId))
    ensures ExecuteUnfreeze(l, req, txId).1 == Answered(l, req)
  {
  }

  // When it succeeds.

  predicate Succeeds(l: Ledger, req: Request) {
    match req
    case CreateAccount(x, _) => x !in l
    case Mint(to, _) => to in l
    case Transfer(from, to, amount, nonce) =>
      Due(l, from, nonce) && to in l && from != to && amount <= Free(l, from)
    case MintToken(_, signature, _, _, nonce) =>
      var signer := Parse(signature.signerId);
      && signer.Some? && Due(l, signer.value, nonce)
      && Encode(signature.value) !in l[signer.value].store && 1.0 <= Free(l, signer.value)
    case AuthorizeTokenTransfer(a, owner, t, nonce) =>
      && Due(l, a, nonce) && a != owner && HoldsReal(l, owner, t) && !HoldsReal(l, a, t)
      && (Awaits(l, a, t) || 0.5 <= Free(l, a))
    case UnauthorizeTokenTransfer(a, owner, t, nonce) =>
      Due(l, a, nonce) && a != owner && HoldsReal(l, owner, t) && Awaits(l, a, t)
    case TransferToken(from, to, t, nonce) =>
      && Due(l, from, nonce) && from != to && HoldsReal(l, from, t) && Awaits(l, to, t)
      && !l[from].store[t].frozen
    case BurnToken(a, t, nonce) =>
      Due(l, a, nonce) && HoldsReal(l, a, t) && Parse(l[a].store[t].signature.signerId) == Some(a)
    case ClawbackToken(from, to, t, nonce) =>
      && Due(l, to, nonce) && from != to && HoldsReal(l, from, t) && t !in l[to].store
      && l[from].store[t].clawback == Some(to)
    case FreezeToken(authority, holder, t, nonce) =>
      && Due(l, authority, nonce) && authority != holder && HoldsReal(l, holder, t)
      && l[holder].store[t].freeze == Some(authority) && !l[holder].store[t].frozen
      && 0.1 <= Free(l, authority)
    case UnfreezeToken(authority, holder, t, nonce) =>
      && Due(l, authority, nonce) && authority != holder && HoldsReal(l, holder, t)
      && l[holder].store[t].freeze == Some(authority) && l[holder].store[t].frozen
  }

  /** A request succeeds exactly when these conditions hold, whatever the handlers' order of checks. */
  lemma SucceedsExactly(l: Ledger, req: Request, txId: TxId)
    requires WellFormed(l)
    ensures Execute(l, req, txId).1.Succeeded() <==> Succeeds(l, req)
  {
    AnswersExactly(l, req, txId);
    AnsweredWell(l, req);
  }

  lemma AnsweredWell(l: Ledger, req: Request)
    ensures Answered(l, req).Succeeded() <==> Succeeds(l, req)
  {
  }

  predicate Posts(l: Ledger, req: Request, txId: TxId) {
    ChangeOf(l, req, txId).Posting?
  }

  // What a request does.

  /** The account with these amounts added, this store, and one block more. */
  function Moved(
    a: AccountState, balance: real, mbr: real, nonce: int, store: map<TokenId, Token>, trx: Transaction): AccountState
  {
    AccountState(a.id, a.balance + balance, a.mbr + mbr, a.nonce + nonce, store, a.chain + [trx])
  }

  /** The account with one block more and nothing else. */
  function Noted(a: AccountState, trx: Transaction): AccountState {
    Moved(a, 0.0, 0.0, 0, a.store, trx)
  }

  function Result(l: Ledger, req: Request, txId: TxId): Ledger
    requires Succeeds(l, req)
  {
    match req
    case CreateAccount(x, initial) =>
      l[x := if initial > 0.0 then AccountState(x, initial, 0.0, 0, map[], [MintTx(txId, x, initial)])
             else AccountState(x, 0.0, 0.0, 0, map[], [])]
    case Mint(to, amount) => l[to := Moved(l[to], amount, 0.0, 0, l[to].store, MintTx(txId, to, amount))]
    case Transfer(from, to, amount, _) =>
      var trx := TransferTx(txId, from, to, amount);
      l[from := Moved(l[from], -amount, 0.0, 1, l[from].store, trx)]
       [to := Moved(l[to], amount, 0.0, 0, l[to].store, trx)]
    case MintToken(value, signature, clawback, freeze, nonce) =>
      var x := Parse(signature.signerId).value;
      var token := Token(value, signature, clawback, freeze, nonce, false);
      var store := l[x].store[Encode(signature.value) := token];
      l[x := Moved(l[x], 0.0, 1.0, 1, store, MintTokenTx(txId, x, token))]
    case AuthorizeTokenTransfer(a, owner, t, nonce) =>
      var trx := AuthorizeTx(txId, a, owner, t, nonce);
      var locked := if Awaits(l, a, t) then 0.0 else 0.5;
      l[a := Moved(l[a], 0.0, locked, 1, l[a].store[t := EMPTY], trx)][owner := Noted(l[owner], trx)]
    case UnauthorizeTokenTransfer(a, owner, t, nonce) =>
      var trx := UnauthorizeTx(txId, a, owner, t, nonce);
      l[a := Moved(l[a], 0.0, -0.5, 1, l[a].store - {t}, trx)][owner := Noted(l[owner], trx)]
    case TransferToken(from, to, t, nonce) =>
      var token := l[from].store[t];
      var trx := TransferTokenTx(txId, from, to, token, nonce);
      l[from := Moved(l[from], 0.0, 0.0, 1, l[from].store - {t}, trx)]
       [to := Moved(l[to], 0.0, -0.5, 0, l[to].store[t := token], trx)]
    case BurnToken(a, t, nonce) =>
      l[a := Moved(l[a], 0.0, -1.0, 1, l[a].store - {t}, BurnTokenTx(txId, a, t, nonce))]
    case ClawbackToken(from, to, t, nonce) =>
      var token := l[from].store[t];
      var trx := ClawbackTx(txId, from, to, token, nonce);
      l[from := Moved(l[from], 0.0, 0.0, 0, l[from].store - {t}, trx)]
       [to := Moved(l[to], 0.0, 0.0, 1, l[to].store[t := token], trx)]
    case FreezeToken(authority, holder, t, nonce) =>
      var trx := FreezeTx(txId, authority, holder, t, nonce);
      l[authority := Moved(l[authority], 0.0, 0.1, 1, l[authority].store, trx)]
       [holder := Moved(l[holder], 0.0, 0.0, 0, l[holder].store[t := l[holder].store[t].(frozen := true)], trx)]
    case UnfreezeToken(authority, holder, t, nonce) =>
      var trx := UnfreezeTx(txId, authority, holder, t, nonce);
      l[authority := Moved(l[authority], 0.0, -0.1, 1, l[authority].store, trx)]
       [holder := Moved(l[holder], 0.0, 0.0, 0, l[holder].store[t := l[holder].store[t].(frozen := false)], trx)]
  }

  /** An authorisation of what already has a placeholder, naming itself or somebody who does not hold it. */
  predicate Repeats(l: Ledger, req: Request) {
    && req.AuthorizeTokenTransfer? && Due(l, req.account, req.nonce) && req.owner in l
    && Awaits(l, req.account, req.tokenId)
    && (req.owner == req.account || !HoldsReal(l, req.owner, req.tokenId))
  }

  function WithoutPlaceholder(a: AccountState, t: TokenId): AccountState {
    AccountState(a.id, a.balance, a.mbr - 0.5, a.nonce, a.store - {t}, a.chain)
  }

  /** The whole of what any request does, and how it is answered. */
  lemma ExecutesExactly(l: Ledger, req: Request, txId: TxId)
    requires WellFormed(l)
    ensures Execute(l, req, txId).0 ==
            if Succeeds(l, req) then Result(l, req, txId)
            else if Repeats(l, req) then l[req.account := WithoutPlaceholder(l[req.account], req.tokenId)]
            else l
    ensures Execute(l, req, txId).1 == Answered(l, req)
  {
    AnswersExactly(l, req, txId);
    SucceedsExactly(l, req, txId);
    if Succeeds(l, req) {
      ResultExactly(l, req, txId);
    } else {
      FailureLeavesNoTrace(l, req, txId);
      RepeatsExactly(l, req);
    }
  }

  lemma RepeatsExactly(l: Ledger, req: Request)
    requires WellFormed(l)
    ensures Repeats(l, req) <==> RepeatsAuthorization(l, req)
  {
    if req.AuthorizeTokenTransfer? {
      if req.account in l { EntryTest(l[req.account].store, req.tokenId); }
      if req.owner in l { EntryTest(l[req.owner].store, req.tokenId); }
    }
  }

  lemma ResultExactly(l: Ledger, req: Request, txId: TxId)
    requires WellFormed(l) && Succeeds(l, req) && Execute(l, req, txId).1.Succeeded()
    ensures Execute(l, req, txId).0 == Result(l, req, txId)
  {
    ExecuteIsOneChange(l, req, txId);
    match req
    case CreateAccount(x, initial) => assert [] + [MintTx(txId, x, initial)] == [MintTx(txId, x, initial)];
    case Mint(_, _) =>
    case Transfer(_, _, _, _) => TwoPartyResult(l, req, txId);
    case MintToken(_, _, _, _, _) => OnePartyResult(l, req, txId);
    case AuthorizeTokenTransfer(_, _, _, _) => AuthorizationResult(l, req, txId);
    case UnauthorizeTokenTransfer(_, _, _, _) => TwoPartyResult(l, req, txId);
    case BurnToken(_, _, _) => OnePartyResult(l, req, txId);
    case TransferToken(_, _, _, _) => MoveResult(l, req, txId);
    case ClawbackToken(_, _, _, _) => MoveResult(l, req, txId);
    case FreezeToken(_, _, _, _) => FlagResult(l, req, txId);
    case UnfreezeToken(_, _, _, _) => FlagResult(l, req, txId);
  }

  lemma OnePartyResult(l: Ledger, req: Request, txId: TxId)
    requires WellFormed(l) && Succeeds(l, req) && (req.MintToken? || req.BurnToken?) && Posts(l, req, txId)
    ensures PostAll(l, ChangeOf(l, req, txId).trx) == Result(l, req, txId)
  {
  }

  lemma TwoPartyResult(l: Ledger, req: Request, txId: TxId)
    requires WellFormed(l) && Succeeds(l, req) && Posts(l, req, txId)
    requires req.Transfer? || req.UnauthorizeTokenTransfer?
    ensures PostAll(l, ChangeOf(l, req, txId).trx) == Result(l, req, txId)
  {
  }

  lemma FlagResult(l: Ledger, req: Request, txId: TxId)
    requires WellFormed(l) && Succeeds(l, req) && (req.FreezeToken? || req.UnfreezeToken?) && Posts(l, req, txId)
    ensures PostAll(l, ChangeOf(l, req, txId).trx) == Result(l, req, txId)
  {
    FlagPosted(l, req, txId, ChangeOf(l, req, txId).trx);
  }

  lemma FlagPosted(l: Ledger, req: Request, txId: TxId, trx: Transaction)
    requires WellFormed(l) && Succeeds(l, req) && (req.FreezeToken? || req.UnfreezeToken?) && Accepted(l, trx)
    requires trx == if req.FreezeToken? then FreezeTx(txId, req.authority, req.holder, req.tokenId, req.nonce)
                    else UnfreezeTx(txId, req.authority, req.holder, req.tokenId, req.nonce)
    ensures PostAll(l, trx) == Result(l, req, txId)
  {
  }

  lemma AuthorizationResult(l: Ledger, req: Request, txId: TxId)
    requires WellFormed(l) && Succeeds(l, req) && req.AuthorizeTokenTransfer? && Posts(l, req, txId)
    ensures PostAll(l, ChangeOf(l, req, txId).trx) == Result(l, req, txId)
  {
    var a := l[req.account];
    EntryTest(a.store, req.tokenId);
    if Awaits(l, req.account, req.tokenId) { assert a.store[req.tokenId := EMPTY] == a.store; }
  }

  lemma MoveResult(l: Ledger, req: Request, txId: TxId)
    requires WellFormed(l) && Succeeds(l, req) && (req.TransferToken? || req.ClawbackToken?) && Posts(l, req, txId)
    ensures PostAll(l, ChangeOf(l, req, txId).trx) == Result(l, req, txId)
  {
    MovePosted(l, req, txId, ChangeOf(l, req, txId).trx);
  }

  lemma MovePosted(l: Ledger, req: Request, txId: TxId, trx: Transaction)
    requires WellFormed(l) && Succeeds(l, req) && (req.TransferToken? || req.ClawbackToken?) && Accepted(l, trx)
    requires var token := l[req.from].store[req.tokenId];
             trx == if req.TransferToken? then TransferTokenTx(txId, req.from, req.to, token, req.nonce)
                    else ClawbackTx(txId, req.from, req.to, token, req.nonce)
    ensures PostAll(l, trx) == Result(l, req, txId)
  {
    EntryTest(l[req.from].store, req.tokenId);
  }

  // Why a request is refused.

  /** Everything else in order, but what the request takes or locks is not free. */
  predicate ShortOfFunds(l: Ledger, req: Request) {
    match req
    case Transfer(from, to, amount, nonce) =>
      Due(l, from, nonce) && to in l && from != to && Free(l, from) < amount
    case MintToken(_, signature, _, _, nonce) =>
      var signer := Parse(signature.signerId);
      && signer.Some? && Due(l, signer.value, nonce)
      && Encode(signature.value) !in l[signer.value].store && Free(l, signer.value) < 1.0
    case AuthorizeTokenTransfer(a, owner, t, nonce) =>
      Due(l, a, nonce) && owner in l && t !in l[a].store && Free(l, a) < 0.5
    case FreezeToken(authority, holder, t, nonce) =>
      && Due(l, authority, nonce) && HoldsReal(l, holder, t)
      && l[holder].store[t].freeze == Some(authority) && Free(l, authority) < 0.1
    case _ => false
  }

  /** Below 1.0 free for a token mint, 0.5 for a fresh slot, 0.1 for a freeze, the amount for a transfer. */
  lemma RefusedForFundsExactly(l: Ledger, req: Request, txId: TxId)
    requires WellFormed(l)
    ensures Execute(l, req, txId).1 == Failed(InsufficientBalance) <==> ShortOfFunds(l, req)
  {
    AnswersExactly(l, req, txId);
    AnsweredShort(l, req);
  }

  lemma AnsweredShort(l: Ledger, req: Request)
    ensures Answered(l, req) == Failed(InsufficientBalance) <==> ShortOfFunds(l, req)
  {
  }

  /** An unknown account is noticed before anything else. */
  lemma RefusedAsUnknownExactly(l: Ledger, req: Request, txId: TxId)
    requires WellFormed(l)
    ensures Execute(l, req, txId).1 == Failed(AccountMissing) <==>
            !req.CreateAccount? && exists x :: x in Named(req) && x !in l
  {
    AnswersExactly(l, req, txId);
  }
}
