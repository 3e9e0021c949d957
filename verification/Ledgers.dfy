/** The ledger as a value: every account, every request the application serves, and what each
    request does (internal/scalegraph/app.go). The class in Apps.dfy is proved against Execute. */
module Ledgers {
  import opened Wrappers
  import opened Ids
  import opened Tokens
  import opened Transactions
  import opened AccountSpec

  type Ledger = map<ScalegraphId, AccountState>

  datatype Request =
    | CreateAccount(account: ScalegraphId, initialBalance: real)
    | Mint(to: ScalegraphId, amount: real)
    | Transfer(from: ScalegraphId, to: ScalegraphId, amount: real, nonce: int)
    | MintToken(
        value: string, signature: Signature, clawback: Option<ScalegraphId>, freeze: Option<ScalegraphId>, nonce: int)
    | AuthorizeTokenTransfer(account: ScalegraphId, owner: ScalegraphId, tokenId: TokenId, nonce: int)
    | UnauthorizeTokenTransfer(account: ScalegraphId, owner: ScalegraphId, tokenId: TokenId, nonce: int)
    | TransferToken(from: ScalegraphId, to: ScalegraphId, tokenId: TokenId, nonce: int)
    | BurnToken(account: ScalegraphId, tokenId: TokenId, nonce: int)
    | ClawbackToken(from: ScalegraphId, to: ScalegraphId, tokenId: TokenId, nonce: int)
    | FreezeToken(authority: ScalegraphId, holder: ScalegraphId, tokenId: TokenId, nonce: int)
    | UnfreezeToken(authority: ScalegraphId, holder: ScalegraphId, tokenId: TokenId, nonce: int)

  /** Panicked: the program dereferences the nil clawback address of a token that has none. */
  datatype Outcome = Done | DoneMint(tokenId: TokenId) | Failed(error: Error) | Panicked {
    predicate Succeeded() {
      Done? || DoneMint?
    }
  }

  // What the application does, request by request.

  /** Appends to one account; a refusal fails the request. */
  function AppendOne(l: Ledger, x: ScalegraphId, trx: Transaction): (Ledger, Outcome)
    requires x in l
  {
    var (a, err) := Append(l[x], trx);
    if err.Some? then (l, Failed(err.value)) else (l[x := a], Done)
  }

  /** Appends to the first account, then to the second; if the second refuses, the first is rolled
      back. The transfer of funds is the one request that has no rollback. */
  function AppendBoth(l: Ledger, first: ScalegraphId, second: ScalegraphId, trx: Transaction): (Ledger, Outcome)
    requires first in l && second in l
  {
    var (l1, outcome) := AppendOne(l, first, trx);
    if outcome.Done? then AppendSecond(l1, first, second, trx) else (l1, outcome)
  }

  function AppendSecond(l: Ledger, first: ScalegraphId, second: ScalegraphId, trx: Transaction): (Ledger, Outcome)
    requires first in l && second in l
  {
    var (l1, outcome) := AppendOne(l, second, trx);
    (if outcome.Failed? && !trx.TransferTx? then l1[first := RollbackLatest(l1[first], trx).0] else l1, outcome)
  }

  function ExecuteCreateAccount(l: Ledger, req: Request, txId: TxId): (Ledger, Outcome)
    requires req.CreateAccount?
  {
    if req.account in l then (l, Failed(AccountExists))
    else
      var l1 := l[req.account := NewAccount(req.account)];
      if req.initialBalance > 0.0 then ExecuteMint(l1, Mint(req.account, req.initialBalance), txId) else (l1, Done)
  }

  function ExecuteMint(l: Ledger, req: Request, txId: TxId): (Ledger, Outcome)
    requires req.Mint?
  {
    if req.to !in l then (l, Failed(AccountMissing))
    else (l[req.to := Append(l[req.to], MintTx(txId, req.to, req.amount)).0], Done)
  }

  function ExecuteTransfer(l: Ledger, req: Request, txId: TxId): (Ledger, Outcome)
    requires req.Transfer?
  {
    if req.from !in l || req.to !in l then (l, Failed(AccountMissing))
    else if req.from == req.to then (l, Failed(SelfTransfer))
    else if req.nonce != l[req.from].nonce then (l, Failed(NonceMismatch))
    else AppendBoth(l, req.from, req.to, TransferTx(txId, req.from, req.to, req.amount))
  }

  function MintedToken(req: Request): Token
    requires req.MintToken?
  {
    Token(req.value, req.signature, req.clawback, req.freeze, req.nonce, false)
  }

  function ExecuteMintToken(l: Ledger, req: Request, txId: TxId): (Ledger, Outcome)
    requires req.MintToken?
  {
    match Parse(req.signature.signerId)
    case None => (l, Failed(InvalidSigner))
    case Some(signer) =>
      if signer !in l then (l, Failed(AccountMissing))
      else if req.nonce != l[signer].nonce then (l, Failed(NonceMismatch))
      else
        var (l1, outcome) := AppendOne(l, signer, MintTokenTx(txId, signer, MintedToken(req)));
        (l1, if outcome.Done? then DoneMint(MintedToken(req).Id()) else outcome)
  }

  function ExecuteAuthorize(l: Ledger, req: Request, txId: TxId): (Ledger, Outcome)
    requires req.AuthorizeTokenTransfer?
  {
    if req.account !in l || req.owner !in l then (l, Failed(AccountMissing))
    else if req.nonce != l[req.account].nonce then (l, Failed(NonceMismatch))
    else AppendBoth(l, req.account, req.owner, AuthorizeTx(txId, req.account, req.owner, req.tokenId, req.nonce))
  }

  function ExecuteUnauthorize(l: Ledger, req: Request, txId: TxId): (Ledger, Outcome)
    requires req.UnauthorizeTokenTransfer?
  {
    if req.account !in l || req.owner !in l then (l, Failed(AccountMissing))
    else if req.nonce != l[req.account].nonce then (l, Failed(NonceMismatch))
    else AppendBoth(l, req.account, req.owner, UnauthorizeTx(txId, req.account, req.owner, req.tokenId, req.nonce))
  }

  function ExecuteTransferToken(l: Ledger, req: Request, txId: TxId): (Ledger, Outcome)
    requires req.TransferToken?
  {
    if req.from !in l || req.to !in l then (l, Failed(AccountMissing))
    else if !l[req.from].Owns(req.tokenId) then (l, Failed(TokenMissing))
    else if req.nonce != l[req.from].nonce then (l, Failed(NonceMismatch))
    else
      AppendBoth(l, req.from, req.to,
                 TransferTokenTx(txId, req.from, req.to, l[req.from].store[req.tokenId], req.nonce))
  }

  function ExecuteBurnToken(l: Ledger, req: Request, txId: TxId): (Ledger, Outcome)
    requires req.BurnToken?
  {
    if req.account !in l then (l, Failed(AccountMissing))
    else if req.nonce != l[req.account].nonce then (l, Failed(NonceMismatch))
    else AppendOne(l, req.account, BurnTokenTx(txId, req.account, req.tokenId, req.nonce))
  }

  function ExecuteClawback(l: Ledger, req: Request, txId: TxId): (Ledger, Outcome)
    requires req.ClawbackToken?
  {
    if req.from !in l || req.to !in l then (l, Failed(AccountMissing))
    else if !l[req.from].Owns(req.tokenId) then (l, Failed(TokenMissing))
    else
      var token := l[req.from].store[req.tokenId];
      if token.clawback.None? then (l, Panicked)
      else if token.clawback.value != req.to then (l, Failed(ClawbackMismatch))
      else if req.nonce != l[req.to].nonce then (l, Failed(NonceMismatch))
      else AppendBoth(l, req.from, req.to, ClawbackTx(txId, req.from, req.to, token, req.nonce))
  }

  function ExecuteFreeze(l: Ledger, req: Request, txId: TxId): (Ledger, Outcome)
    requires req.FreezeToken?
  {
    if req.authority !in l || req.holder !in l then (l, Failed(AccountMissing))
    else if !l[req.holder].Owns(req.tokenId) then (l, Failed(TokenMissing))
    else if l[req.holder].store[req.tokenId].freeze != Some(req.authority) then (l, Failed(NotFreezeAuthority))
    else if req.nonce != l[req.authority].nonce then (l, Failed(NonceMismatch))
    else AppendBoth(l, req.authority, req.holder, FreezeTx(txId, req.authority, req.holder, req.tokenId, req.nonce))
  }

  function ExecuteUnfreeze(l: Ledger, req: Request, txId: TxId): (Ledger, Outcome)
    requires req.UnfreezeToken?
  {
    if req.authority !in l || req.holder !in l then (l, Failed(AccountMissing))
    else if !l[req.holder].Owns(req.tokenId) then (l, Failed(TokenMissing))
    else if l[req.holder].store[req.tokenId].freeze != Some(req.authority) then (l, Failed(NotFreezeAuthority))
    else if req.nonce != l[req.authority].nonce then (l, Failed(NonceMismatch))
    else AppendBoth(l, req.authority, req.holder, UnfreezeTx(txId, req.authority, req.holder, req.tokenId, req.nonce))
  }

  function Execute(l: Ledger, req: Request, txId: TxId): (Ledger, Outcome) {
    match req
    case CreateAccount(_, _) => ExecuteCreateAccount(l, req, txId)
    case Mint(_, _) => ExecuteMint(l, req, txId)
    case Transfer(_, _, _, _) => ExecuteTransfer(l, req, txId)
    case MintToken(_, _, _, _, _) => ExecuteMintToken(l, req, txId)
    case AuthorizeTokenTransfer(_, _, _, _) => ExecuteAuthorize(l, req, txId)
    case UnauthorizeTokenTransfer(_, _, _, _) => ExecuteUnauthorize(l, req, txId)
    case TransferToken(_, _, _, _) => ExecuteTransferToken(l, req, txId)
    case BurnToken(_, _, _) => ExecuteBurnToken(l, req, txId)
    case ClawbackToken(_, _, _, _) => ExecuteClawback(l, req, txId)
    case FreezeToken(_, _, _, _) => ExecuteFreeze(l, req, txId)
    case UnfreezeToken(_, _, _, _) => ExecuteUnfreeze(l, req, txId)
  }

  /** Any finite history of requests, from the empty ledger. */
  datatype Run = Start | Then(before: Run, request: Request, txId: TxId)

  function After(run: Run): Ledger {
    match run
    case Start => map[]
    case Then(before, request, txId) => Execute(After(before), request, txId).0
  }

  function OutcomeOf(run: Run): Outcome
    requires run.Then?
  {
    Execute(After(run.before), run.request, run.txId).1
  }

  /** The later run goes on from the earlier one. */
  predicate Extends(later: Run, earlier: Run) {
    later == earlier || (later.Then? && Extends(later.before, earlier))
  }
}
