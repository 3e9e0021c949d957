/** The application object: it owns the accounts and drives each request over one or two of them,
    undoing the first when the second refuses (internal/scalegraph/app.go). */
module Apps {
  import opened Wrappers
  import opened Ids
  import opened Tokens
  import opened Transactions
  import opened AccountSpec
  import opened Accounts
  import opened Ledgers

  class App {
    var accounts: map<ScalegraphId, Account>

    ghost var repr: set<object>

    /** Every account under its own identifier, no chain shared. */
    ghost predicate Valid()
      reads this, repr
    {
      && this !in repr
      && (forall x | x in accounts ::
            && accounts[x] in repr && accounts[x].blockchain in repr
            && accounts[x].id == x && accounts[x].Valid())
      && (forall x, y | x in accounts && y in accounts && x != y :: accounts[x].blockchain != accounts[y].blockchain)
    }

    /** The abstract ledger. */
    ghost function Ledger(): Ledger
      requires Valid()
      reads this, repr
    {
      map x | x in accounts :: accounts[x].State()
    }

    constructor ()
      ensures Valid() && fresh(repr) && Ledger() == map[]
    {
      accounts := map[];
      repr := {};
    }

    // Steps on one account or on two.

    lemma OneAccountChanged(l: Ledger, x: ScalegraphId)
      requires Valid() && x in accounts && l.Keys + {x} == accounts.Keys
      requires forall y | y in accounts && y != x :: accounts[y].State() == l[y]
      ensures Ledger() == l[x := accounts[x].State()]
    {
    }

    method Post(x: ScalegraphId, trx: Transaction) returns (outcome: Outcome)
      requires Valid() && x in accounts
      modifies repr
      ensures Valid()
      ensures (Ledger(), outcome) == AppendOne(old(Ledger()), x, trx)
    {
      ghost var l := Ledger();
      var err := PostBlock(x, trx);
      if err.Some? {
        assert l[x := l[x]] == l;
        return Failed(err.value);
      }
      return Done;
    }

    method PostBlock(x: ScalegraphId, trx: Transaction) returns (err: Option<Error>)
      requires Valid() && x in accounts
      modifies repr
      ensures Valid()
      ensures err == Append(old(Ledger())[x], trx).1
      ensures Ledger() == old(Ledger())[x := Append(old(Ledger())[x], trx).0]
    {
      ghost var l := Ledger();
      err := accounts[x].AppendTransaction(trx);
      forall y | y in accounts && y != x
        ensures accounts[y].Valid() && accounts[y].State() == l[y]
      {
        assert accounts[y].id != accounts[x].id;
      }
      OneAccountChanged(l, x);
    }

    method Rollback(x: ScalegraphId, trx: Transaction)
      requires Valid() && x in accounts
      modifies repr
      ensures Valid()
      ensures Ledger() == old(Ledger())[x := RollbackLatest(old(Ledger())[x], trx).0]
    {
      ghost var l := Ledger();
      var _ := accounts[x].RollbackLatestTransaction(trx);
      forall y | y in accounts && y != x
        ensures accounts[y].Valid() && accounts[y].State() == l[y]
      {
        assert accounts[y].id != accounts[x].id;
      }
      OneAccountChanged(l, x);
    }

    /** Posts to both parties; a refusal by the second rolls the first back, except for a transfer of funds. */
    method PostBoth(first: ScalegraphId, second: ScalegraphId, trx: Transaction) returns (outcome: Outcome)
      requires Valid() && first in accounts && second in accounts
      modifies repr
      ensures Valid()
      ensures (Ledger(), outcome) == AppendBoth(old(Ledger()), first, second, trx)
    {
      outcome := Post(first, trx);
      if outcome.Done? {
        outcome := PostSecond(first, second, trx);
      }
    }

    method PostSecond(first: ScalegraphId, second: ScalegraphId, trx: Transaction) returns (outcome: Outcome)
      requires Valid() && first in accounts && second in accounts
      modifies repr
      ensures Valid()
      ensures (Ledger(), outcome) == AppendSecond(old(Ledger()), first, second, trx)
    {
      outcome := Post(second, trx);
      if outcome.Failed? && !trx.TransferTx? {
        Rollback(first, trx);
      }
    }

    method NonceOf(x: ScalegraphId) returns (n: int)
      requires Valid() && x in accounts
      ensures n == Ledger()[x].nonce
    {
      n := accounts[x].GetNonce();
    }

    method TokenOf(x: ScalegraphId, t: TokenId) returns (token: Option<Token>)
      requires Valid() && x in accounts
      ensures token == if Ledger()[x].Owns(t) then Some(Ledger()[x].store[t]) else None
    {
      token := accounts[x].GetToken(t);
    }

    // The requests.

    method CreateAccountWithKeys(req: Request, txId: TxId) returns (outcome: Outcome)
      requires Valid() && req.CreateAccount?
      modifies this, repr
      ensures Valid() && fresh(repr - old(repr))
      ensures (Ledger(), outcome) == ExecuteCreateAccount(old(Ledger()), req, txId)
    {
      if req.account in accounts {
        return Failed(AccountExists);
      }
      Open(req.account);
      if req.initialBalance > 0.0 {
        outcome := MintFunds(Mint(req.account, req.initialBalance), txId);
        return;
      }
      return Done;
    }

    method Open(x: ScalegraphId)
      requires Valid() && x !in accounts
      modifies this
      ensures Valid() && fresh(repr - old(repr))
      ensures Ledger() == old(Ledger())[x := NewAccount(x)]
    {
      ghost var l := Ledger();
      var account := new Account(x);
      accounts := accounts[x := account];
      repr := repr + {account, account.blockchain};
      forall y | y in accounts && y != x
        ensures accounts[y].Valid() && accounts[y].State() == l[y]
      {
      }
      OneAccountChanged(l, x);
    }

    method MintFunds(req: Request, txId: TxId) returns (outcome: Outcome)
      requires Valid() && req.Mint?
      modifies repr
      ensures Valid()
      ensures (Ledger(), outcome) == ExecuteMint(old(Ledger()), req, txId)
    {
      if req.to !in accounts {
        return Failed(AccountMissing);
      }
      var _ := PostBlock(req.to, MintTx(txId, req.to, req.amount));
      return Done;
    }

    method TransferFunds(req: Request, txId: TxId) returns (outcome: Outcome)
      requires Valid() && req.Transfer?
      modifies repr
      ensures Valid()
      ensures (Ledger(), outcome) == ExecuteTransfer(old(Ledger()), req, txId)
    {
      if req.from !in accounts || req.to !in accounts {
        return Failed(AccountMissing);
      }
      if req.from == req.to {
        return Failed(SelfTransfer);
      }
      var expected := NonceOf(req.from);
      if req.nonce != expected {
        return Failed(NonceMismatch);
      }
      outcome := PostBoth(req.from, req.to, TransferTx(txId, req.from, req.to, req.amount));
    }

    method MintNewToken(req: Request, txId: TxId) returns (outcome: Outcome)
      requires Valid() && req.MintToken?
      modifies repr
      ensures Valid()
      ensures (Ledger(), outcome) == ExecuteMintToken(old(Ledger()), req, txId)
    {
      var signer := Parse(req.signature.signerId);
      if signer.None? {
        return Failed(InvalidSigner);
      }
      if signer.value !in accounts {
        return Failed(AccountMissing);
      }
      var expected := NonceOf(signer.value);
      if req.nonce != expected {
        return Failed(NonceMismatch);
      }
      var token := Token(req.value, req.signature, req.clawback, req.freeze, req.nonce, false);
      outcome := Post(signer.value, MintTokenTx(txId, signer.value, token));
      if outcome.Done? {
        outcome := DoneMint(token.Id());
      }
    }

    method AuthorizeTransferOfToken(req: Request, txId: TxId) returns (outcome: Outcome)
      requires Valid() && req.AuthorizeTokenTransfer?
      modifies repr
      ensures Valid()
      ensures (Ledger(), outcome) == ExecuteAuthorize(old(Ledger()), req, txId)
    {
      if req.account !in accounts || req.owner !in accounts {
        return Failed(AccountMissing);
      }
      var expected := NonceOf(req.account);
      if req.nonce != expected {
        return Failed(NonceMismatch);
      }
      outcome := PostBoth(req.account, req.owner, AuthorizeTx(txId, req.account, req.owner, req.tokenId, req.nonce));
    }

    method UnauthorizeTransferOfToken(req: Request, txId: TxId) returns (outcome: Outcome)
      requires Valid() && req.UnauthorizeTokenTransfer?
      modifies repr
      ensures Valid()
      ensures (Ledger(), outcome) == ExecuteUnauthorize(old(Ledger()), req, txId)
    {
      if req.account !in accounts || req.owner !in accounts {
        return Failed(AccountMissing);
      }
      var expected := NonceOf(req.account);
      if req.nonce != expected {
        return Failed(NonceMismatch);
      }
      outcome := PostBoth(req.account, req.owner, UnauthorizeTx(txId, req.account, req.owner, req.tokenId, req.nonce));
    }

    method TransferHeldToken(req: Request, txId: TxId) returns (outcome: Outcome)
      requires Valid() && req.TransferToken?
      modifies repr
      ensures Valid()
      ensures (Ledger(), outcome) == ExecuteTransferToken(old(Ledger()), req, txId)
    {
      if req.from !in accounts || req.to !in accounts {
        return Failed(AccountMissing);
      }
      var token := TokenOf(req.from, req.tokenId);
      if token.None? {
        return Failed(TokenMissing);
      }
      var expected := NonceOf(req.from);
      if req.nonce != expected {
        return Failed(NonceMismatch);
      }
      outcome := PostBoth(req.from, req.to, TransferTokenTx(txId, req.from, req.to, token.value, req.nonce));
    }

    method BurnHeldToken(req: Request, txId: TxId) returns (outcome: Outcome)
      requires Valid() && req.BurnToken?
      modifies repr
      ensures Valid()
      ensures (Ledger(), outcome) == ExecuteBurnToken(old(Ledger()), req, txId)
    {
      if req.account !in accounts {
        return Failed(AccountMissing);
      }
      var expected := NonceOf(req.account);
      if req.nonce != expected {
        return Failed(NonceMismatch);
      }
      outcome := Post(req.account, BurnTokenTx(txId, req.account, req.tokenId, req.nonce));
    }

    method ClawbackHeldToken(req: Request, txId: TxId) returns (outcome: Outcome)
      requires Valid() && req.ClawbackToken?
      modifies repr
      ensures Valid()
      ensures (Ledger(), outcome) == ExecuteClawback(old(Ledger()), req, txId)
    {
      if req.from !in accounts || req.to !in accounts {
        return Failed(AccountMissing);
      }
      var token := TokenOf(req.from, req.tokenId);
      if token.None? {
        return Failed(TokenMissing);
      }
      if token.value.clawback.None? {
        return Panicked;
      }
      FormatInjective(token.value.clawback.value, req.to);
      if Format(token.value.clawback.value) != Format(req.to) {
        return Failed(ClawbackMismatch);
      }
      var expected := NonceOf(req.to);
      if req.nonce != expected {
        return Failed(NonceMismatch);
      }
      outcome := PostBoth(req.from, req.to, ClawbackTx(txId, req.from, req.to, token.value, req.nonce));
    }

    method FreezeHeldToken(req: Request, txId: TxId) returns (outcome: Outcome)
      requires Valid() && req.FreezeToken?
      modifies repr
      ensures Valid()
      ensures (Ledger(), outcome) == ExecuteFreeze(old(Ledger()), req, txId)
    {
      if req.authority !in accounts || req.holder !in accounts {
        return Failed(AccountMissing);
      }
      var token := TokenOf(req.holder, req.tokenId);
      if token.None? {
        return Failed(TokenMissing);
      }
      if !IsFreezeAuthority(token.value, req.authority) {
        return Failed(NotFreezeAuthority);
      }
      var expected := NonceOf(req.authority);
      if req.nonce != expected {
        return Failed(NonceMismatch);
      }
      outcome := PostBoth(req.authority, req.holder, FreezeTx(txId, req.authority, req.holder, req.tokenId, req.nonce));
    }

    method UnfreezeHeldToken(req: Request, txId: TxId) returns (outcome: Outcome)
      requires Valid() && req.UnfreezeToken?
      modifies repr
      ensures Valid()
      ensures (Ledger(), outcome) == ExecuteUnfreeze(old(Ledger()), req, txId)
    {
      if req.authority !in accounts || req.holder !in accounts {
        return Failed(AccountMissing);
      }
      var token := TokenOf(req.holder, req.tokenId);
      if token.None? {
        return Failed(TokenMissing);
      }
      if !IsFreezeAuthority(token.value, req.authority) {
        return Failed(NotFreezeAuthority);
      }
      var expected := NonceOf(req.authority);
      if req.nonce != expected {
        return Failed(NonceMismatch);
      }
      outcome := PostBoth(req.authority, req.holder,
                          UnfreezeTx(txId, req.authority, req.holder, req.tokenId, req.nonce));
    }
  }

  /** The source compares printed addresses; that is comparing addresses. */
  function IsFreezeAuthority(token: Token, x: ScalegraphId): (r: bool)
    ensures r <==> token.freeze == Some(x)
  {
    if token.freeze.Some? then
      FormatInjective(token.freeze.value, x);
      Format(token.freeze.value) == Format(x)
    else false
  }
}
