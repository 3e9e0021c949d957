/** The account object: one handler and one rollback handler per kind of transaction, each
    changing the fields in place (internal/scalegraph/account.go). */
module Accounts {
  import opened Wrappers
  import opened Ids
  import opened Tokens
  import opened Transactions
  import opened Blockchains
  import opened AccountSpec

  /** A handler either refuses and changes nothing, or has exactly the specified effect. */
  ghost predicate Handled(before: AccountState, trx: Transaction, after: AccountState, err: Option<Error>) {
    && err == Refusal(before, trx)
    && after == if err.None? then Effect(before, trx) else before
  }

  ghost predicate RolledBack(before: AccountState, trx: Transaction, after: AccountState, err: Option<Error>) {
    && err == ReversalRefusal(before, trx)
    && after == if err.None? then Reversal(before, trx) else before
  }

  class Account {
    const id: ScalegraphId
    const blockchain: Blockchain
    var balance: real
    var mbr: real
    var tokenStore: map<TokenId, Token>
    var outgoingTxCount: int

    ghost predicate Valid()
      reads this, blockchain
    {
      blockchain.Valid()
    }

    ghost function State(): AccountState
      reads this, blockchain
    {
      AccountState(id, balance, mbr, outgoingTxCount, tokenStore, blockchain.transactions)
    }

    constructor (id: ScalegraphId)
      ensures Valid() && State() == NewAccount(id) && fresh(blockchain)
    {
      this.id := id;
      balance, mbr, tokenStore, outgoingTxCount := 0.0, 0.0, map[], 0;
      blockchain := new Blockchain();
    }

    method GetNonce() returns (n: int)
      ensures n == State().nonce
    {
      n := outgoingTxCount;
    }

    method GetToken(tokenId: TokenId) returns (token: Option<Token>)
      ensures token == if State().Owns(tokenId) then Some(State().store[tokenId]) else None
    {
      if tokenId !in tokenStore || tokenStore[tokenId].Equal(EMPTY) {
        return None;
      }
      return Some(tokenStore[tokenId]);
    }

    method MintToken(token: Token) returns (err: Option<Error>)
      modifies this`mbr, this`tokenStore
      ensures err == MintTokenRefusal(old(State()), token)
      ensures err.Some? ==> State() == old(State())
      ensures err.None? ==>
                State() == old(State()).(mbr := old(mbr) + TOKEN_COST, store := old(tokenStore)[token.Id() := token])
    {
      if token.Id() in tokenStore {
        return Some(TokenExists);
      }
      var signer := Parse(token.signature.signerId);
      if signer.None? {
        return Some(InvalidSigner);
      }
      if signer.value != id {
        return Some(WrongSigner);
      }
      if balance - mbr < TOKEN_COST {
        return Some(InsufficientBalance);
      }
      mbr := mbr + TOKEN_COST;
      tokenStore := tokenStore[token.Id() := token];
      return None;
    }

    method AddTokenFromTransfer(token: Token) returns (err: Option<Error>)
      modifies this`mbr, this`tokenStore
      ensures err == if old(State()).HasPlaceholder(token.Id()) then None else Some(NotAuthorized)
      ensures err.Some? ==> State() == old(State())
      ensures err.None? ==>
                State() == old(State()).(mbr := old(mbr) - SLOT_COST, store := old(tokenStore)[token.Id() := token])
    {
      if token.Id() !in tokenStore || !tokenStore[token.Id()].Equal(EMPTY) {
        return Some(NotAuthorized);
      }
      tokenStore := tokenStore[token.Id() := token];
      mbr := mbr - SLOT_COST;
      return None;
    }

    method RemoveToken(tokenId: TokenId) returns (err: Option<Error>)
      modifies this`tokenStore
      ensures err == if tokenId in old(tokenStore) then None else Some(TokenMissing)
      ensures tokenStore == Without(old(tokenStore), tokenId)
    {
      if tokenId !in tokenStore {
        assert Without(tokenStore, tokenId) == tokenStore;
        return Some(TokenMissing);
      }
      tokenStore := tokenStore - {tokenId};
      return None;
    }

    method AddToken(token: Token) returns (err: Option<Error>)
      modifies this`tokenStore
      ensures err == if token.Id() in old(tokenStore) then Some(TokenExists) else None
      ensures tokenStore == if err.None? then old(tokenStore)[token.Id() := token] else old(tokenStore)
    {
      if token.Id() in tokenStore {
        return Some(TokenExists);
      }
      tokenStore := tokenStore[token.Id() := token];
      return None;
    }

    method BurnToken(tokenId: TokenId) returns (err: Option<Error>)
      modifies this`mbr, this`tokenStore
      ensures err == BurnTokenRefusal(old(State()), tokenId)
      ensures err.Some? ==> State() == old(State())
      ensures err.None? ==>
                State() == old(State()).(mbr := old(mbr) - TOKEN_COST, store := Without(old(tokenStore), tokenId))
    {
      if tokenId !in tokenStore {
        return Some(TokenMissing);
      }
      if tokenStore[tokenId].Equal(EMPTY) {
        return Some(Placeholder);
      }
      var signer := Parse(tokenStore[tokenId].signature.signerId);
      if signer.None? {
        return Some(InvalidSigner);
      }
      if signer.value != id {
        return Some(WrongSigner);
      }
      tokenStore := tokenStore - {tokenId};
      mbr := mbr - TOKEN_COST;
      return None;
    }

    method AppendTransaction(trx: Transaction) returns (err: Option<Error>)
      requires Valid()
      modifies this, blockchain
      ensures Valid()
      ensures (State(), err) == Append(old(State()), trx)
    {
      match trx {
        case MintTx(_, _, _) => err := HandleMintTx(trx);
        case TransferTx(_, _, _, _) => err := HandleTransferTx(trx);
        case BurnTx(_, _, _) => err := HandleBurnTx(trx);
        case MintTokenTx(_, _, _) => err := HandleMintTokenTx(trx);
        case AuthorizeTx(_, _, _, _, _) => err := HandleAuthorizeTx(trx);
        case UnauthorizeTx(_, _, _, _, _) => err := HandleUnauthorizeTx(trx);
        case TransferTokenTx(_, _, _, _, _) => err := HandleTransferTokenTx(trx);
        case BurnTokenTx(_, _, _, _) => err := HandleBurnTokenTx(trx);
        case ClawbackTx(_, _, _, _, _) => err := HandleClawbackTx(trx);
        case FreezeTx(_, _, _, _, _) => err := HandleFreezeTx(trx);
        case UnfreezeTx(_, _, _, _, _) => err := HandleUnfreezeTx(trx);
      }
      if err.Some? {
        return;
      }
      var _ := blockchain.Append(trx);
    }

    method RollbackLatestTransaction(trx: Transaction) returns (err: Option<Error>)
      requires Valid()
      modifies this, blockchain
      ensures Valid()
      ensures (State(), err) == RollbackLatest(old(State()), trx)
    {
      var latest := blockchain.tail;
      if latest.transaction == None || latest.transaction.value.txId != trx.txId {
        return Some(NotLatest);
      }
      blockchain.RemoveLatestBlock();
      match trx {
        case MintTx(_, _, _) => err := RollbackMintTx(trx);
        case TransferTx(_, _, _, _) => err := RollbackTransferTx(trx);
        case BurnTx(_, _, _) => err := RollbackBurnTx(trx);
        case MintTokenTx(_, _, _) => err := RollbackMintTokenTx(trx);
        case AuthorizeTx(_, _, _, _, _) => err := RollbackAuthorizeTx(trx);
        case UnauthorizeTx(_, _, _, _, _) => err := RollbackUnauthorizeTx(trx);
        case TransferTokenTx(_, _, _, _, _) => err := RollbackTransferTokenTx(trx);
        case BurnTokenTx(_, _, _, _) => err := RollbackBurnTokenTx(trx);
        case ClawbackTx(_, _, _, _, _) => err := RollbackClawbackTx(trx);
        case FreezeTx(_, _, _, _, _) => err := RollbackFreezeTx(trx);
        case UnfreezeTx(_, _, _, _, _) => err := RollbackUnfreezeTx(trx);
      }
    }

    // Forward handlers.

    method HandleMintTx(trx: Transaction) returns (err: Option<Error>)
      requires trx.MintTx?
      modifies this
      ensures Handled(old(State()), trx, State(), err)
    {
      balance := balance + trx.amount;
      return None;
    }

    method HandleTransferTx(trx: Transaction) returns (err: Option<Error>)
      requires trx.TransferTx?
      modifies this
      ensures Handled(old(State()), trx, State(), err)
    {
      if trx.sender == id {
        if balance - mbr < trx.amount {
          return Some(InsufficientBalance);
        }
        balance := balance - trx.amount;
        outgoingTxCount := outgoingTxCount + 1;
      }
      if trx.receiver == id {
        balance := balance + trx.amount;
      }
      return None;
    }

    method HandleBurnTx(trx: Transaction) returns (err: Option<Error>)
      requires trx.BurnTx?
      modifies this
      ensures Handled(old(State()), trx, State(), err)
    {
      if trx.receiver == id {
        if balance - mbr < trx.amount {
          return Some(InsufficientBalance);
        }
        balance := balance - trx.amount;
      }
      return None;
    }

    method HandleMintTokenTx(trx: Transaction) returns (err: Option<Error>)
      requires trx.MintTokenTx?
      modifies this
      ensures Handled(old(State()), trx, State(), err)
    {
      if trx.receiver == id {
        if trx.token.nonce != outgoingTxCount {
          return Some(NonceMismatch);
        }
        err := MintToken(trx.token);
        if err.Some? {
          return;
        }
        outgoingTxCount := outgoingTxCount + 1;
      }
      return None;
    }

    method HandleTransferTokenTx(trx: Transaction) returns (err: Option<Error>)
      requires trx.TransferTokenTx?
      modifies this
      ensures Handled(old(State()), trx, State(), err)
    {
      if trx.sender == id {
        if trx.nonce != outgoingTxCount {
          return Some(NonceMismatch);
        }
        if trx.token.Id() !in tokenStore {
          return Some(TokenMissing);
        }
        if tokenStore[trx.token.Id()].frozen {
          return Some(TokenFrozen);
        }
        err := RemoveToken(trx.token.Id());
        if err.Some? {
          return;
        }
        outgoingTxCount := outgoingTxCount + 1;
      } else if trx.receiver == id {
        err := AddTokenFromTransfer(trx.token);
        if err.Some? {
          return;
        }
      } else {
        return Some(NotInvolved);
      }
      return None;
    }

    method HandleAuthorizeTx(trx: Transaction) returns (err: Option<Error>)
      requires trx.AuthorizeTx?
      modifies this
      ensures Handled(old(State()), trx, State(), err)
    {
      var tokenId := trx.tokenId;
      if trx.sender == id {
        if trx.nonce != outgoingTxCount {
          return Some(NonceMismatch);
        }
        if tokenId !in tokenStore {
          if balance - mbr < SLOT_COST {
            return Some(InsufficientBalance);
          }
          mbr := mbr + SLOT_COST;
          tokenStore := tokenStore[tokenId := EMPTY];
        } else if !tokenStore[tokenId].Equal(EMPTY) {
          return Some(AlreadyOwned);
        }
        outgoingTxCount := outgoingTxCount + 1;
      } else if trx.receiver == id {
        if tokenId !in tokenStore || tokenStore[tokenId].Equal(EMPTY) {
          return Some(TokenMissing);
        }
      } else {
        return Some(NotInvolved);
      }
      return None;
    }

    method HandleUnauthorizeTx(trx: Transaction) returns (err: Option<Error>)
      requires trx.UnauthorizeTx?
      modifies this
      ensures Handled(old(State()), trx, State(), err)
    {
      var tokenId := trx.tokenId;
      if trx.sender == id {
        if trx.nonce != outgoingTxCount {
          return Some(NonceMismatch);
        }
        if tokenId !in tokenStore {
          return Some(NotAuthorized);
        }
        if !tokenStore[tokenId].Equal(EMPTY) {
          return Some(AlreadyOwned);
        }
        tokenStore := tokenStore - {tokenId};
        mbr := mbr - SLOT_COST;
        outgoingTxCount := outgoingTxCount + 1;
      } else if trx.receiver == id {
        if tokenId !in tokenStore || tokenStore[tokenId].Equal(EMPTY) {
          return Some(TokenMissing);
        }
      } else {
        return Some(NotInvolved);
      }
      return None;
    }

    method HandleBurnTokenTx(trx: Transaction) returns (err: Option<Error>)
      requires trx.BurnTokenTx?
      modifies this
      ensures Handled(old(State()), trx, State(), err)
    {
      if trx.sender == id {
        if trx.nonce != outgoingTxCount {
          return Some(NonceMismatch);
        }
        err := BurnToken(trx.tokenId);
        if err.Some? {
          return;
        }
        outgoingTxCount := outgoingTxCount + 1;
      } else {
        return Some(NotInvolved);
      }
      return None;
    }

    method HandleClawbackTx(trx: Transaction) returns (err: Option<Error>)
      requires trx.ClawbackTx?
      modifies this
      ensures Handled(old(State()), trx, State(), err)
    {
      if trx.sender == id {
        err := RemoveToken(trx.token.Id());
        if err.Some? {
          return;
        }
      } else if trx.receiver == id {
        if trx.nonce != outgoingTxCount {
          return Some(NonceMismatch);
        }
        err := AddToken(trx.token);
        if err.Some? {
          return;
        }
        outgoingTxCount := outgoingTxCount + 1;
      } else {
        return Some(NotInvolved);
      }
      return None;
    }

    method HandleFreezeTx(trx: Transaction) returns (err: Option<Error>)
      requires trx.FreezeTx?
      modifies this
      ensures Handled(old(State()), trx, State(), err)
    {
      var tokenId := trx.tokenId;
      if trx.sender == id {
        if trx.nonce != outgoingTxCount {
          return Some(NonceMismatch);
        }
        if balance - mbr < FREEZE_COST {
          return Some(InsufficientBalance);
        }
        mbr := mbr + FREEZE_COST;
        outgoingTxCount := outgoingTxCount + 1;
      } else if trx.receiver == id {
        if tokenId !in tokenStore {
          return Some(TokenMissing);
        }
        var token := tokenStore[tokenId];
        if token.Equal(EMPTY) {
          return Some(Placeholder);
        }
        if token.frozen {
          return Some(TokenFrozen);
        }
        if token.freeze.None? || Format(token.freeze.value) != Format(trx.sender) {
          if token.freeze.Some? { FormatInjective(token.freeze.value, trx.sender); }
          return Some(NotFreezeAuthority);
        }
        FormatInjective(token.freeze.value, trx.sender);
        tokenStore := tokenStore[tokenId := token.(frozen := true)];
      } else {
        return Some(NotInvolved);
      }
      return None;
    }

    method HandleUnfreezeTx(trx: Transaction) returns (err: Option<Error>)
      requires trx.UnfreezeTx?
      modifies this
      ensures Handled(old(State()), trx, State(), err)
    {
      var tokenId := trx.tokenId;
      if trx.sender == id {
        if trx.nonce != outgoingTxCount {
          return Some(NonceMismatch);
        }
        mbr := mbr - FREEZE_COST;
        outgoingTxCount := outgoingTxCount + 1;
      } else if trx.receiver == id {
        if tokenId !in tokenStore {
          return Some(TokenMissing);
        }
        if !tokenStore[tokenId].frozen {
          return Some(TokenNotFrozen);
        }
        tokenStore := tokenStore[tokenId := tokenStore[tokenId].(frozen := false)];
      } else {
        return Some(NotInvolved);
      }
      return None;
    }

    // Rollback handlers.

    method RollbackMintTx(trx: Transaction) returns (err: Option<Error>)
      requires trx.MintTx?
      modifies this
      ensures RolledBack(old(State()), trx, State(), err)
    {
      balance := balance - trx.amount;
      return None;
    }

    method RollbackTransferTx(trx: Transaction) returns (err: Option<Error>)
      requires trx.TransferTx?
      modifies this
      ensures RolledBack(old(State()), trx, State(), err)
    {
      if trx.sender == id {
        balance := balance + trx.amount;
        outgoingTxCount := outgoingTxCount - 1;
      }
      if trx.receiver == id {
        balance := balance - trx.amount;
      }
      return None;
    }

    method RollbackBurnTx(trx: Transaction) returns (err: Option<Error>)
      requires trx.BurnTx?
      modifies this
      ensures RolledBack(old(State()), trx, State(), err)
    {
      if trx.receiver == id {
        balance := balance + trx.amount;
      }
      return None;
    }

    method RollbackMintTokenTx(trx: Transaction) returns (err: Option<Error>)
      requires trx.MintTokenTx?
      modifies this
      ensures RolledBack(old(State()), trx, State(), err)
    {
      if trx.receiver != id {
        return None;
      }
      if trx.token.Id() !in tokenStore {
        return Some(TokenMissing);
      }
      tokenStore := tokenStore - {trx.token.Id()};
      mbr := mbr - TOKEN_COST;
      outgoingTxCount := outgoingTxCount - 1;
      return None;
    }

    method RollbackTransferTokenTx(trx: Transaction) returns (err: Option<Error>)
      requires trx.TransferTokenTx?
      modifies this
      ensures RolledBack(old(State()), trx, State(), err)
    {
      if trx.sender == id {
        tokenStore := tokenStore[trx.token.Id() := trx.token];
        outgoingTxCount := outgoingTxCount - 1;
      } else if trx.receiver == id {
        tokenStore := tokenStore[trx.token.Id() := EMPTY];
        mbr := mbr - TOKEN_COST;
      }
      return None;
    }

    method RollbackAuthorizeTx(trx: Transaction) returns (err: Option<Error>)
      requires trx.AuthorizeTx?
      modifies this
      ensures RolledBack(old(State()), trx, State(), err)
    {
      if trx.sender == id {
        tokenStore := tokenStore - {trx.tokenId};
        mbr := mbr - SLOT_COST;
        outgoingTxCount := outgoingTxCount - 1;
      }
      return None;
    }

    method RollbackUnauthorizeTx(trx: Transaction) returns (err: Option<Error>)
      requires trx.UnauthorizeTx?
      modifies this
      ensures RolledBack(old(State()), trx, State(), err)
    {
      if trx.sender == id {
        tokenStore := tokenStore[trx.tokenId := EMPTY];
        mbr := mbr + SLOT_COST;
        outgoingTxCount := outgoingTxCount - 1;
      }
      return None;
    }

    method RollbackBurnTokenTx(trx: Transaction) returns (err: Option<Error>)
      requires trx.BurnTokenTx?
      modifies this
      ensures RolledBack(old(State()), trx, State(), err)
    {
      if trx.sender == id {
        mbr := mbr + TOKEN_COST;
        outgoingTxCount := outgoingTxCount - 1;
      }
      return None;
    }

    method RollbackClawbackTx(trx: Transaction) returns (err: Option<Error>)
      requires trx.ClawbackTx?
      modifies this
      ensures RolledBack(old(State()), trx, State(), err)
    {
      if trx.sender == id {
        err := AddToken(trx.token);
        if err.Some? {
          return;
        }
      } else if trx.receiver == id {
        err := RemoveToken(trx.token.Id());
        if err.Some? {
          assert Without(old(tokenStore), trx.token.Id()) == old(tokenStore);
          return;
        }
        outgoingTxCount := outgoingTxCount - 1;
      }
      return None;
    }

    method RollbackFreezeTx(trx: Transaction) returns (err: Option<Error>)
      requires trx.FreezeTx?
      modifies this
      ensures RolledBack(old(State()), trx, State(), err)
    {
      if trx.sender == id {
        mbr := mbr - FREEZE_COST;
        outgoingTxCount := outgoingTxCount - 1;
      } else if trx.receiver == id {
        if trx.tokenId in tokenStore {
          tokenStore := tokenStore[trx.tokenId := tokenStore[trx.tokenId].(frozen := false)];
        }
      }
      return None;
    }

    method RollbackUnfreezeTx(trx: Transaction) returns (err: Option<Error>)
      requires trx.UnfreezeTx?
      modifies this
      ensures RolledBack(old(State()), trx, State(), err)
    {
      if trx.sender == id {
        mbr := mbr + FREEZE_COST;
        outgoingTxCount := outgoingTxCount - 1;
      } else if trx.receiver == id {
        if trx.tokenId in tokenStore {
          tokenStore := tokenStore[trx.tokenId := tokenStore[trx.tokenId].(frozen := true)];
        }
      }
      return None;
    }
  }
}
