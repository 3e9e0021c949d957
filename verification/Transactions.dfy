/** The transactions recorded on account chains (internal/scalegraph/transaction.go).
    Accounts are named by their identifiers. */
module Transactions {
  import opened Ids
  import opened Tokens

  type TxId = ScalegraphId

  datatype Transaction =
    | MintTx(txId: TxId, receiver: ScalegraphId, amount: real)
    | TransferTx(txId: TxId, sender: ScalegraphId, receiver: ScalegraphId, amount: real)
    | BurnTx(txId: TxId, receiver: ScalegraphId, amount: real)
    | MintTokenTx(txId: TxId, receiver: ScalegraphId, token: Token)
    | AuthorizeTx(txId: TxId, sender: ScalegraphId, receiver: ScalegraphId, tokenId: TokenId, nonce: int)
    | UnauthorizeTx(txId: TxId, sender: ScalegraphId, receiver: ScalegraphId, tokenId: TokenId, nonce: int)
    | TransferTokenTx(txId: TxId, sender: ScalegraphId, receiver: ScalegraphId, token: Token, nonce: int)
    | BurnTokenTx(txId: TxId, sender: ScalegraphId, tokenId: TokenId, nonce: int)
    | ClawbackTx(txId: TxId, sender: ScalegraphId, receiver: ScalegraphId, token: Token, nonce: int)
    | FreezeTx(txId: TxId, sender: ScalegraphId, receiver: ScalegraphId, tokenId: TokenId, nonce: int)
    | UnfreezeTx(txId: TxId, sender: ScalegraphId, receiver: ScalegraphId, tokenId: TokenId, nonce: int)
  {
    /** Recorded on two chains: the sender's and the receiver's. */
    predicate TwoSided() {
      !MintTx? && !BurnTx? && !MintTokenTx? && !BurnTokenTx?
    }

    predicate Involves(x: ScalegraphId) {
      match this
      case MintTx(_, r, _) => x == r
      case BurnTx(_, r, _) => x == r
      case MintTokenTx(_, r, _) => x == r
      case BurnTokenTx(_, s, _, _) => x == s
      case TransferTx(_, s, r, _) => x == s || x == r
      case AuthorizeTx(_, s, r, _, _) => x == s || x == r
      case UnauthorizeTx(_, s, r, _, _) => x == s || x == r
      case TransferTokenTx(_, s, r, _, _) => x == s || x == r
      case ClawbackTx(_, s, r, _, _) => x == s || x == r
      case FreezeTx(_, s, r, _, _) => x == s || x == r
      case UnfreezeTx(_, s, r, _, _) => x == s || x == r
    }

    /** Signed by x: the receiver signs token mints and clawbacks, the sender everything else. */
    predicate SignedBy(x: ScalegraphId) {
      match this
      case MintTx(_, _, _) => false
      case BurnTx(_, _, _) => false
      case MintTokenTx(_, r, _) => x == r
      case ClawbackTx(_, _, r, _, _) => x == r
      case BurnTokenTx(_, s, _, _) => x == s
      case TransferTx(_, s, _, _) => x == s
      case AuthorizeTx(_, s, _, _, _) => x == s
      case UnauthorizeTx(_, s, _, _, _) => x == s
      case TransferTokenTx(_, s, _, _, _) => x == s
      case FreezeTx(_, s, _, _, _) => x == s
      case UnfreezeTx(_, s, _, _, _) => x == s
    }
  }
}
