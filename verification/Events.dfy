/** Which event a request announces and on which account topics (internal/server/event_builder.go). */
module Events {
  import opened Wrappers
  import opened Ids
  import opened Tokens
  import opened Transactions
  import opened Ledgers

  /** Events name accounts by their printed identifiers; timestamps are left out. */
  datatype Event =
    | TransferEvent(from: string, to: string, amount: real)
    | MintEvent(to: string, amount: real)
    | MintTokenEvent(account: string, tokenId: TokenId, value: string, clawback: string)
    | TransferTokenEvent(from: string, to: string, tokenId: TokenId)
    | AuthorizeEvent(account: string, tokenId: TokenId, owner: string)
    | UnauthorizeEvent(account: string, tokenId: TokenId, owner: string)
    | BurnTokenEvent(account: string, tokenId: TokenId)
    | ClawbackEvent(from: string, to: string, tokenId: TokenId)
    | FreezeEvent(authority: string, holder: string, tokenId: TokenId)
    | UnfreezeEvent(authority: string, holder: string, tokenId: TokenId)

  function AddressText(address: Option<ScalegraphId>): string {
    if address.Some? then Format(address.value) else ""
  }

  /** The event built from a request and its outcome; creating an account announces nothing. */
  function BuildEvent(req: Request, outcome: Outcome): Option<Event> {
    match req
    case CreateAccount(_, _) => None
    case Transfer(from, to, amount, _) => Some(TransferEvent(Format(from), Format(to), amount))
    case Mint(to, amount) => Some(MintEvent(Format(to), amount))
    case MintToken(value, signature, clawback, _, _) =>
      var tokenId := if outcome.DoneMint? then outcome.tokenId else "";
      Some(MintTokenEvent(signature.signerId, tokenId, value, AddressText(clawback)))
    case TransferToken(from, to, t, _) => Some(TransferTokenEvent(Format(from), Format(to), t))
    case AuthorizeTokenTransfer(a, o, t, _) => Some(AuthorizeEvent(Format(a), t, Format(o)))
    case UnauthorizeTokenTransfer(a, o, t, _) => Some(UnauthorizeEvent(Format(a), t, Format(o)))
    case BurnToken(a, t, _) => Some(BurnTokenEvent(Format(a), t))
    case ClawbackToken(from, to, t, _) => Some(ClawbackEvent(Format(from), Format(to), t))
    case FreezeToken(s, h, t, _) => Some(FreezeEvent(Format(s), Format(h), t))
    case UnfreezeToken(s, h, t, _) => Some(UnfreezeEvent(Format(s), Format(h), t))
  }

  /** The accounts whose topics carry the event, in publication order. A token mint also goes to the
      clawback address, even when that is the minter. */
  function InvolvedAccounts(event: Event): seq<string> {
    match event
    case TransferEvent(from, to, _) => [from, to]
    case MintEvent(to, _) => [to]
    case MintTokenEvent(account, _, _, clawback) => [account] + if clawback != "" then [clawback] else []
    case TransferTokenEvent(from, to, _) => [from, to]
    case AuthorizeEvent(account, _, owner) => [account, owner]
    case UnauthorizeEvent(account, _, owner) => [account, owner]
    case BurnTokenEvent(account, _) => [account]
    case ClawbackEvent(from, to, _) => [from, to]
    case FreezeEvent(authority, holder, _) => [authority, holder]
    case UnfreezeEvent(authority, holder, _) => [authority, holder]
  }

  /** How a chain block reads as an event; there is none for burning funds. */
  function BlockEvent(trx: Transaction): Event
    requires !trx.BurnTx?
  {
    match trx
    case MintTx(_, r, amount) => MintEvent(Format(r), amount)
    case TransferTx(_, s, r, amount) => TransferEvent(Format(s), Format(r), amount)
    case MintTokenTx(_, r, token) => MintTokenEvent(Format(r), token.Id(), token.value, AddressText(token.clawback))
    case AuthorizeTx(_, s, r, t, _) => AuthorizeEvent(Format(s), t, Format(r))
    case UnauthorizeTx(_, s, r, t, _) => UnauthorizeEvent(Format(s), t, Format(r))
    case TransferTokenTx(_, s, r, token, _) => TransferTokenEvent(Format(s), Format(r), token.Id())
    case BurnTokenTx(_, s, t, _) => BurnTokenEvent(Format(s), t)
    case ClawbackTx(_, s, r, token, _) => ClawbackEvent(Format(s), Format(r), token.Id())
    case FreezeTx(_, s, r, t, _) => FreezeEvent(Format(s), Format(r), t)
    case UnfreezeTx(_, s, r, t, _) => UnfreezeEvent(Format(s), Format(r), t)
  }

  function BlockEvents(chain: seq<Transaction>): (events: seq<Event>)
    ensures (forall trx | trx in chain :: !trx.BurnTx?) ==> |events| == |chain|
  {
    if chain == [] then []
    else
      var last := chain[|chain| - 1];
      BlockEvents(chain[..|chain| - 1]) + if last.BurnTx? then [] else [BlockEvent(last)]
  }
  /** An event tells everything about its block but the transaction's own identifier, its nonce, and what
      of a token is neither its identifier, its value nor its clawback address. */
  lemma EventTellsBlock(trx: Transaction, other: Transaction)
    requires !trx.BurnTx? && !other.BurnTx? && BlockEvent(trx) == BlockEvent(other)
    ensures trx.MintTx? <==> other.MintTx?
    ensures trx.MintTx? ==> trx.receiver == other.receiver && trx.amount == other.amount
    ensures trx.TransferTx? <==> other.TransferTx?
    ensures trx.TransferTx? ==>
              trx.sender == other.sender && trx.receiver == other.receiver && trx.amount == other.amount
    ensures trx.MintTokenTx? <==> other.MintTokenTx?
    ensures trx.MintTokenTx? ==>
              && trx.receiver == other.receiver && trx.token.Id() == other.token.Id()
              && trx.token.value == other.token.value && trx.token.clawback == other.token.clawback
    ensures trx.TransferTokenTx? <==> other.TransferTokenTx?
    ensures trx.ClawbackTx? <==> other.ClawbackTx?
    ensures trx.TransferTokenTx? || trx.ClawbackTx? ==>
              trx.sender == other.sender && trx.receiver == other.receiver && trx.token.Id() == other.token.Id()
    ensures trx.BurnTokenTx? <==> other.BurnTokenTx?
    ensures trx.BurnTokenTx? ==> trx.sender == other.sender && trx.tokenId == other.tokenId
    ensures (trx.AuthorizeTx? <==> other.AuthorizeTx?) && (trx.UnauthorizeTx? <==> other.UnauthorizeTx?)
    ensures (trx.FreezeTx? <==> other.FreezeTx?) && (trx.UnfreezeTx? <==> other.UnfreezeTx?)
    ensures trx.AuthorizeTx? || trx.UnauthorizeTx? || trx.FreezeTx? || trx.UnfreezeTx? ==>
              trx.sender == other.sender && trx.receiver == other.receiver && trx.tokenId == other.tokenId
  {
    if trx.TwoSided() {
      FormatInjective(trx.sender, other.sender);
      FormatInjective(trx.receiver, other.receiver);
    } else if trx.BurnTokenTx? {
      FormatInjective(trx.sender, other.sender);
    } else {
      FormatInjective(trx.receiver, other.receiver);
      if trx.MintTokenTx? { AddressTold(trx.token.clawback, other.token.clawback); }
    }
  }

  lemma AddressTold(address: Option<ScalegraphId>, other: Option<ScalegraphId>)
    ensures AddressText(address) == AddressText(other) <==> address == other
  {
    if address.Some? { assert |Format(address.value)| == 40; }
    if other.Some? { assert |Format(other.value)| == 40; }
    if address.Some? && other.Some? { FormatInjective(address.value, other.value); }
  }
}
