/** Nobody receives a token by transfer without having asked for it. */
module Consents {
  import opened Ids
  import opened Tokens
  import opened Transactions
  import opened AccountSpec
  import opened Ledgers
  import opened Changes
  import opened Chains

  /** The latest of x's own authorisations and revocations of t, and of its receipts of t, is an authorisation. */
  predicate Consented(chain: seq<Transaction>, x: ScalegraphId, t: TokenId) {
    if chain == [] then false
    else
      match chain[|chain| - 1]
      case AuthorizeTx(_, s, _, authorized, _) =>
        (s == x && authorized == t) || Consented(chain[..|chain| - 1], x, t)
      case UnauthorizeTx(_, s, _, revoked, _) =>
        !(s == x && revoked == t) && Consented(chain[..|chain| - 1], x, t)
      case TransferTokenTx(_, _, r, token, _) =>
        !(r == x && token.Id() == t) && Consented(chain[..|chain| - 1], x, t)
      case _ => Consented(chain[..|chain| - 1], x, t)
  }

  /** Every incoming token transfer on a chain finds the consent still standing. */
  predicate ReceiptsConsented(chain: seq<Transaction>, x: ScalegraphId) {
    forall i | 0 <= i < |chain| ::
      chain[i].TransferTokenTx? && chain[i].receiver == x ==> Consented(chain[..i], x, chain[i].token.Id())
  }

  /** A placeholder stands for a consent that still stands. */
  ghost predicate PlaceholdersConsented(l: Ledger, x: ScalegraphId) {
    x in l ==> forall t | l[x].HasPlaceholder(t) :: Consented(l[x].chain, x, t)
  }

  lemma {:induction false} ConsentPrecedesReceipt(run: Run, x: ScalegraphId)
    ensures ReceiptsConsented(ChainOf(After(run), x), x)
    ensures PlaceholdersConsented(After(run), x)
  {
    match run
    case Start =>
    case Then(before, req, txId) =>
      var l := After(before);
      ConsentPrecedesReceipt(before, x);
      WellFormedAfter(before);
      ExecuteIsOneChange(l, req, txId);
      match ChangeOf(l, req, txId)
      case Nothing =>
      case Opening(y, initial) =>
      case Dropping(y, t) =>
      case Posting(trx) =>
        PostingIsLawful(l, req, txId);
        PostingKeepsConsent(l, trx, x);
  }

  lemma PostingKeepsConsent(l: Ledger, trx: Transaction, x: ScalegraphId)
    requires WellFormed(l) && Lawful(l, trx)
    requires ReceiptsConsented(ChainOf(l, x), x) && PlaceholdersConsented(l, x)
    ensures ReceiptsConsented(ChainOf(PostAll(l, trx), x), x) && PlaceholdersConsented(PostAll(l, trx), x)
  {
    PartiesExist(l, trx, x);
    if x in l {
      PostAllAt(l, trx, x);
      if trx.Involves(x) {
        PartyAccepts(l, trx, x);
        if trx.TransferTokenTx? || trx.ClawbackTx? {
          PlaceholderTestExact(trx.token.Id(), l[trx.sender].store[trx.token.Id()]);
        }
        PartKeepsConsent(l[x], trx);
      }
    }
  }

  lemma PartKeepsConsent(a: AccountState, trx: Transaction)
    requires Refusal(a, trx).None? && (trx.TwoSided() ==> trx.sender != trx.receiver)
    requires trx.TransferTokenTx? || trx.ClawbackTx? ==> trx.token.Signer().Some?
    requires ReceiptsConsented(a.chain, a.id)
    requires forall t | a.HasPlaceholder(t) :: Consented(a.chain, a.id, t)
    ensures ReceiptsConsented(Posted(a, trx).chain, a.id)
    ensures forall t | Posted(a, trx).HasPlaceholder(t) :: Consented(Posted(a, trx).chain, a.id, t)
  {
    var chain := a.chain + [trx];
    assert chain[..|a.chain|] == a.chain;
    forall i | 0 <= i < |chain| && chain[i].TransferTokenTx? && chain[i].receiver == a.id
      ensures Consented(chain[..i], a.id, chain[i].token.Id())
    {
      if i < |a.chain| { assert chain[..i] == a.chain[..i]; }
    }
    forall t | Posted(a, trx).HasPlaceholder(t)
      ensures Consented(chain, a.id, t)
    {
      PlaceholderStands(a, trx, t);
    }
  }

  /** A placeholder there after a transaction was there before, unless this is its authorisation. */
  lemma PlaceholderStands(a: AccountState, trx: Transaction, t: TokenId)
    requires Refusal(a, trx).None? && (trx.TwoSided() ==> trx.sender != trx.receiver)
    requires trx.TransferTokenTx? || trx.ClawbackTx? ==> trx.token.Signer().Some?
    requires Effect(a, trx).HasPlaceholder(t)
    ensures (trx.AuthorizeTx? && trx.sender == a.id && trx.tokenId == t) || a.HasPlaceholder(t)
    ensures !(trx.UnauthorizeTx? && trx.sender == a.id && trx.tokenId == t)
    ensures !(trx.TransferTokenTx? && trx.receiver == a.id && trx.token.Id() == t)
  {
    if trx.TransferTokenTx? || trx.ClawbackTx? || (trx.MintTokenTx? && trx.receiver == a.id) {
      SignedIsNotEmpty(trx.token);
    }
  }
}
