/** Which requests the server serves on whose word. */
module Admissions {
  import opened Wrappers
  import opened Ids
  import opened Transactions
  import opened AccountSpec
  import opened Ledgers
  import opened Changes
  import opened Chains
  import opened Events
  import opened ServerSpec
  import opened Feeds

  /** Served to anybody: minting funds, the administrator's two requests, and the listings. */
  predicate Open(req: ServerRequest) {
    match req
    case Domain(request) => request.Mint?
    case Query(query) => query.AccountCount? || query.AccountList?
    case AdminMint(_, _) => true
    case AdminCreateAccount(_, _) => true
    case UnknownType => true
  }

  /** Anything else without a genuine signature changes nothing at all: it is turned away, or ends the
      program for want of an envelope. */
  lemma UnverifiedChangesNothing(s: ServerState, req: ServerRequest, verdict: Verdict, txId: TxId)
    requires !Open(req) && verdict != Genuine
    ensures Handle(s, req, verdict, txId).0 == s
    ensures Handle(s, req, verdict, txId).1 ==
            if verdict == NoEnvelope && (req == Query(TokenLookup) || (req.Domain? && req.request.MintToken?))
            then Answer(Panicked) else VerificationFailed
  {
  }

  /** What is open is served the same whatever the verdict. */
  lemma OpenServedAnyway(s: ServerState, req: ServerRequest, verdict: Verdict, txId: TxId)
    requires Open(req)
    ensures Handle(s, req, verdict, txId) == Handle(s, req, Genuine, txId)
    ensures Handle(s, req, verdict, txId).1 != VerificationFailed
  {
  }

  /** With a genuine verdict everything is served, but for a token mint whose signer field is not the
      printed form of an identifier. */
  lemma GenuineServed(s: ServerState, req: ServerRequest, txId: TxId)
    ensures
      var (s', reply) := Handle(s, req, Genuine, txId);
      match req
      case UnknownType => s' == s && reply == UnknownRequest
      case Query(_) => s' == s && reply == Answer(Done)
      case AdminMint(to, amount) =>
        (s', reply) == (ServerState(Execute(s.ledger, Mint(to, amount), txId).0, s.feeds),
                        Answer(Execute(s.ledger, Mint(to, amount), txId).1))
      case AdminCreateAccount(x, initial) =>
        (s', reply) == (ServerState(Execute(s.ledger, CreateAccount(x, initial), txId).0, s.feeds),
                        Answer(Execute(s.ledger, CreateAccount(x, initial), txId).1))
      case Domain(request) =>
        if request.MintToken? && (forall x :: request.signature.signerId != Format(x))
        then s' == s && reply == VerificationFailed
        else s'.ledger == Execute(s.ledger, request, txId).0 && reply == Answer(Execute(s.ledger, request, txId).1)
  {
    if req.Domain? && req.request.MintToken? { SignerPrinted(req.request); }
  }

  lemma SignerPrinted(request: Request)
    requires request.MintToken?
    ensures SignerCanonical(request) <==> exists x :: request.signature.signerId == Format(x)
  {
    if x :| request.signature.signerId == Format(x) {
      ParseFormat(x);
    }
  }

  /** The block came from this piece of work: its request was signed, and asked for just this. */
  ghost predicate SignedFor(s: ServerState, w: Work, trx: Transaction) {
    && w.request.Domain? && w.verdict == Genuine
    && TransactionOf(s.ledger, w.request.request, w.txId) == Some(trx)
  }

  ghost predicate SignedAt(s: ServerState, work: seq<Work>, j: nat, trx: Transaction) {
    j < |work| && SignedFor(HandleAll(s, work[..j]), work[j], trx)
  }

  /** Every block but a mint of funds that any work adds to any chain was signed for. */
  lemma {:induction false} BlocksAreSigned(s: ServerState, work: seq<Work>, x: ScalegraphId, i: nat)
    requires WellFormed(s.ledger)
    requires |ChainOf(s.ledger, x)| <= i < |ChainOf(HandleAll(s, work).ledger, x)|
    requires !ChainOf(HandleAll(s, work).ledger, x)[i].MintTx?
    ensures exists j: nat :: SignedAt(s, work, j, ChainOf(HandleAll(s, work).ledger, x)[i])
  {
    if work != [] {
      var n := |work| - 1;
      var before := HandleAll(s, work[..n]);
      var trx := ChainOf(HandleAll(s, work).ledger, x)[i];
      StaysWellFormed(s, work[..n]);
      BlockOrigin(before, work[n], HandleAll(s, work), x, i);
      if i < |ChainOf(before.ledger, x)| {
        BlocksAreSigned(s, work[..n], x, i);
        var j: nat :| SignedAt(s, work[..n], j, trx);
        SignedEarlier(s, work, j, trx);
      } else {
        assert SignedAt(s, work, n, trx);
      }
    }
  }

  lemma BlockOrigin(s: ServerState, w: Work, s': ServerState, x: ScalegraphId, i: nat)
    requires WellFormed(s.ledger) && s' == Handle(s, w.request, w.verdict, w.txId).0
    requires i < |ChainOf(s'.ledger, x)| && !ChainOf(s'.ledger, x)[i].MintTx?
    ensures if i < |ChainOf(s.ledger, x)| then ChainOf(s.ledger, x)[i] == ChainOf(s'.ledger, x)[i]
            else SignedFor(s, w, ChainOf(s'.ledger, x)[i])
  {
    LastBlock(s, w, x);
    OldOrLast(ChainOf(s.ledger, x), ChainOf(s'.ledger, x), i);
  }

  lemma OldOrLast(chain: seq<Transaction>, chain': seq<Transaction>, i: nat)
    requires chain' == chain || (|chain'| == |chain| + 1 && chain'[..|chain|] == chain)
    requires i < |chain'|
    ensures if i < |chain| then chain[i] == chain'[i] else i == |chain| && chain' != chain
  {
  }

  lemma SignedEarlier(s: ServerState, work: seq<Work>, j: nat, trx: Transaction)
    requires work != [] && SignedAt(s, work[..|work| - 1], j, trx)
    ensures SignedAt(s, work, j, trx)
  {
    assert work[..|work| - 1][..j] == work[..j];
  }

  lemma {:induction false} StaysWellFormed(s: ServerState, work: seq<Work>)
    requires WellFormed(s.ledger)
    ensures WellFormed(HandleAll(s, work).ledger)
  {
    if work != [] {
      var n := |work| - 1;
      StaysWellFormed(s, work[..n]);
      LastBlock(HandleAll(s, work[..n]), work[n], Anyone());
    }
  }

  function Anyone(): ScalegraphId {
    ScalegraphId(seq(20, _ => 0))
  }

  /** One piece of work adds at most one block, and unless that mints funds it was signed for. */
  lemma LastBlock(s: ServerState, w: Work, x: ScalegraphId)
    requires WellFormed(s.ledger)
    ensures
      var s' := Handle(s, w.request, w.verdict, w.txId).0;
      var chain, chain' := ChainOf(s.ledger, x), ChainOf(s'.ledger, x);
      && WellFormed(s'.ledger)
      && (chain' == chain || (|chain'| == |chain| + 1 && chain'[..|chain|] == chain &&
                              (chain'[|chain|].MintTx? || SignedFor(s, w, chain'[|chain|]))))
  {
    match w.request
    case Domain(req) => if Admitted(w.request, w.verdict) { RequestBlock(s.ledger, req, w.txId, x); }
    case AdminMint(to, amount) => RequestBlock(s.ledger, Mint(to, amount), w.txId, x);
    case AdminCreateAccount(y, initial) => RequestBlock(s.ledger, CreateAccount(y, initial), w.txId, x);
    case _ =>
  }

  lemma RequestBlock(l: Ledger, req: Request, txId: TxId, x: ScalegraphId)
    requires WellFormed(l)
    ensures
      var l' := Execute(l, req, txId).0;
      var chain, chain' := ChainOf(l, x), ChainOf(l', x);
      && WellFormed(l')
      && (chain' == chain || (|chain'| == |chain| + 1 && chain'[..|chain|] == chain &&
                              (chain'[|chain|].MintTx? ||
                               (!req.Mint? && TransactionOf(l, req, txId) == Some(chain'[|chain|])))))
  {
    RequestKeepsWellFormed(l, req, txId);
    ChainGrows(l, req, txId, x);
  }
}
