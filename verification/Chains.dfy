/** What the account chains agree on, and how nonces number the requests an account signs. */
module Chains {
  import opened Wrappers
  import opened Ids
  import opened Transactions
  import opened Ledgers
  import opened Changes

  /** The chain of x; nobody's chain is empty. */
  function ChainOf(l: Ledger, x: ScalegraphId): seq<Transaction> {
    if x in l then l[x].chain else []
  }

  /** The blocks a change adds to the chain of x. */
  function AddedTo(change: Change, x: ScalegraphId): seq<Transaction> {
    match change
    case Opening(y, initial) => if y == x && initial.Some? then [initial.value] else []
    case Posting(trx) => if trx.Involves(x) then [trx] else []
    case _ => []
  }

  /** Chains only grow, and a request adds one block or none to each. */
  lemma ChainGrows(l: Ledger, req: Request, txId: TxId, x: ScalegraphId)
    requires WellFormed(l)
    ensures ChainOf(Execute(l, req, txId).0, x) == ChainOf(l, x) + AddedTo(ChangeOf(l, req, txId), x)
  {
    ExecuteIsOneChange(l, req, txId);
    match ChangeOf(l, req, txId)
    case Posting(trx) =>
      PostingIsLawful(l, req, txId);
      PartiesExist(l, trx, x);
      if x in l { PostAllAt(l, trx, x); }
    case _ =>
  }

  lemma PartiesExist(l: Ledger, trx: Transaction, x: ScalegraphId)
    requires Accepted(l, trx) && !trx.BurnTx?
    ensures trx.Involves(x) ==> x in l
    ensures x !in l ==> x !in PostAll(l, trx)
  {
  }

  // Two chains agree.

  predicate IsBetween(trx: Transaction, x: ScalegraphId, y: ScalegraphId) {
    trx.TwoSided() && ((trx.sender == x && trx.receiver == y) || (trx.sender == y && trx.receiver == x))
  }

  /** The transactions between x and y, in chain order. */
  function Between(chain: seq<Transaction>, x: ScalegraphId, y: ScalegraphId): seq<Transaction> {
    if chain == [] then []
    else
      var last := chain[|chain| - 1];
      Between(chain[..|chain| - 1], x, y) + if IsBetween(last, x, y) then [last] else []
  }

  /** Any two accounts' chains record the same transactions between them in the same order. */
  lemma {:induction false} ChainsAgree(run: Run, x: ScalegraphId, y: ScalegraphId)
    requires x != y
    ensures Between(ChainOf(After(run), x), x, y) == Between(ChainOf(After(run), y), x, y)
  {
    match run
    case Start =>
    case Then(before, req, txId) =>
      var l := After(before);
      ChainsAgree(before, x, y);
      WellFormedAfter(before);
      ChainGrows(l, req, txId, x);
      ChainGrows(l, req, txId, y);
      BetweenGrows(ChainOf(l, x), ChangeOf(l, req, txId), x, x, y);
      BetweenGrows(ChainOf(l, y), ChangeOf(l, req, txId), y, x, y);
  }

  function BetweenAdded(change: Change, x: ScalegraphId, y: ScalegraphId): seq<Transaction> {
    if change.Posting? && IsBetween(change.trx, x, y) then [change.trx] else []
  }

  lemma {:induction false} BetweenGrows(
    chain: seq<Transaction>, change: Change, z: ScalegraphId, x: ScalegraphId, y: ScalegraphId)
    requires z in {x, y}
    requires change.Opening? && change.initial.Some? ==> change.initial.value.MintTx?
    ensures Between(chain + AddedTo(change, z), x, y) == Between(chain, x, y) + BetweenAdded(change, x, y)
  {
    var added := AddedTo(change, z);
    if added == [] {
      assert chain + added == chain;
    } else {
      assert (chain + added)[..|chain|] == chain;
    }
  }

  // Nonces.

  function CountSigned(chain: seq<Transaction>, x: ScalegraphId): nat {
    if chain == [] then 0
    else CountSigned(chain[..|chain| - 1], x) + if chain[|chain| - 1].SignedBy(x) then 1 else 0
  }

  /** The account a request must be signed by. */
  function SignerOf(req: Request): Option<ScalegraphId> {
    match req
    case CreateAccount(_, _) => None
    case Mint(_, _) => None
    case Transfer(from, _, _, _) => Some(from)
    case MintToken(_, signature, _, _, _) => Parse(signature.signerId)
    case AuthorizeTokenTransfer(a, _, _, _) => Some(a)
    case UnauthorizeTokenTransfer(a, _, _, _) => Some(a)
    case TransferToken(from, _, _, _) => Some(from)
    case BurnToken(a, _, _) => Some(a)
    case ClawbackToken(_, to, _, _) => Some(to)
    case FreezeToken(s, _, _, _) => Some(s)
    case UnfreezeToken(s, _, _, _) => Some(s)
  }

  /** A request signed by x that succeeds. */
  predicate UsesNonce(l: Ledger, req: Request, txId: TxId, x: ScalegraphId) {
    Execute(l, req, txId).1.Succeeded() && !req.CreateAccount? && !req.Mint? && SignerOf(req) == Some(x)
  }

  /** The nonces of the requests signed by x that succeeded, in order. */
  function UsedNonces(run: Run, x: ScalegraphId): seq<int> {
    match run
    case Start => []
    case Then(before, req, _) =>
      UsedNonces(before, x) +
      if UsesNonce(After(before), req, run.txId, x) then [req.nonce] else []
  }

  ghost predicate Numbered(nonces: seq<int>) {
    forall i | 0 <= i < |nonces| :: nonces[i] == i
  }

  /** The nonce counts the blocks an account signed; its successful requests carried exactly
      0, 1, 2, ... in that order, so none ever succeeds twice. */
  lemma {:induction false} NonceDiscipline(run: Run, x: ScalegraphId)
    ensures Numbered(UsedNonces(run, x))
    ensures |UsedNonces(run, x)| == CountSigned(ChainOf(After(run), x), x)
    ensures x in After(run) ==> After(run)[x].nonce == |UsedNonces(run, x)|
    ensures x !in After(run) ==> UsedNonces(run, x) == []
  {
    match run
    case Start =>
    case Then(before, req, txId) =>
      NonceDiscipline(before, x);
      WellFormedAfter(before);
      NonceStep(After(before), req, txId, x, UsedNonces(before, x));
  }

  ghost predicate NoncesUsed(l: Ledger, x: ScalegraphId, used: seq<int>) {
    && Numbered(used)
    && |used| == CountSigned(ChainOf(l, x), x)
    && |used| == if x in l then l[x].nonce else 0
  }

  lemma NonceStep(l: Ledger, req: Request, txId: TxId, x: ScalegraphId, used: seq<int>)
    requires WellFormed(l) && NoncesUsed(l, x, used)
    ensures NoncesUsed(Execute(l, req, txId).0, x, used + if UsesNonce(l, req, txId, x) then [req.nonce] else [])
  {
    ChainGrows(l, req, txId, x);
    CountGrows(ChainOf(l, x), ChangeOf(l, req, txId), x);
    RequestUsesNonce(l, req, txId, x);
  }

  function SignedIn(change: Change, x: ScalegraphId): nat {
    if change.Posting? && change.trx.SignedBy(x) then 1 else 0
  }

  lemma {:induction false} CountGrows(chain: seq<Transaction>, change: Change, x: ScalegraphId)
    requires change.Opening? && change.initial.Some? ==> change.initial.value.MintTx?
    ensures CountSigned(chain + AddedTo(change, x), x) == CountSigned(chain, x) + SignedIn(change, x)
  {
    var added := AddedTo(change, x);
    if added == [] {
      assert chain + added == chain;
    } else {
      assert (chain + added)[..|chain|] == chain;
    }
  }

  /** A signed request succeeds only with the signer's current nonce, and then advances it by one. */
  lemma RequestUsesNonce(l: Ledger, req: Request, txId: TxId, x: ScalegraphId)
    requires WellFormed(l)
    ensures var (l', outcome) := Execute(l, req, txId);
            var signs := UsesNonce(l, req, txId, x);
            && (signs <==> SignedIn(ChangeOf(l, req, txId), x) == 1)
            && (signs ==> x in l && req.nonce == l[x].nonce)
            && (x in l ==> x in l' && l'[x].nonce == l[x].nonce + if signs then 1 else 0)
            && (x !in l && x in l' ==> l'[x].nonce == 0)
  {
    ExecuteIsOneChange(l, req, txId);
    match ChangeOf(l, req, txId)
    case Posting(trx) =>
      PostingIsLawful(l, req, txId);
      SignsItsRequest(l, req, txId, x);
      PostingAdvancesNonces(l, trx);
      PartiesExist(l, trx, x);
    case _ =>
  }

  lemma SignsItsRequest(l: Ledger, req: Request, txId: TxId, x: ScalegraphId)
    requires ChangeOf(l, req, txId).Posting?
    ensures ChangeOf(l, req, txId).trx.SignedBy(x) <==> !req.CreateAccount? && !req.Mint? && SignerOf(req) == Some(x)
    ensures ChangeOf(l, req, txId).trx.SignedBy(x) ==> x in l && req.nonce == l[x].nonce
  {
  }
}
