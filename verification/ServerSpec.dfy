/** Handling one request at the server, as values: verify, execute, publish (internal/server/server.go). */
module ServerSpec {
  import opened Ids
  import opened Transactions
  import opened Ledgers
  import opened Events

  /** They read the ledger only; what they answer is left out. */
  datatype LedgerQuery = AccountCount | AccountList | OneAccount | TokenLookup

  datatype ServerRequest =
    | Domain(request: Request)
    | AdminMint(to: ScalegraphId, amount: real)
    | AdminCreateAccount(account: ScalegraphId, initialBalance: real)
    | Query(query: LedgerQuery)
    | UnknownType

  /** What comes of the checks not modelled here, those of certificate, signature, time and signed fields. */
  datatype Verdict = Genuine | Rejected | NoEnvelope

  datatype Reply = Answer(outcome: Outcome) | VerificationFailed | UnknownRequest | ShuttingDown

  /** One application's event bus: for each account name the events published under it. */
  type Feed = map<string, seq<Event>>

  datatype ServerState = ServerState(ledger: Ledger, feeds: map<ScalegraphId, Feed>)

  function Topic(feed: Feed, account: string): seq<Event> {
    if account in feed then feed[account] else []
  }

  function PublishTo(feed: Feed, accounts: seq<string>, event: Event): Feed {
    if accounts == [] then feed
    else
      var earlier := PublishTo(feed, accounts[..|accounts| - 1], event);
      var account := accounts[|accounts| - 1];
      earlier[account := Topic(earlier, account) + [event]]
  }

  /** Every registered application gets the event on every involved account's topic. */
  function Publish(feeds: map<ScalegraphId, Feed>, event: Event): map<ScalegraphId, Feed> {
    map v | v in feeds :: PublishTo(feeds[v], InvolvedAccounts(event), event)
  }

  predicate NeedsSignature(req: ServerRequest) {
    match req
    case Domain(request) => !request.Mint?
    case Query(query) => query.OneAccount? || query.TokenLookup?
    case _ => false
  }

  /** Verifying a token mint or look-up reads the signer out of the envelope before anything else. */
  predicate ReadsEnvelope(req: ServerRequest) {
    match req
    case Domain(request) => request.MintToken?
    case Query(query) => query.TokenLookup?
    case _ => false
  }

  /** The part of verification modelled here: a token mint's signer field must be the printed form of
      an identifier. */
  predicate SignerCanonical(request: Request) {
    request.MintToken? ==>
      match Parse(request.signature.signerId)
      case None => false
      case Some(signer) => request.signature.signerId == Format(signer)
  }

  predicate Admitted(req: ServerRequest, verdict: Verdict) {
    NeedsSignature(req) ==> verdict.Genuine? && (req.Domain? ==> SignerCanonical(req.request))
  }

  function Handle(s: ServerState, req: ServerRequest, verdict: Verdict, txId: TxId): (ServerState, Reply) {
    if ReadsEnvelope(req) && verdict.NoEnvelope? then (s, Answer(Panicked))
    else if !Admitted(req, verdict) then (s, VerificationFailed)
    else
      match req
      case UnknownType => (s, UnknownRequest)
      case Query(_) => (s, Answer(Done))
      case AdminMint(to, amount) =>
        var (l, outcome) := Execute(s.ledger, Mint(to, amount), txId);
        (s.(ledger := l), Answer(outcome))
      case AdminCreateAccount(x, initial) =>
        var (l, outcome) := Execute(s.ledger, CreateAccount(x, initial), txId);
        (s.(ledger := l), Answer(outcome))
      case Domain(request) =>
        var (l, outcome) := Execute(s.ledger, request, txId);
        (ServerState(l, Announced(s.feeds, request, outcome)), Answer(outcome))
  }

  function Announced(feeds: map<ScalegraphId, Feed>, request: Request, outcome: Outcome): map<ScalegraphId, Feed> {
    match BuildEvent(request, outcome)
    case Some(event) => if outcome.Succeeded() then Publish(feeds, event) else feeds
    case None => feeds
  }
}
