/** The server's handling of one request and its publishing loops (internal/server/server.go). */
module Servers {
  import opened Ids
  import opened Transactions
  import opened Ledgers
  import opened Apps
  import opened Events
  import opened Registries
  import opened ServerSpec

  class Server {
    const app: App
    const registry: Registry
    var feeds: map<ScalegraphId, Feed>

    /** Every registered application has its event bus. */
    ghost predicate Valid()
      reads this, registry, app, app.repr
    {
      && app.Valid() && this !in app.repr && registry !in app.repr
      && registry.Valid() && registry.byID.Keys == feeds.Keys
    }

    ghost function State(): ServerState
      requires Valid()
      reads this, registry, app, app.repr
    {
      ServerState(app.Ledger(), feeds)
    }

    constructor ()
      ensures Valid() && fresh(app) && fresh(app.repr) && fresh(registry) && State() == ServerState(map[], map[])
    {
      app := new App();
      registry := new Registry();
      feeds := map[];
    }

    /** Registers a new application under a drawn identifier, with an empty event bus; refused if the
        identifier is taken. */
    method CreateVirtualApp(id: ScalegraphId) returns (ok: bool)
      requires Valid()
      modifies this`feeds, registry
      ensures Valid() && ok == (id !in old(feeds))
      ensures app.Ledger() == old(app.Ledger())
      ensures feeds == if ok then old(feeds)[id := map[]] else old(feeds)
    {
      ok := registry.Register(VirtualApp(id));
      assert app.Valid() && app.Ledger() == old(app.Ledger());
      if ok {
        OpenBus(id);
      }
    }

    method OpenBus(id: ScalegraphId)
      requires app.Valid() && this !in app.repr
      modifies this`feeds
      ensures app.Valid() && app.Ledger() == old(app.Ledger()) && app.repr == old(app.repr)
      ensures feeds == old(feeds)[id := map[]]
    {
      feeds := feeds[id := map[]];
    }

    method HandleRequest(req: ServerRequest, verdict: Verdict, txId: TxId) returns (reply: Reply)
      requires Valid()
      modifies this, app, app.repr
      ensures Valid() && fresh(app.repr - old(app.repr))
      ensures (State(), reply) == Handle(old(State()), req, verdict, txId)
    {
      if NeedsSignature(req) {
        reply := Verify(req, verdict);
        if reply != Answer(Done) {
          return;
        }
      }
      match req {
        case UnknownType => return UnknownRequest;
        case Query(_) => return Answer(Done);
        case AdminMint(to, amount) =>
          var outcome := Dispatch(Mint(to, amount), txId);
          return Answer(outcome);
        case AdminCreateAccount(x, initial) =>
          var outcome := Dispatch(CreateAccount(x, initial), txId);
          return Answer(outcome);
        case Domain(request) =>
          var outcome := ExecuteAndPublish(request, txId);
          return Answer(outcome);
      }
    }

    /** Done if the request may be handled. */
    method Verify(req: ServerRequest, verdict: Verdict) returns (reply: Reply)
      requires NeedsSignature(req)
      ensures reply == if ReadsEnvelope(req) && verdict.NoEnvelope? then Answer(Panicked)
                       else if Admitted(req, verdict) then Answer(Done) else VerificationFailed
    {
      if ReadsEnvelope(req) && verdict == NoEnvelope {
        return Answer(Panicked);
      }
      if verdict != Genuine {
        return VerificationFailed;
      }
      match req {
        case Domain(request) => return if SignerCanonical(request) then Answer(Done) else VerificationFailed;
        case _ => return Answer(Done);
      }
    }

    method ExecuteAndPublish(request: Request, txId: TxId) returns (outcome: Outcome)
      requires Valid()
      modifies this, app, app.repr
      ensures Valid() && fresh(app.repr - old(app.repr))
      ensures (app.Ledger(), outcome) == Execute(old(app.Ledger()), request, txId)
      ensures feeds == Announced(old(feeds), request, outcome)
    {
      outcome := Dispatch(request, txId);
      PublishIfDone(request, outcome);
    }

    method PublishIfDone(request: Request, outcome: Outcome)
      modifies this`feeds
      ensures feeds.Keys == old(feeds).Keys && feeds == Announced(old(feeds), request, outcome)
    {
      if outcome.Succeeded() {
        PublishEvent(request, outcome);
      }
    }

    method Dispatch(req: Request, txId: TxId) returns (outcome: Outcome)
      requires Valid()
      modifies app, app.repr
      ensures Valid() && fresh(app.repr - old(app.repr)) && feeds == old(feeds)
      ensures (app.Ledger(), outcome) == Execute(old(app.Ledger()), req, txId)
    {
      match req {
        case CreateAccount(_, _) => outcome := app.CreateAccountWithKeys(req, txId);
        case Mint(_, _) => outcome := app.MintFunds(req, txId);
        case Transfer(_, _, _, _) => outcome := app.TransferFunds(req, txId);
        case MintToken(_, _, _, _, _) => outcome := app.MintNewToken(req, txId);
        case AuthorizeTokenTransfer(_, _, _, _) => outcome := app.AuthorizeTransferOfToken(req, txId);
        case UnauthorizeTokenTransfer(_, _, _, _) => outcome := app.UnauthorizeTransferOfToken(req, txId);
        case TransferToken(_, _, _, _) => outcome := app.TransferHeldToken(req, txId);
        case BurnToken(_, _, _) => outcome := app.BurnHeldToken(req, txId);
        case ClawbackToken(_, _, _, _) => outcome := app.ClawbackHeldToken(req, txId);
        case FreezeToken(_, _, _, _) => outcome := app.FreezeHeldToken(req, txId);
        case UnfreezeToken(_, _, _, _) => outcome := app.UnfreezeHeldToken(req, txId);
      }
    }

    /** To every registered application, one topic per involved account; the applications in no
        particular order. */
    method PublishEvent(req: Request, outcome: Outcome)
      modifies this`feeds
      ensures feeds.Keys == old(feeds).Keys
      ensures feeds == match BuildEvent(req, outcome)
                       case Some(event) => Publish(old(feeds), event)
                       case None => old(feeds)
    {
      var built := BuildEvent(req, outcome);
      if built.None? {
        return;
      }
      var event := built.value;
      var accounts := InvolvedAccounts(event);
      var remaining := feeds.Keys;
      while remaining != {}
        invariant remaining <= feeds.Keys == old(feeds).Keys
        invariant forall v | v in feeds ::
                    feeds[v] == if v in remaining then old(feeds)[v] else PublishTo(old(feeds)[v], accounts, event)
      {
        var v :| v in remaining;
        var feed := PublishOn(feeds[v], accounts, event);
        feeds := feeds[v := feed];
        remaining := remaining - {v};
      }
      assert feeds == Publish(old(feeds), event);
    }

    method PublishOn(feed: Feed, accounts: seq<string>, event: Event) returns (published: Feed)
      ensures published == PublishTo(feed, accounts, event)
    {
      published := feed;
      for i := 0 to |accounts|
        invariant published == PublishTo(feed, accounts[..i], event)
      {
        assert accounts[..i + 1][..i] == accounts[..i];
        published := published[accounts[i] := Topic(published, accounts[i]) + [event]];
      }
      assert accounts[..|accounts|] == accounts;
    }
  }
}
