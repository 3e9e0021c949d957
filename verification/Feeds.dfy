/** The events an account's topic carries are the blocks added to its chain. */
module Feeds {
  import opened Wrappers
  import opened Ids
  import opened Transactions
  import opened Ledgers
  import opened Changes
  import opened Chains
  import opened Events
  import opened ServerSpec

  datatype Work = Work(request: ServerRequest, verdict: Verdict, txId: TxId)

  function HandleAll(s: ServerState, work: seq<Work>): ServerState {
    if work == [] then s
    else
      var last := work[|work| - 1];
      Handle(HandleAll(s, work[..|work| - 1]), last.request, last.verdict, last.txId).0
  }

  /** Requests that add blocks without announcing them. */
  predicate Unannounced(req: ServerRequest) {
    req.AdminMint? || req.AdminCreateAccount? || (req.Domain? && req.request.CreateAccount?)
  }

  /** Every block has its event. */
  predicate NoBurns(chain: seq<Transaction>) {
    forall trx | trx in chain :: !trx.BurnTx?
  }

  /** A topic without the extra notices a clawback address gets of token mints; when the minter is
      its own clawback address the event is there twice in a row. */
  function WithoutNotices(account: string, events: seq<Event>): seq<Event> {
    if events == [] then []
    else
      var last := events[|events| - 1];
      var earlier := events[..|events| - 1];
      if last.MintTokenEvent? && last.clawback == account then
        if last.account == account && earlier != [] && earlier[|earlier| - 1] == last
        then WithoutNotices(account, earlier[..|earlier| - 1]) + [last]
        else WithoutNotices(account, earlier)
      else WithoutNotices(account, earlier) + [last]
  }

  /** Over any work without unannounced requests: for every application and account, the topic,
      notices aside, is the sequence of blocks added to the chain, in order. */
  lemma {:induction false} FeedMirrorsChain(s: ServerState, work: seq<Work>, v: ScalegraphId, x: ScalegraphId)
    requires WellFormed(s.ledger) && v in s.feeds && Topic(s.feeds[v], Format(x)) == []
    requires forall w | w in work :: !Unannounced(w.request)
    ensures var s' := HandleAll(s, work);
            && WellFormed(s'.ledger) && v in s'.feeds
            && ChainOf(s.ledger, x) <= ChainOf(s'.ledger, x)
            && NoBurns(ChainOf(s'.ledger, x)[|ChainOf(s.ledger, x)|..])
            && WithoutNotices(Format(x), Topic(s'.feeds[v], Format(x)))
            == BlockEvents(ChainOf(s'.ledger, x)[|ChainOf(s.ledger, x)|..])
  {
    if work != [] {
      var n := |work| - 1;
      assert forall w | w in work[..n] :: w in work;
      assert work[n] in work;
      FeedMirrorsChain(s, work[..n], v, x);
      var before := HandleAll(s, work[..n]);
      StepMirrors(before, work[n], v, x);
      BlocksSince(ChainOf(s.ledger, x), ChainOf(before.ledger, x), Added(before, work[n], x));
    }
  }

  /** Everything published on the topic of x by some work. */
  function Announcements(s: ServerState, work: seq<Work>, x: ScalegraphId): seq<Event> {
    if work == [] then []
    else
      var n := |work| - 1;
      Announcements(s, work[..n], x) + Announcement(HandleAll(s, work[..n]), work[n], x)
  }

  /** The topic itself, notices included: every block's event as often as its account is concerned,
      in the order of the work, and nothing else. */
  lemma {:induction false} TopicExactly(s: ServerState, work: seq<Work>, v: ScalegraphId, x: ScalegraphId)
    requires WellFormed(s.ledger) && v in s.feeds
    requires forall w | w in work :: !Unannounced(w.request)
    ensures var s' := HandleAll(s, work);
            && WellFormed(s'.ledger) && v in s'.feeds
            && Topic(s'.feeds[v], Format(x)) == Topic(s.feeds[v], Format(x)) + Announcements(s, work, x)
  {
    if work != [] {
      var n := |work| - 1;
      assert forall w | w in work[..n] :: w in work;
      assert work[n] in work;
      TopicExactly(s, work[..n], v, x);
      var before := HandleAll(s, work[..n]);
      StepMirrors(before, work[n], v, x);
      Regroup(Topic(s.feeds[v], Format(x)), Announcements(s, work[..n], x), Announcement(before, work[n], x));
    } else {
      assert Topic(s.feeds[v], Format(x)) + [] == Topic(s.feeds[v], Format(x));
    }
  }

  lemma Regroup(a: seq<Event>, b: seq<Event>, c: seq<Event>)
    ensures a + b + c == a + (b + c)
  {
  }

  lemma {:induction false} BlocksSince(start: seq<Transaction>, chain: seq<Transaction>, added: seq<Transaction>)
    requires start <= chain && |added| <= 1 && NoBurns(chain[|start|..]) && NoBurns(added)
    ensures start <= chain + added && NoBurns((chain + added)[|start|..])
    ensures BlockEvents((chain + added)[|start|..]) == BlockEvents(chain[|start|..]) + BlockEvents(added)
  {
    var since := chain[|start|..];
    assert chain == start + since;
    assert chain + added == start + (since + added);
    assert (chain + added)[|start|..] == since + added;
    BlockEventsAppend(chain[|start|..], added);
  }

  /** The blocks one piece of work adds to the chain of x: none or one. */
  function Added(s: ServerState, w: Work, x: ScalegraphId): seq<Transaction> {
    if w.request.Domain? && Admitted(w.request, w.verdict)
    then AddedTo(ChangeOf(s.ledger, w.request.request, w.txId), x) else []
  }

  /** The events one piece of work publishes on the topic of x. */
  function Announcement(s: ServerState, w: Work, x: ScalegraphId): seq<Event> {
    if w.request.Domain? && Admitted(w.request, w.verdict)
    then AnnouncedOf(ChangeOf(s.ledger, w.request.request, w.txId), x) else []
  }

  lemma {:induction false} BlockEventsAppend(chain: seq<Transaction>, added: seq<Transaction>)
    requires |added| <= 1
    ensures BlockEvents(chain + added) == BlockEvents(chain) + BlockEvents(added)
  {
    if added == [] {
      assert chain + added == chain;
    } else {
      assert (chain + added)[..|chain|] == chain && added[..0] == [];
    }
  }

  lemma StepMirrors(s: ServerState, w: Work, v: ScalegraphId, x: ScalegraphId)
    requires WellFormed(s.ledger) && v in s.feeds && !Unannounced(w.request)
    ensures var s' := Handle(s, w.request, w.verdict, w.txId).0;
            && WellFormed(s'.ledger) && v in s'.feeds
            && ChainOf(s'.ledger, x) == ChainOf(s.ledger, x) + Added(s, w, x) && NoBurns(Added(s, w, x))
            && Topic(s'.feeds[v], Format(x)) == Topic(s.feeds[v], Format(x)) + Announcement(s, w, x)
            && WithoutNotices(Format(x), Topic(s'.feeds[v], Format(x)))
            == WithoutNotices(Format(x), Topic(s.feeds[v], Format(x))) + BlockEvents(Added(s, w, x))
  {
    if w.request.Domain? && Admitted(w.request, w.verdict) {
      var req := w.request.request;
      RequestKeepsWellFormed(s.ledger, req, w.txId);
      ChainGrows(s.ledger, req, w.txId, x);
      DomainHandled(s, w);
      AnnouncedMirrors(s.ledger, s.feeds, req, w.txId, v, x);
    } else {
      NothingHandled(s, w);
      assert Topic(s.feeds[v], Format(x)) + [] == Topic(s.feeds[v], Format(x));
    }
  }

  lemma DomainHandled(s: ServerState, w: Work)
    requires w.request.Domain? && Admitted(w.request, w.verdict)
    ensures var (l, outcome) := Execute(s.ledger, w.request.request, w.txId);
            Handle(s, w.request, w.verdict, w.txId).0 == ServerState(l, Announced(s.feeds, w.request.request, outcome))
    ensures SignerCanonical(w.request.request)
  {
  }

  lemma NothingHandled(s: ServerState, w: Work)
    requires !Unannounced(w.request) && !(w.request.Domain? && Admitted(w.request, w.verdict))
    ensures Handle(s, w.request, w.verdict, w.txId).0 == s
  {
  }

  /** The events a change publishes on the topic of x: none, one or two copies of one. */
  function AnnouncedOf(change: Change, x: ScalegraphId): seq<Event> {
    if change.Posting? && !change.trx.BurnTx? then Repeated(BlockEvent(change.trx), CopiesFor(change.trx, x)) else []
  }

  lemma AnnouncedMirrors(
    l: Ledger, feeds: map<ScalegraphId, Feed>, req: Request, txId: TxId, v: ScalegraphId, x: ScalegraphId)
    requires WellFormed(l) && v in feeds && !req.CreateAccount? && SignerCanonical(req)
    ensures var feeds', change := Announced(feeds, req, Execute(l, req, txId).1), ChangeOf(l, req, txId);
            && v in feeds' && NoBurns(AddedTo(change, x))
            && Topic(feeds'[v], Format(x)) == Topic(feeds[v], Format(x)) + AnnouncedOf(change, x)
            && WithoutNotices(Format(x), Topic(feeds'[v], Format(x)))
            == WithoutNotices(Format(x), Topic(feeds[v], Format(x))) + BlockEvents(AddedTo(change, x))
  {
    AnnouncesItsBlock(l, feeds, req, txId);
    PostedHasParties(l, req, txId);
    var feeds' := Announced(feeds, req, Execute(l, req, txId).1);
    ChangeMirrors(feeds[v], feeds'[v], ChangeOf(l, req, txId), x);
  }

  lemma PostedHasParties(l: Ledger, req: Request, txId: TxId)
    requires WellFormed(l) && !req.CreateAccount?
    ensures var change := ChangeOf(l, req, txId);
            && !change.Opening?
            && (change.Posting? ==>
                  !change.trx.BurnTx? && (change.trx.TwoSided() ==> change.trx.sender != change.trx.receiver))
  {
    OnlyCreationOpens(l, req, txId);
    if ChangeOf(l, req, txId).Posting? { PostingIsLawful(l, req, txId); }
  }

  /** A change on one topic of one application. */
  lemma ChangeMirrors(feed: Feed, feed': Feed, change: Change, x: ScalegraphId)
    requires !change.Opening?
    requires change.Posting? ==>
               !change.trx.BurnTx? && (change.trx.TwoSided() ==> change.trx.sender != change.trx.receiver)
    requires change.Posting? ==>
               feed' == PublishTo(feed, InvolvedAccounts(BlockEvent(change.trx)), BlockEvent(change.trx))
    requires !change.Posting? ==> feed' == feed
    ensures NoBurns(AddedTo(change, x))
    ensures Topic(feed', Format(x)) == Topic(feed, Format(x)) + AnnouncedOf(change, x)
    ensures WithoutNotices(Format(x), Topic(feed', Format(x)))
         == WithoutNotices(Format(x), Topic(feed, Format(x))) + BlockEvents(AddedTo(change, x))
  {
    if change.Posting? {
      PublishedMirrors(feed, change.trx, x);
      BlockEventsOne(change.trx);
    } else {
      assert Topic(feed, Format(x)) + [] == Topic(feed, Format(x));
    }
  }

  lemma OnlyCreationOpens(l: Ledger, req: Request, txId: TxId)
    ensures ChangeOf(l, req, txId).Opening? ==> req.CreateAccount?
  {
  }

  lemma AnnouncedOnSuccess(feeds: map<ScalegraphId, Feed>, req: Request, outcome: Outcome, change: Change)
    requires outcome.Succeeded() <==> change.Posting?
    requires change.Posting? ==> !change.trx.BurnTx? && BuildEvent(req, outcome) == Some(BlockEvent(change.trx))
    ensures Announced(feeds, req, outcome) == if change.Posting? then Publish(feeds, BlockEvent(change.trx)) else feeds
  {
  }

  lemma AnnouncesItsBlock(l: Ledger, feeds: map<ScalegraphId, Feed>, req: Request, txId: TxId)
    requires WellFormed(l) && !req.CreateAccount? && SignerCanonical(req)
    ensures ChangeOf(l, req, txId).Posting? ==> !ChangeOf(l, req, txId).trx.BurnTx?
    ensures Announced(feeds, req, Execute(l, req, txId).1) ==
            if ChangeOf(l, req, txId).Posting? then Publish(feeds, BlockEvent(ChangeOf(l, req, txId).trx)) else feeds
  {
    ExecuteIsOneChange(l, req, txId);
    OnlyCreationOpens(l, req, txId);
    EventIsBlockEvent(l, req, txId);
    AnnouncedOnSuccess(feeds, req, Execute(l, req, txId).1, ChangeOf(l, req, txId));
  }

  lemma BlockEventsOne(trx: Transaction)
    requires !trx.BurnTx?
    ensures BlockEvents([trx]) == [BlockEvent(trx)] && BlockEvents([]) == []
  {
    assert [trx][..0] == [];
  }

  lemma RequestKeepsWellFormed(l: Ledger, req: Request, txId: TxId)
    requires WellFormed(l)
    ensures WellFormed(Execute(l, req, txId).0)
  {
    ExecuteIsOneChange(l, req, txId);
    match ChangeOf(l, req, txId)
    case Posting(trx) =>
      PostingIsLawful(l, req, txId);
      PostingKeepsWellFormed(l, trx);
    case _ =>
  }

  /** The event built from the request is the one the block stands for. */
  lemma EventIsBlockEvent(l: Ledger, req: Request, txId: TxId)
    requires WellFormed(l) && SignerCanonical(req)
    ensures ChangeOf(l, req, txId).Posting? ==>
              && !ChangeOf(l, req, txId).trx.BurnTx?
              && BuildEvent(req, Execute(l, req, txId).1) == Some(BlockEvent(ChangeOf(l, req, txId).trx))
  {
    if req.MintToken? {
      ExecuteIsOneChange(l, req, txId);
    } else if ChangeOf(l, req, txId).Posting? {
      EventNeedsNoOutcome(l, req, txId, ChangeOf(l, req, txId).trx, Execute(l, req, txId).1);
    }
  }

  lemma EventNeedsNoOutcome(l: Ledger, req: Request, txId: TxId, trx: Transaction, outcome: Outcome)
    requires WellFormed(l) && TransactionOf(l, req, txId) == Some(trx) && !req.MintToken?
    ensures !trx.BurnTx? && BuildEvent(req, outcome) == Some(BlockEvent(trx))
  {
    if req.TransferToken? || req.ClawbackToken? {
      MovedTokenNamed(l, req, txId, trx);
    }
  }

  /** The token a request moves is the one it names. */
  lemma MovedTokenNamed(l: Ledger, req: Request, txId: TxId, trx: Transaction)
    requires WellFormed(l) && TransactionOf(l, req, txId) == Some(trx) && (req.TransferToken? || req.ClawbackToken?)
    ensures && (if req.TransferToken? then trx.TransferTokenTx? else trx.ClawbackTx?)
            && trx.sender == req.from && trx.receiver == req.to && trx.token.Id() == req.tokenId
  {
    PlaceholderTestExact(req.tokenId, l[req.from].store[req.tokenId]);
  }

  /** How often a block's event is published on the topic of x: once to each party, and once more to
      the clawback address of a token mint, which may be the minter. */
  function CopiesFor(trx: Transaction, x: ScalegraphId): nat {
    (if trx.Involves(x) then 1 else 0) + (if trx.MintTokenTx? && trx.token.clawback == Some(x) then 1 else 0)
  }

  /** What publishing a block's event does to the topic of x. */
  lemma PublishedMirrors(feed: Feed, trx: Transaction, x: ScalegraphId)
    requires !trx.BurnTx? && (trx.TwoSided() ==> trx.sender != trx.receiver)
    ensures
      var topic := Topic(feed, Format(x));
      var topic' := Topic(PublishTo(feed, InvolvedAccounts(BlockEvent(trx)), BlockEvent(trx)), Format(x));
      var asBlock := if trx.Involves(x) then [BlockEvent(trx)] else [];
      && topic' == topic + Repeated(BlockEvent(trx), CopiesFor(trx, x))
      && WithoutNotices(Format(x), topic') == WithoutNotices(Format(x), topic) + asBlock
  {
    if trx.MintTokenTx? { MintCopies(trx, x); } else { OtherCopies(trx, x); }
    PublishedAs(feed, InvolvedAccounts(BlockEvent(trx)), BlockEvent(trx), Format(x), CopiesFor(trx, x));
  }

  lemma PublishedAs(feed: Feed, accounts: seq<string>, event: Event, name: string, n: nat)
    requires n == Copies(accounts, name) <= 2
    requires n == 2 ==> event.MintTokenEvent? && event.account == event.clawback == name
    requires n == 1 ==> !(event.MintTokenEvent? && event.account == event.clawback == name)
    ensures
      var topic, topic' := Topic(feed, name), Topic(PublishTo(feed, accounts, event), name);
      var lone := n == 1 && !(event.MintTokenEvent? && event.clawback == name);
      && topic' == topic + Repeated(event, n)
      && WithoutNotices(name, topic') == WithoutNotices(name, topic) + if n == 2 || lone then [event] else []
  {
    TopicAfter(feed, accounts, event, name);
    NoticesAside(Topic(feed, name), event, name, n);
  }

  lemma MintCopies(trx: Transaction, x: ScalegraphId)
    requires trx.MintTokenTx?
    ensures Copies(InvolvedAccounts(BlockEvent(trx)), Format(x))
         == (if trx.receiver == x then 1 else 0) + (if trx.token.clawback == Some(x) then 1 else 0)
    ensures BlockEvent(trx).account == Format(x) <==> trx.receiver == x
    ensures BlockEvent(trx).clawback == Format(x) <==> trx.token.clawback == Some(x)
  {
    FormatInjective(trx.receiver, x);
    if trx.token.clawback.Some? { FormatInjective(trx.token.clawback.value, x); }
    CopiesOfTwo(Format(trx.receiver), AddressText(trx.token.clawback), Format(x));
    assert Format(x) != "";
  }

  lemma OtherCopies(trx: Transaction, x: ScalegraphId)
    requires !trx.BurnTx? && !trx.MintTokenTx? && (trx.TwoSided() ==> trx.sender != trx.receiver)
    ensures Copies(InvolvedAccounts(BlockEvent(trx)), Format(x)) == if trx.Involves(x) then 1 else 0
  {
    if trx.TwoSided() {
      FormatInjective(trx.sender, x);
      FormatInjective(trx.receiver, x);
      CopiesOfTwo(Format(trx.sender), Format(trx.receiver), Format(x));
    } else if trx.BurnTokenTx? {
      FormatInjective(trx.sender, x);
      CopiesOfTwo(Format(trx.sender), "", Format(x));
    } else {
      FormatInjective(trx.receiver, x);
      CopiesOfTwo(Format(trx.receiver), "", Format(x));
    }
  }

  lemma CopiesOfTwo(a: string, b: string, name: string)
    ensures Copies([a], name) == if a == name then 1 else 0
    ensures Copies([a, b], name) == (if a == name then 1 else 0) + (if b == name then 1 else 0)
    ensures Copies([b, a], name) == Copies([a, b], name)
  {
    assert [a][..0] == [] && [a, b][..1] == [a] && [b, a][..1] == [b] && [b][..0] == [];
  }

  function Copies(accounts: seq<string>, name: string): nat {
    if accounts == [] then 0
    else Copies(accounts[..|accounts| - 1], name) + if accounts[|accounts| - 1] == name then 1 else 0
  }

  function Repeated(event: Event, n: nat): seq<Event> {
    if n == 0 then [] else Repeated(event, n - 1) + [event]
  }

  lemma TopicGrows(feed: Feed, account: string, event: Event, name: string)
    ensures Topic(feed[account := Topic(feed, account) + [event]], name)
         == Topic(feed, name) + if account == name then [event] else []
  {
  }

  lemma {:induction false} TopicAfter(feed: Feed, accounts: seq<string>, event: Event, name: string)
    ensures Topic(PublishTo(feed, accounts, event), name) == Topic(feed, name) + Repeated(event, Copies(accounts, name))
  {
    if accounts != [] {
      var n := |accounts| - 1;
      TopicAfter(feed, accounts[..n], event, name);
      TopicGrows(PublishTo(feed, accounts[..n], event), accounts[n], event, name);
    } else {
      assert Topic(feed, name) + [] == Topic(feed, name);
    }
  }

  lemma NoticesAside(topic: seq<Event>, event: Event, name: string, n: nat)
    requires n <= 2
    requires n == 2 ==> event.MintTokenEvent? && event.account == event.clawback == name
    requires n == 1 ==> !(event.MintTokenEvent? && event.account == event.clawback == name)
    ensures WithoutNotices(name, topic + Repeated(event, n)) == WithoutNotices(name, topic) +
            if n == 2 || (n == 1 && !(event.MintTokenEvent? && event.clawback == name)) then [event] else []
  {
    if n == 0 {
      assert topic + [] == topic;
    } else if n == 1 {
      assert Repeated(event, 1) == [event];
      assert (topic + [event])[..|topic|] == topic;
    } else {
      assert Repeated(event, 1) == [event] && Repeated(event, 2) == [event] + [event];
      var events := topic + ([event] + [event]);
      assert events[..|events| - 1] == topic + [event];
      assert (topic + [event])[..|topic|] == topic;
    }
  }
}
