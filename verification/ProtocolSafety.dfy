/** What the protocol promises its callers, over every interleaving. */
module ProtocolSafety {
  import opened Ids
  import opened Transactions
  import opened Ledgers
  import opened Changes
  import opened Chains
  import opened Events
  import opened ServerSpec
  import opened Feeds
  import opened Admissions
  import opened Protocol

  /** The call with this identifier came back with this result. */
  predicate CameBack(s: State, id: CallId, result: Result) {
    id in s.phases && s.phases[id] == Returned(result)
  }

  /** A call that comes back with a response comes back with its own: the answer its request got in its
      turn, or the notice of shutdown for a drained request. */
  lemma {:induction false} CallersGetTheirOwnAnswer(
    world: ServerState, steps: seq<Step>, id: CallId, response: Response)
    requires CameBack(Reached(world, steps), id, Got(response))
    ensures var s := Reached(world, steps);
            && response.id == id
            && WorksKnown(s)
            && ((exists i ::
                   0 <= i < |s.handled| && s.handled[i] == id && response.reply == SequentialAnswer(world, s, i))
                || (id in s.drained && response.reply == ShuttingDown))
  {
    InvariantHolds(world, steps);
    OwnAnswerIsSequential(world, Reached(world, steps), id, response);
  }

  lemma OwnAnswerIsSequential(world: ServerState, s: State, id: CallId, response: Response)
    requires Safe(s) && Sequential(world, s) && OwnAnswer(s, id, response)
    ensures (exists i :: 0 <= i < |s.handled| && s.handled[i] == id && response.reply == SequentialAnswer(world, s, i))
         || (id in s.drained && response.reply == ShuttingDown)
  {
    if id in s.handled {
      var i :| 0 <= i < |s.handled| && s.handled[i] == id;
      assert AnsweredInTurn(world, s, i);
    }
  }

  /** Requests are taken in the order they were accepted, and each is handled or drained at most once
      and never both. */
  lemma {:induction false} HandledAtMostOnce(world: ServerState, steps: seq<Step>)
    ensures var s := Reached(world, steps);
            && NoDuplicates(s.handled + s.drained)
            && s.handled + InService(s.mode) + s.drained <= s.accepted
            && (s.mode.Stopped? ==> forall id: CallId | id in s.accepted :: id in s.replied <==> id !in s.queue)
  {
    InvariantHolds(world, steps);
    OrderMeans(Reached(world, steps));
  }

  lemma OrderMeans(s: State)
    requires Safe(s)
    ensures NoDuplicates(s.handled + s.drained)
    ensures s.handled + InService(s.mode) + s.drained <= s.accepted
    ensures s.mode.Stopped? ==> forall id: CallId | id in s.accepted :: id in s.replied <==> id !in s.queue
  {
    if s.mode.Stopped? { StoppedMeans(s); }
    var h, k, d := |s.handled|, |InService(s.mode)|, |s.drained|;
    forall i, j | 0 <= i < j < h + d
      ensures (s.handled + s.drained)[i] != (s.handled + s.drained)[j]
    {
      assert (s.handled + s.drained)[i] == s.accepted[if i < h then i else i + k];
      assert (s.handled + s.drained)[j] == s.accepted[if j < h then j else j + k];
    }
  }

  lemma StoppedMeans(s: State)
    requires Safe(s) && s.mode.Stopped?
    ensures forall id: CallId | id in s.accepted :: id in s.replied <==> id !in s.queue
  {
    assert s.accepted == (s.handled + s.drained) + s.queue;
    forall id: CallId | id in s.queue
      ensures id !in s.handled + s.drained
    {
      var i :| 0 <= i < |s.queue| && s.queue[i] == id;
      assert s.accepted[|s.handled + s.drained| + i] == id;
      assert forall m | 0 <= m < |s.handled + s.drained| :: s.accepted[m] == (s.handled + s.drained)[m];
    }
  }

  /** The registrations are exactly the calls in flight; the one-slot buffer never overflows; a reply is
      lost only when its caller had given up; a call that timed out sending had no effect at all. */
  lemma {:induction false} NothingLeaksNothingLost(world: ServerState, steps: seq<Step>, id: CallId)
    ensures var s := Reached(world, steps);
            && (id in s.phases <==> id < s.next)
            && (id in s.pending <==> id in s.phases && !s.phases[id].Closing? && !s.phases[id].Returned?)
            && s.overflowed == {}
            && (id in s.lost ==> exists r: Result :: !r.Got? && CameBack(s, id, r))
            && (id in s.replied && id in s.phases && s.phases[id].Waiting? ==> id in s.slots && s.slots[id].Some?)
            && (CameBack(s, id, SendTimeout) ==> id !in s.handled && id !in s.drained && id !in s.queue)
  {
    InvariantHolds(world, steps);
    SafeMeans(Reached(world, steps), id);
  }

  lemma SafeMeans(s: State, id: CallId)
    requires Safe(s)
    ensures id in s.phases <==> id < s.next
    ensures id in s.pending <==> id in s.phases && !s.phases[id].Closing? && !s.phases[id].Returned?
    ensures s.overflowed == {}
    ensures id in s.lost ==> exists r: Result :: !r.Got? && CameBack(s, id, r)
    ensures CameBack(s, id, SendTimeout) ==> id !in s.handled && id !in s.drained && id !in s.queue
  {
    if id in s.lost { assert CameBack(s, id, s.phases[id].result); }
    if CameBack(s, id, SendTimeout) { assert id !in s.accepted; }
  }

  // Shutdown.

  /** The n-th step finds the channel empty and ends the drain. */
  predicate DrainEnds(world: ServerState, steps: seq<Step>, n: nat)
    requires n < |steps|
  {
    steps[n].DrainEnd? && Enabled(Reached(world, steps[..n]), DrainEnd)
  }

  lemma ReachedNext(world: ServerState, steps: seq<Step>, step: Step)
    ensures var s := Reached(world, steps);
            Reached(world, steps + [step]) == if Enabled(s, step) then Perform(s, step) else s
  {
    assert (steps + [step])[..|steps|] == steps;
  }

  lemma DrainEndOnly(s: State)
    requires Enabled(s, DrainEnd)
    ensures Perform(s, DrainEnd) == s.(mode := Stopped) && s.queue == []
  {
  }

  lemma DrainEndStops(world: ServerState, steps: seq<Step>, n: nat)
    requires n < |steps| && DrainEnds(world, steps, n)
    ensures Reached(world, steps[..n + 1]) == Reached(world, steps[..n]).(mode := Stopped)
    ensures Reached(world, steps[..n]).queue == []
    ensures steps[..n + 1] + steps[n + 1..] == steps
  {
    assert steps[..n + 1] == steps[..n] + [DrainEnd];
    ReachedNext(world, steps[..n], DrainEnd);
    DrainEndOnly(Reached(world, steps[..n]));
  }

  /** The server has stopped exactly when some step ended the drain. */
  lemma {:induction false} StoppedExactly(world: ServerState, steps: seq<Step>)
    ensures Reached(world, steps).mode.Stopped? <==> exists n: nat :: n < |steps| && DrainEnds(world, steps, n)
  {
    if n: nat :| n < |steps| && DrainEnds(world, steps, n) {
      DrainEndStops(world, steps, n);
      StoppedForGood(world, steps[..n + 1], steps[n + 1..]);
    } else if Reached(world, steps).mode.Stopped? {
      StoppedByDrainEnd(world, steps);
    }
  }

  lemma {:induction false} StoppedByDrainEnd(world: ServerState, steps: seq<Step>)
    requires Reached(world, steps).mode.Stopped?
    ensures exists n: nat :: n < |steps| && DrainEnds(world, steps, n)
  {
    var last := |steps| - 1;
    if Reached(world, steps[..last]).mode.Stopped? {
      StoppedByDrainEnd(world, steps[..last]);
      var n: nat :| n < last && DrainEnds(world, steps[..last], n);
      assert steps[..last][..n] == steps[..n];
      assert DrainEnds(world, steps, n);
    } else {
      OnlyDrainEndStops(Reached(world, steps[..last]), steps[last]);
      assert DrainEnds(world, steps, last);
    }
  }

  lemma OnlyDrainEndStops(s: State, step: Step)
    requires Enabled(s, step) && !s.mode.Stopped? && Perform(s, step).mode.Stopped?
    ensures step.DrainEnd?
  {
  }

  /** Nothing is served or answered any more; what still enters the channel stays there. */
  predicate StaysStopped(s: State, s': State) {
    && s'.mode.Stopped? && s'.world == s.world
    && s'.handled == s.handled && s'.drained == s.drained
    && s'.answers == s.answers && s'.replied == s.replied
    && s.accepted <= s'.accepted && s'.queue == s.queue + s'.accepted[|s.accepted|..]
  }

  /** A server that stopped stays stopped, whatever steps follow. */
  lemma {:induction false} StoppedForGood(world: ServerState, steps: seq<Step>, more: seq<Step>)
    requires Reached(world, steps).mode.Stopped?
    ensures StaysStopped(Reached(world, steps), Reached(world, steps + more))
  {
    if more == [] {
      assert steps + more == steps;
    } else {
      var n := |more| - 1;
      StoppedForGood(world, steps, more[..n]);
      assert steps + more == steps + more[..n] + [more[n]];
      ReachedNext(world, steps + more[..n], more[n]);
      StoppedStep(Reached(world, steps), Reached(world, steps + more[..n]), more[n]);
    }
  }

  lemma StoppedStep(s: State, s': State, step: Step)
    requires StaysStopped(s, s')
    ensures Enabled(s', step) ==> StaysStopped(s, Perform(s', step))
  {
    if step.Enqueue? {
      assert (s'.accepted + [step.id])[|s.accepted|..] == s'.accepted[|s.accepted|..] + [step.id];
    }
  }

  /** Which accepted requests a stopped server has answered: exactly those that entered the channel
      before the drain ended. The others are what is left in it. */
  lemma {:induction false} AnsweredExactly(world: ServerState, steps: seq<Step>, n: nat, id: CallId)
    requires n < |steps| && DrainEnds(world, steps, n)
    ensures var s, drained := Reached(world, steps), Reached(world, steps[..n]);
            && drained.accepted <= s.accepted
            && s.queue == s.accepted[|drained.accepted|..]
            && (id in s.accepted ==> (id in s.replied <==> id in drained.accepted))
  {
    DrainEndStops(world, steps, n);
    StoppedForGood(world, steps[..n + 1], steps[n + 1..]);
    InvariantHolds(world, steps);
    StoppedAnswers(Reached(world, steps[..n]), Reached(world, steps), id);
  }

  lemma StoppedAnswers(drained: State, s: State, id: CallId)
    requires Safe(s) && drained.queue == [] && StaysStopped(drained, s)
    ensures s.queue == s.accepted[|drained.accepted|..]
    ensures id in s.accepted ==> (id in s.replied <==> id in drained.accepted)
  {
    StoppedMeans(s);
    if id in s.accepted { SplitByPosition(s.accepted, |drained.accepted|, id); }
  }

  lemma SplitByPosition(ids: seq<CallId>, n: nat, id: CallId)
    requires n <= |ids| && NoDuplicates(ids) && id in ids
    ensures id in ids[..n] <==> id !in ids[n..]
  {
    var i :| 0 <= i < |ids| && ids[i] == id;
    if i < n { assert ids[..n][i] == id; } else { assert ids[n..][i - n] == id; }
  }

  // The crash.

  /** A token mint or look-up sent without an envelope, or a clawback of a held token that has no
      clawback address. */
  predicate Crashes(l: Ledger, req: ServerRequest, verdict: Verdict) {
    || (ReadsEnvelope(req) && verdict.NoEnvelope?)
    || (req.Domain? && verdict.Genuine? && ClawsBackUnclaimable(l, req.request))
  }

  /** In any state of the protocol the server crashes exactly on such a request, when its turn comes. */
  lemma {:induction false} CrashesExactly(world: ServerState, steps: seq<Step>)
    requires Reached(world, steps).mode.Serving?
    ensures var s := Reached(world, steps);
            && Enabled(s, Serve)
            && (Perform(s, Serve).mode.Crashed? <==>
                  var w := s.works[s.mode.id];
                  Crashes(s.world.ledger, w.request, w.verdict))
  {
    InvariantHolds(world, steps);
    ServeCrashesExactly(Reached(world, steps));
  }

  lemma ServeCrashesExactly(s: State)
    requires Safe(s) && s.mode.Serving?
    ensures Enabled(s, Serve)
    ensures Perform(s, Serve).mode.Crashed? <==>
              var w := s.works[s.mode.id];
              Crashes(s.world.ledger, w.request, w.verdict)
  {
    assert s.mode.id in s.accepted;
    PanicsOn(s.world, s.works[s.mode.id]);
  }

  lemma PanicsOn(world: ServerState, w: Work)
    ensures Handle(world, w.request, w.verdict, w.txId).1 == Answer(Panicked) <==>
            Crashes(world.ledger, w.request, w.verdict)
  {
    match w.request
    case Domain(req) => PanicsExactly(world.ledger, req, w.txId);
    case AdminMint(to, amount) => PanicsExactly(world.ledger, Mint(to, amount), w.txId);
    case AdminCreateAccount(x, initial) => PanicsExactly(world.ledger, CreateAccount(x, initial), w.txId);
    case _ =>
  }

  /** A crash ends everything, the callers included. */
  lemma {:induction false} CrashIsFinal(world: ServerState, steps: seq<Step>, more: seq<Step>)
    requires Reached(world, steps).mode.Crashed?
    ensures Reached(world, steps + more) == Reached(world, steps)
  {
    if more == [] {
      assert steps + more == steps;
    } else {
      var n := |more| - 1;
      CrashIsFinal(world, steps, more[..n]);
      assert steps + more == steps + more[..n] + [more[n]];
      ReachedNext(world, steps + more[..n], more[n]);
    }
  }

  // Order in real time.

  lemma {:induction false} HistoryGrows(world: ServerState, steps: seq<Step>, more: seq<Step>)
    ensures Reached(world, steps).handled <= Reached(world, steps + more).handled
  {
    if more == [] {
      assert steps + more == steps;
    } else {
      var n := |more| - 1;
      HistoryGrows(world, steps, more[..n]);
      assert steps + more == steps + more[..n] + [more[n]];
      ReachedNext(world, steps + more[..n], more[n]);
      StepGrows(Reached(world, steps + more[..n]), more[n]);
    }
  }

  lemma StepGrows(s: State, step: Step)
    ensures Enabled(s, step) ==> s.handled <= Perform(s, step).handled
  {
    if Enabled(s, step) && step.ByCaller() {
      CallerStep(s, step);
    } else if Enabled(s, step) && step.InLoop() {
      LoopStep(s, step);
    }
  }

  /** A call that starts after another was handled is itself handled after it: together with the
      sequential answers above, the requests that change the ledger are linearizable. */
  lemma {:induction false} RealTimeOrder(
    world: ServerState, steps: seq<Step>, more: seq<Step>, a: CallId, b: CallId, i: nat, j: nat)
    requires a in Reached(world, steps).handled
    requires b >= Reached(world, steps).next
    requires i < |Reached(world, steps + more).handled| && j < |Reached(world, steps + more).handled|
    requires Reached(world, steps + more).handled[i] == a && Reached(world, steps + more).handled[j] == b
    ensures i < j
  {
    var s, s' := Reached(world, steps), Reached(world, steps + more);
    InvariantHolds(world, steps);
    InvariantHolds(world, steps + more);
    HistoryGrows(world, steps, more);
    OrderMeans(s');
    PositionsInOrder(s, s', a, b, i, j);
  }

  lemma PositionsInOrder(s: State, s': State, a: CallId, b: CallId, i: nat, j: nat)
    requires Safe(s) && NoDuplicates(s'.handled + s'.drained) && s.handled <= s'.handled
    requires a in s.handled && b >= s.next
    requires i < |s'.handled| && j < |s'.handled| && s'.handled[i] == a && s'.handled[j] == b
    ensures i < j
  {
    var m :| 0 <= m < |s.handled| && s.handled[m] == a;
    assert s'.handled[m] == a;
    assert (s'.handled + s'.drained)[m] == (s'.handled + s'.drained)[i];
    HandledHaveStarted(s);
    assert forall n | 0 <= n < |s.handled| :: s'.handled[n] == s.handled[n] < s.next;
  }

  lemma HandledHaveStarted(s: State)
    requires Safe(s)
    ensures forall n | 0 <= n < |s.handled| :: s.handled[n] < s.next
  {
    forall n | 0 <= n < |s.handled|
      ensures s.handled[n] < s.next
    {
      assert s.accepted[n] == s.handled[n] && s.accepted[n] in s.accepted;
    }
  }

  // The ledger behind the server.

  /** The ledger requests among the work, in order; queries and rejected requests drop out. */
  function RunOf(work: seq<Work>): Run {
    if work == [] then Start
    else
      var before := RunOf(work[..|work| - 1]);
      var w := work[|work| - 1];
      match w.request
      case AdminMint(to, amount) => Then(before, Mint(to, amount), w.txId)
      case AdminCreateAccount(x, initial) => Then(before, CreateAccount(x, initial), w.txId)
      case Domain(req) =>
        if Admitted(w.request, w.verdict) then Then(before, req, w.txId) else before
      case _ => before
  }

  lemma {:induction false} WorkIsARun(world: ServerState, work: seq<Work>)
    requires world.ledger == map[]
    ensures HandleAll(world, work).ledger == After(RunOf(work))
  {
    if work != [] {
      WorkIsARun(world, work[..|work| - 1]);
    }
  }

  /** So every theorem about runs of the ledger holds of the server's ledger in every interleaving. */
  lemma {:induction false} ServerLedgerIsReachable(world: ServerState, steps: seq<Step>)
    requires world.ledger == map[]
    ensures exists run :: Reached(world, steps).world.ledger == After(run)
  {
    InvariantHolds(world, steps);
    var s := Reached(world, steps);
    WorkIsARun(world, WorkDone(s, |s.handled|));
  }

  /** In every interleaving each block of each chain, but mints of funds, was asked for by a handled
      request with a genuine signature. */
  lemma {:induction false} EveryBlockSigned(world: ServerState, steps: seq<Step>, x: ScalegraphId, i: nat)
    requires WellFormed(world.ledger)
    requires var chain := ChainOf(Reached(world, steps).world.ledger, x);
             |ChainOf(world.ledger, x)| <= i < |chain| && !chain[i].MintTx?
    ensures var s := Reached(world, steps);
            && WorksKnown(s)
            && exists j: nat :: SignedAt(world, WorkDone(s, |s.handled|), j, ChainOf(s.world.ledger, x)[i])
  {
    InvariantHolds(world, steps);
    var s := Reached(world, steps);
    BlocksAreSigned(world, WorkDone(s, |s.handled|), x, i);
  }

  // The topics behind the server.

  predicate AllAnnounced(steps: seq<Step>) {
    forall step | step in steps :: step.Call? ==> !Unannounced(step.work.request)
  }

  ghost predicate WorksAnnounced(s: State) {
    forall id: CallId | id in s.works :: !Unannounced(s.works[id].request)
  }

  lemma {:induction false} WorkCameFromCalls(world: ServerState, steps: seq<Step>)
    requires AllAnnounced(steps)
    ensures WorksAnnounced(Reached(world, steps))
  {
    if steps != [] {
      var n := |steps| - 1;
      assert forall step | step in steps[..n] :: step in steps;
      WorkCameFromCalls(world, steps[..n]);
      assert steps[n] in steps;
      if Enabled(Reached(world, steps[..n]), steps[n]) { OnlyCallsBringWork(Reached(world, steps[..n]), steps[n]); }
    }
  }

  lemma OnlyCallsBringWork(s: State, step: Step)
    requires Enabled(s, step)
    ensures Perform(s, step).works == if step.Call? then s.works[s.next := step.work] else s.works
  {
    if step.ByCaller() {
      CallerStep(s, step);
    } else if step.InLoop() {
      LoopStep(s, step);
    }
  }

  /** In every interleaving of calls without unannounced requests: each topic of an application, notices
      aside, is the sequence of blocks its account's chain had gained when the application's bus closed,
      or has gained up to now if it has not. */
  lemma {:induction false} TopicsMirrorChains(world: ServerState, steps: seq<Step>, v: ScalegraphId, x: ScalegraphId)
    requires WellFormed(world.ledger) && v in world.feeds && Topic(world.feeds[v], Format(x)) == []
    requires AllAnnounced(steps)
    ensures var s := Reached(world, steps);
            && WorksKnown(s)
            && v in s.world.feeds && AnnouncedTo(s, v) <= |s.handled|
            && var start := ChainOf(world.ledger, x);
               var chain := ChainOf(HandleAll(world, WorkDone(s, AnnouncedTo(s, v))).ledger, x);
               && start <= chain <= ChainOf(s.world.ledger, x)
               && (v !in s.shut ==> chain == ChainOf(s.world.ledger, x))
               && WithoutNotices(Format(x), Topic(s.world.feeds[v], Format(x))) == BlockEvents(chain[|start|..])
  {
    InvariantHolds(world, steps);
    WorkCameFromCalls(world, steps);
    var s := Reached(world, steps);
    AnnouncingHolds(world, steps, v);
    AnnouncedMirrored(world, s, AnnouncedTo(s, v), v, x);
  }

  /** So the topic mirrors the chain as it is now exactly if no block was added since the bus closed. */
  lemma {:induction false} TopicsCurrentExactly(world: ServerState, steps: seq<Step>, v: ScalegraphId, x: ScalegraphId)
    requires WellFormed(world.ledger) && v in world.feeds && Topic(world.feeds[v], Format(x)) == []
    requires AllAnnounced(steps)
    ensures var s := Reached(world, steps);
            && WorksKnown(s) && v in s.world.feeds && AnnouncedTo(s, v) <= |s.handled|
            && var start, now := ChainOf(world.ledger, x), ChainOf(s.world.ledger, x);
               && start <= now
               && (WithoutNotices(Format(x), Topic(s.world.feeds[v], Format(x))) == BlockEvents(now[|start|..]) <==>
                     ChainOf(HandleAll(world, WorkDone(s, AnnouncedTo(s, v))).ledger, x) == now)
  {
    TopicsMirrorChains(world, steps, v, x);
    InvariantHolds(world, steps);
    WorkCameFromCalls(world, steps);
    var s := Reached(world, steps);
    AllWorkAnnounced(s);
    FeedMirrorsChain(world, WorkDone(s, |s.handled|), v, x);
    var chain := ChainOf(HandleAll(world, WorkDone(s, AnnouncedTo(s, v))).ledger, x);
    SameEventsSameChain(ChainOf(world.ledger, x), chain, ChainOf(s.world.ledger, x));
  }

  lemma SameEventsSameChain(start: seq<Transaction>, chain: seq<Transaction>, now: seq<Transaction>)
    requires start <= chain <= now && NoBurns(now[|start|..])
    ensures BlockEvents(chain[|start|..]) == BlockEvents(now[|start|..]) <==> chain == now
  {
    assert forall i | |start| <= i < |chain| :: chain[i] == now[|start|..][i - |start|];
    assert NoBurns(chain[|start|..]);
    assert |BlockEvents(chain[|start|..])| == |chain| - |start|;
    assert |BlockEvents(now[|start|..])| == |now| - |start|;
  }

  lemma AllWorkAnnounced(s: State)
    requires WorksKnown(s) && WorksAnnounced(s)
    ensures forall w | w in WorkDone(s, |s.handled|) :: !Unannounced(w.request)
  {
    var work := WorkDone(s, |s.handled|);
    forall w | w in work
      ensures !Unannounced(w.request)
    {
      var i :| 0 <= i < |work| && work[i] == w;
      assert s.handled[i] in s.handled;
    }
  }

  lemma AnnouncedMirrored(world: ServerState, s: State, n: nat, v: ScalegraphId, x: ScalegraphId)
    requires WellFormed(world.ledger) && v in world.feeds && Topic(world.feeds[v], Format(x)) == []
    requires Sequential(world, s) && WorksAnnounced(s) && FedUpTo(world, s, v, n)
    ensures var start, chain := ChainOf(world.ledger, x), ChainOf(HandleAll(world, WorkDone(s, n)).ledger, x);
            && start <= chain <= ChainOf(s.world.ledger, x)
            && WithoutNotices(Format(x), Topic(s.world.feeds[v], Format(x))) == BlockEvents(chain[|start|..])
  {
    var work := WorkDone(s, |s.handled|);
    assert WorkDone(s, n) == work[..n];
    AllWorkAnnounced(s);
    assert forall w | w in work[..n] :: w in work;
    FeedMirrorsChain(world, work[..n], v, x);
    ChainsOnlyGrow(world, work, n, v, x);
  }

  lemma {:induction false} ChainsOnlyGrow(world: ServerState, work: seq<Work>, n: nat, v: ScalegraphId, x: ScalegraphId)
    requires WellFormed(world.ledger) && v in world.feeds && n <= |work|
    requires forall w | w in work :: !Unannounced(w.request)
    ensures var s := HandleAll(world, work);
            && WellFormed(s.ledger) && v in s.feeds
            && ChainOf(HandleAll(world, work[..n]).ledger, x) <= ChainOf(s.ledger, x)
  {
    if work == [] {
    } else {
      var last := |work| - 1;
      assert work[last] in work && forall w | w in work[..last] :: w in work;
      ChainsOnlyGrow(world, work[..last], if n == |work| then 0 else n, v, x);
      StepMirrors(HandleAll(world, work[..last]), work[last], v, x);
      if n == |work| { assert work[..n] == work; } else { assert work[..last][..n] == work[..n]; }
    }
  }
}
