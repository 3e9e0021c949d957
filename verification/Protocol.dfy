/** The request/response protocol between concurrent calls and the one server loop, as a transition
    system: every interleaving of sends, time-outs, cancellations, handling and shutdown is a run
    (internal/server/client.go, server.go). */
module Protocol {
  import opened Wrappers
  import opened Ids
  import opened Ledgers
  import opened ServerSpec
  import opened Feeds

  /** Drawn from one atomic counter, so no two calls share one. */
  type CallId = nat

  /** The request channel's buffer. */
  const CAPACITY := 1000

  datatype Response = Response(id: CallId, reply: Reply)

  datatype Result = Got(response: Response) | Cancelled | SendTimeout | ResponseTimeout

  /** A call registers its response channel, sends, waits, and on the way out first removes its
      registration and then closes the channel. */
  datatype Phase =
    | Sending
    | Waiting
    | Leaving(result: Result)
    | Closing(result: Result)
    | Returned(result: Result)
  {
    predicate HasResult() {
      Leaving? || Closing? || Returned?
    }
  }

  datatype Mode =
    | Listening
    | Serving(id: CallId)
    | Replying(response: Response)
    | Draining
    | DrainReplying(response: Response)
    | Stopped
    | Crashed(id: CallId)

  /** shut: the applications whose event bus is closed, and how many requests had been handled by then.
      From accepted on the fields are history: requests in the order they entered the channel, those
      handled, those drained, the server's answers, and what became of its replies. */
  datatype State = State(
    next: CallId,
    phases: map<CallId, Phase>,
    works: map<CallId, Work>,
    slots: map<CallId, Option<Response>>,
    closed: set<CallId>,
    pending: set<CallId>,
    queue: seq<CallId>,
    mode: Mode,
    stopping: bool,
    world: ServerState,
    shut: map<ScalegraphId, nat>,
    accepted: seq<CallId>,
    handled: seq<CallId>,
    drained: seq<CallId>,
    answers: map<CallId, Reply>,
    replied: set<CallId>,
    lost: set<CallId>,
    overflowed: set<CallId>)

  function Initial(world: ServerState): State {
    State(0, map[], map[], map[], {}, {}, [], Listening, false, world, map[], [], [], [], map[], {}, {}, {})
  }

  datatype Step =
    | Call(work: Work)
    | Enqueue(id: CallId)
    | GiveUp(id: CallId, reason: Result)
    | Receive(id: CallId)
    | Unregister(id: CallId)
    | Close(id: CallId)
    | Take
    | Serve
    | Reply
    | CloseBus(app: ScalegraphId)
    | Stop
    | NoticeStop
    | DrainTake
    | DrainReply
    | DrainEnd
  {
    /** Taken by a call. */
    predicate ByCaller() {
      Call? || Enqueue? || GiveUp? || Receive? || Unregister? || Close?
    }

    /** Taken by the server loop, short of handling a request. */
    predicate InLoop() {
      Take? || Reply? || Stop? || NoticeStop? || DrainTake? || DrainReply? || DrainEnd?
    }
  }

  predicate In(s: State, id: CallId) {
    id in s.phases && id in s.slots && id in s.works
  }

  predicate Enabled(s: State, step: Step) {
    && !s.mode.Crashed?
    && match step
       case Call(_) => true
       case Enqueue(id) => In(s, id) && s.phases[id].Sending? && |s.queue| < CAPACITY
       case GiveUp(id, reason) =>
         && In(s, id)
         && ((s.phases[id].Sending? && (reason.Cancelled? || reason.SendTimeout?)) ||
             (s.phases[id].Waiting? && (reason.Cancelled? || reason.ResponseTimeout?)))
       case Receive(id) => In(s, id) && s.phases[id].Waiting? && s.slots[id].Some?
       case Unregister(id) => In(s, id) && s.phases[id].Leaving?
       case Close(id) => In(s, id) && s.phases[id].Closing?
       case Take => s.mode.Listening? && s.queue != []
       case Serve => s.mode.Serving? && In(s, s.mode.id)
       case Reply => s.mode.Replying? && In(s, s.mode.response.id)
       case CloseBus(v) => v in s.world.feeds && v !in s.shut
       case Stop => true
       case NoticeStop => s.mode.Listening? && s.stopping
       case DrainTake => s.mode.Draining? && s.queue != []
       case DrainReply => s.mode.DrainReplying? && In(s, s.mode.response.id)
       case DrainEnd => s.mode.Draining? && s.queue == []
  }

  function Perform(s: State, step: Step): State
    requires Enabled(s, step)
  {
    match step
    case Call(work) => Called(s, work)
    case Enqueue(id) => Enqueued(s, id)
    case GiveUp(id, reason) => Decided(s, id, reason)
    case Receive(id) => Received(s, id)
    case Unregister(id) => Unregistered(s, id)
    case Close(id) => Closed(s, id)
    case Take => Taken(s)
    case Serve =>
      var w := s.works[s.mode.id];
      var (world, reply) := Handle(s.world, w.request, w.verdict, w.txId);
      if reply.Answer? && reply.outcome.Panicked? then s.(mode := Crashed(s.mode.id))
      else Served(s, Published(s, world), reply)
    case Reply => Delivered(s, s.mode.response, Listening)
    case CloseBus(v) => s.(shut := s.shut[v := |s.handled|])
    case Stop => s.(stopping := true)
    case NoticeStop => s.(mode := Draining)
    case DrainTake => Drained(s)
    case DrainReply => Delivered(s, s.mode.response, Draining)
    case DrainEnd => s.(mode := Stopped)
  }

  function Called(s: State, work: Work): State {
    s.(next := s.next + 1, phases := s.phases[s.next := Sending], works := s.works[s.next := work],
       slots := s.slots[s.next := None], pending := s.pending + {s.next})
  }

  function Enqueued(s: State, id: CallId): State {
    s.(phases := s.phases[id := Waiting], queue := s.queue + [id], accepted := s.accepted + [id])
  }

  function Decided(s: State, id: CallId, result: Result): State {
    s.(phases := s.phases[id := Leaving(result)])
  }

  function Received(s: State, id: CallId): State
    requires In(s, id) && s.slots[id].Some?
  {
    Decided(s, id, Got(s.slots[id].value)).(slots := s.slots[id := None])
  }

  function Unregistered(s: State, id: CallId): State
    requires In(s, id) && s.phases[id].HasResult()
  {
    s.(phases := s.phases[id := Closing(s.phases[id].result)], pending := s.pending - {id})
  }

  function Closed(s: State, id: CallId): State
    requires In(s, id) && s.phases[id].HasResult()
  {
    s.(phases := s.phases[id := Returned(s.phases[id].result)], closed := s.closed + {id})
  }

  function Taken(s: State): State
    requires s.queue != []
  {
    s.(queue := s.queue[1..], mode := Serving(s.queue[0]))
  }

  /** A closed bus refuses what is published on it. Shutting the server down closes every bus, in no
      particular order, before the loop is told. */
  function Published(s: State, world: ServerState): ServerState {
    world.(feeds :=
      map v | v in world.feeds :: if v in s.shut && v in s.world.feeds then s.world.feeds[v] else world.feeds[v])
  }

  function Served(s: State, world: ServerState, reply: Reply): State
    requires s.mode.Serving?
  {
    s.(world := world, handled := s.handled + [s.mode.id], answers := s.answers[s.mode.id := reply],
       mode := Replying(Response(s.mode.id, reply)))
  }

  function Drained(s: State): State
    requires s.queue != []
  {
    s.(queue := s.queue[1..], drained := s.drained + [s.queue[0]], answers := s.answers[s.queue[0] := ShuttingDown],
       mode := DrainReplying(Response(s.queue[0], ShuttingDown)))
  }

  /** A non-blocking send: on a closed channel it panics and the panic is swallowed; on a full one the
      reply is dropped. */
  function Delivered(s: State, response: Response, mode: Mode): State
    requires In(s, response.id)
  {
    var id := response.id;
    var s1 := s.(replied := s.replied + {id}, mode := mode);
    if id in s.closed then s1.(lost := s.lost + {id})
    else if s.slots[id].Some? then s1.(overflowed := s.overflowed + {id})
    else s1.(slots := s.slots[id := Some(response)])
  }

  /** Any sequence of steps is an interleaving; a step that is not enabled when its turn comes is passed over. */
  function Reached(world: ServerState, steps: seq<Step>): State {
    if steps == [] then Initial(world)
    else
      var s := Reached(world, steps[..|steps| - 1]);
      if Enabled(s, steps[|steps| - 1]) then Perform(s, steps[|steps| - 1]) else s
  }

  // What holds in every reachable state.

  function InService(mode: Mode): seq<CallId> {
    if mode.Serving? || mode.Crashed? then [mode.id] else []
  }

  ghost predicate NoDuplicates(ids: seq<CallId>) {
    forall i, j | 0 <= i < j < |ids| :: ids[i] != ids[j]
  }

  predicate OwnAnswer(s: State, id: CallId, response: Response) {
    response.id == id && id in s.answers && response.reply == s.answers[id]
  }

  /** Registrations are exactly the calls in flight, closed channels those of calls that returned. */
  ghost predicate Registered(s: State) {
    && (forall id: CallId :: id in s.phases <==> id < s.next)
    && s.slots.Keys == s.works.Keys == s.phases.Keys
    && (forall id: CallId :: id in s.pending <==> id in s.phases && !s.phases[id].Closing? && !s.phases[id].Returned?)
    && (forall id: CallId :: id in s.closed <==> id in s.phases && s.phases[id].Returned?)
  }

  /** First come, first served, each request at most once: what entered the channel is what was
      handled, then what is being served, then what was drained, then what still waits. */
  ghost predicate ServedInOrder(s: State) {
    && s.accepted == s.handled + InService(s.mode) + s.drained + s.queue
    && NoDuplicates(s.accepted)
    && |s.queue| <= CAPACITY
    && (s.mode.Listening? || s.mode.Serving? || s.mode.Replying? ==> s.drained == [])
    && (forall id: CallId | id in s.accepted :: id in s.phases && !s.phases[id].Sending?)
    && (forall id: CallId | id in s.phases && s.phases[id].HasResult() && s.phases[id].result.SendTimeout? ::
          id !in s.accepted)
  }

  /** The reply under way, if any. */
  function UnderWay(mode: Mode): Option<Response> {
    if mode.Replying? || mode.DrainReplying? then Some(mode.response) else None
  }

  /** Every reply is the answer to its own request; none overflows; only callers that gave up lose one. */
  ghost predicate RepliesFit(s: State) {
    && (forall id: CallId :: id in s.answers <==> id in s.handled || id in s.drained)
    && (forall id: CallId | id in s.drained :: id in s.answers && s.answers[id] == ShuttingDown)
    && s.replied == s.answers.Keys - (if UnderWay(s.mode).Some? then {UnderWay(s.mode).value.id} else {})
    && (UnderWay(s.mode).Some? ==> OwnAnswer(s, UnderWay(s.mode).value.id, UnderWay(s.mode).value))
    && (forall id: CallId | id in s.slots && s.slots[id].Some? ::
          id in s.replied && OwnAnswer(s, id, s.slots[id].value))
    && (forall id: CallId | id in s.phases && s.phases[id].HasResult() && s.phases[id].result.Got? ::
          id in s.replied && OwnAnswer(s, id, s.phases[id].result.response))
    && (forall id: CallId | id in s.lost :: id in s.phases && s.phases[id].Returned? && !s.phases[id].result.Got?)
    && s.overflowed == {}
  }

  /** A caller that still waits after the server has replied to it has the reply in its buffer. */
  ghost predicate RepliesKept(s: State) {
    forall id: CallId | id in s.replied ::
      id in s.phases && (s.phases[id].Waiting? ==> id in s.slots && s.slots[id].Some?)
  }

  predicate WorksKnown(s: State) {
    forall id: CallId | id in s.handled :: id in s.works
  }

  /** The first n requests handled. */
  function WorkDone(s: State, n: nat): seq<Work>
    requires n <= |s.handled| && WorksKnown(s)
  {
    seq(n, i requires 0 <= i < n => s.works[s.handled[i]])
  }

  /** The answer sequential handling gives to the i-th request handled. */
  function SequentialAnswer(world: ServerState, s: State, i: nat): Reply
    requires i < |s.handled| && WorksKnown(s)
  {
    var w := s.works[s.handled[i]];
    Handle(HandleAll(world, WorkDone(s, i)), w.request, w.verdict, w.txId).1
  }

  /** The ledger and every reply are those of handling the requests one after another. */
  ghost predicate Sequential(world: ServerState, s: State) {
    && WorksKnown(s)
    && s.world.ledger == HandleAll(world, WorkDone(s, |s.handled|)).ledger
    && forall i | 0 <= i < |s.handled| :: AnsweredInTurn(world, s, i)
  }

  ghost predicate AnsweredInTurn(world: ServerState, s: State, i: nat)
    requires i < |s.handled| && WorksKnown(s)
  {
    s.handled[i] in s.answers && s.answers[s.handled[i]] == SequentialAnswer(world, s, i)
  }

  /** How many of the requests handled were announced to an application: all while its bus was open. */
  function AnnouncedTo(s: State, v: ScalegraphId): nat {
    if v in s.shut then s.shut[v] else |s.handled|
  }

  /** An application's topics are those of handling the requests announced to it. */
  ghost predicate Announcing(world: ServerState, s: State, v: ScalegraphId) {
    WorksKnown(s) && FedUpTo(world, s, v, AnnouncedTo(s, v))
  }

  ghost predicate FedUpTo(world: ServerState, s: State, v: ScalegraphId, n: nat)
    requires WorksKnown(s)
  {
    && n <= |s.handled| && v in s.world.feeds
    && var feeds := HandleAll(world, WorkDone(s, n)).feeds;
       v in feeds && s.world.feeds[v] == feeds[v]
  }

  ghost predicate Safe(s: State) {
    Registered(s) && ServedInOrder(s) && RepliesFit(s)
  }

  /** Over all interleavings. */
  lemma {:induction false} InvariantHolds(world: ServerState, steps: seq<Step>)
    ensures Safe(Reached(world, steps)) && Sequential(world, Reached(world, steps))
    ensures RepliesKept(Reached(world, steps))
  {
    if steps != [] {
      var n := |steps| - 1;
      InvariantHolds(world, steps[..n]);
      var s := Reached(world, steps[..n]);
      if Enabled(s, steps[n]) {
        StepKeepsSafe(s, steps[n]);
        StepKeepsReplies(s, steps[n]);
        StepKeepsSequential(world, s, steps[n]);
      }
    }
  }

  lemma StepKeepsSafe(s: State, step: Step)
    requires Enabled(s, step) && Safe(s)
    ensures Safe(Perform(s, step))
  {
    if step.Serve? {
      var w := s.works[s.mode.id];
      var (world, reply) := Handle(s.world, w.request, w.verdict, w.txId);
      ServeKeepsSafe(s, Published(s, world), reply);
    } else if step.CloseBus? {
      BusKeepsSafe(s, s.shut[step.app := |s.handled|]);
    } else if step.InLoop() {
      LoopKeepsSafe(s, step);
    } else {
      ClientKeepsSafe(s, step);
    }
  }

  lemma BusKeepsSafe(s: State, shut: map<ScalegraphId, nat>)
    requires Safe(s)
    ensures Safe(s.(shut := shut))
  {
  }

  lemma ClientKeepsSafe(s: State, step: Step)
    requires Enabled(s, step) && Safe(s)
    requires step.ByCaller()
    ensures Safe(Perform(s, step))
  {
    match step
    case Call(work) => CallKeepsSafe(s, work);
    case Enqueue(id) => EnqueueKeepsSafe(s, id);
    case GiveUp(id, reason) => GiveUpKeepsSafe(s, id, reason);
    case Receive(id) => ReceiveKeepsSafe(s, id);
    case Unregister(id) => UnregisterKeepsSafe(s, id);
    case Close(id) => CloseKeepsSafe(s, id);
  }

  lemma LoopKeepsSafe(s: State, step: Step)
    requires Enabled(s, step) && Safe(s)
    requires step.InLoop()
    ensures Safe(Perform(s, step))
  {
    match step
    case Take => TakeKeepsSafe(s);
    case Reply => DeliverKeepsSafe(s, s.mode.response, Listening);
    case Stop => ModeKeepsSafe(s, s.mode, true);
    case NoticeStop => ModeKeepsSafe(s, Draining, s.stopping);
    case DrainTake => DrainKeepsSafe(s);
    case DrainReply => DeliverKeepsSafe(s, s.mode.response, Draining);
    case DrainEnd => ModeKeepsSafe(s, Stopped, s.stopping);
  }

  lemma CallKeepsSafe(s: State, work: Work)
    requires Safe(s)
    ensures Safe(Called(s, work))
  {
    CallKeepsOrder(s, work);
    CallKeepsReplies(s, work);
  }

  lemma CallKeepsOrder(s: State, work: Work)
    requires Registered(s) && ServedInOrder(s)
    ensures ServedInOrder(Called(s, work))
  {
  }

  lemma CallKeepsReplies(s: State, work: Work)
    requires Registered(s) && RepliesFit(s)
    ensures Registered(Called(s, work)) && RepliesFit(Called(s, work))
  {
  }

  lemma EnqueueKeepsSafe(s: State, id: CallId)
    requires Safe(s) && In(s, id) && s.phases[id].Sending? && |s.queue| < CAPACITY
    ensures Safe(Enqueued(s, id))
  {
    EnqueueKeepsOrder(s, id);
    EnqueueKeepsReplies(s, id);
  }

  lemma EnqueueKeepsOrder(s: State, id: CallId)
    requires Registered(s) && ServedInOrder(s) && In(s, id) && s.phases[id].Sending? && |s.queue| < CAPACITY
    ensures ServedInOrder(Enqueued(s, id))
  {
  }

  lemma EnqueueKeepsReplies(s: State, id: CallId)
    requires Registered(s) && RepliesFit(s) && In(s, id) && s.phases[id].Sending? && |s.queue| < CAPACITY
    ensures Registered(Enqueued(s, id)) && RepliesFit(Enqueued(s, id))
  {
  }

  lemma GiveUpKeepsSafe(s: State, id: CallId, reason: Result)
    requires Safe(s) && In(s, id) && !reason.Got?
    requires s.phases[id].Sending? || (s.phases[id].Waiting? && !reason.SendTimeout?)
    ensures Safe(Decided(s, id, reason))
  {
    GiveUpKeepsOrder(s, id, reason);
    GiveUpKeepsReplies(s, id, reason);
  }

  lemma GiveUpKeepsOrder(s: State, id: CallId, reason: Result)
    requires Registered(s) && ServedInOrder(s) && In(s, id) && !reason.Got?
    requires s.phases[id].Sending? || (s.phases[id].Waiting? && !reason.SendTimeout?)
    ensures ServedInOrder(Decided(s, id, reason))
  {
  }

  lemma GiveUpKeepsReplies(s: State, id: CallId, reason: Result)
    requires Registered(s) && RepliesFit(s) && In(s, id) && !reason.Got?
    requires s.phases[id].Sending? || (s.phases[id].Waiting? && !reason.SendTimeout?)
    ensures Registered(Decided(s, id, reason)) && RepliesFit(Decided(s, id, reason))
  {
  }

  lemma ReceiveKeepsSafe(s: State, id: CallId)
    requires Safe(s) && In(s, id) && s.phases[id].Waiting? && s.slots[id].Some?
    ensures Safe(Received(s, id))
  {
    ReceiveKeepsOrder(s, id);
    ReceiveKeepsReplies(s, id);
  }

  lemma ReceiveKeepsOrder(s: State, id: CallId)
    requires Registered(s) && ServedInOrder(s) && In(s, id) && s.phases[id].Waiting? && s.slots[id].Some?
    ensures ServedInOrder(Received(s, id))
  {
  }

  lemma ReceiveKeepsReplies(s: State, id: CallId)
    requires Registered(s) && RepliesFit(s) && In(s, id) && s.phases[id].Waiting? && s.slots[id].Some?
    ensures Registered(Received(s, id)) && RepliesFit(Received(s, id))
  {
  }

  lemma UnregisterKeepsSafe(s: State, id: CallId)
    requires Safe(s) && In(s, id) && s.phases[id].Leaving?
    ensures Safe(Unregistered(s, id))
  {
    UnregisterKeepsOrder(s, id);
    UnregisterKeepsReplies(s, id);
  }

  lemma UnregisterKeepsOrder(s: State, id: CallId)
    requires ServedInOrder(s) && In(s, id) && s.phases[id].Leaving?
    ensures ServedInOrder(Unregistered(s, id))
  {
  }

  lemma UnregisterKeepsReplies(s: State, id: CallId)
    requires Registered(s) && RepliesFit(s) && In(s, id) && s.phases[id].Leaving?
    ensures Registered(Unregistered(s, id)) && RepliesFit(Unregistered(s, id))
  {
  }

  lemma CloseKeepsSafe(s: State, id: CallId)
    requires Safe(s) && In(s, id) && s.phases[id].Closing?
    ensures Safe(Closed(s, id))
  {
    CloseKeepsOrder(s, id);
    CloseKeepsReplies(s, id);
  }

  lemma CloseKeepsOrder(s: State, id: CallId)
    requires ServedInOrder(s) && In(s, id) && s.phases[id].Closing?
    ensures ServedInOrder(Closed(s, id))
  {
  }

  lemma CloseKeepsReplies(s: State, id: CallId)
    requires Registered(s) && RepliesFit(s) && In(s, id) && s.phases[id].Closing?
    ensures Registered(Closed(s, id)) && RepliesFit(Closed(s, id))
  {
  }

  lemma TakeKeepsSafe(s: State)
    requires Safe(s) && s.mode.Listening? && s.queue != []
    ensures Safe(Taken(s))
  {
  }

  lemma ServeKeepsSafe(s: State, world: ServerState, reply: Reply)
    requires Safe(s) && s.mode.Serving?
    ensures Safe(Served(s, world, reply))
    ensures Safe(s.(mode := Crashed(s.mode.id)))
  {
    NextNotServed(s);
    ServeKeepsReplies(s, world, reply);
  }

  lemma ServeKeepsReplies(s: State, world: ServerState, reply: Reply)
    requires Registered(s) && RepliesFit(s) && s.mode.Serving?
    requires s.mode.id !in s.handled && s.mode.id !in s.drained
    ensures RepliesFit(Served(s, world, reply))
  {
  }

  lemma NextNotServed(s: State)
    requires ServedInOrder(s) && s.mode.Serving?
    ensures s.mode.id !in s.handled && s.mode.id !in s.drained
  {
    assert s.accepted == s.handled + [s.mode.id] + (s.drained + s.queue);
    NotServedYet(s.handled, s.mode.id, s.drained + s.queue);
  }

  lemma NotServedYet(before: seq<CallId>, id: CallId, rest: seq<CallId>)
    requires NoDuplicates(before + [id] + rest)
    ensures id !in before
  {
    var ids := before + [id] + rest;
    assert ids[|before|] == id;
    assert forall i | 0 <= i < |before| :: ids[i] == before[i];
  }

  lemma DeliverKeepsSafe(s: State, response: Response, mode: Mode)
    requires Safe(s) && UnderWay(s.mode) == Some(response) && In(s, response.id)
    requires mode == if s.mode.Replying? then Listening else Draining
    ensures Safe(Delivered(s, response, mode))
  {
    DeliverKeepsReplies(s, response, mode);
    DeliverKeepsOrder(s, response, mode);
  }

  /** The one-slot buffer is free when the server replies, and a closed channel belongs to a caller
      that had already given up. */
  lemma DeliverFindsRoom(s: State, response: Response)
    requires Registered(s) && RepliesFit(s) && UnderWay(s.mode) == Some(response) && In(s, response.id)
    ensures s.slots[response.id].None?
    ensures response.id in s.closed ==> s.phases[response.id].Returned? && !s.phases[response.id].result.Got?
  {
    assert response.id !in s.replied;
  }

  lemma DeliverKeepsReplies(s: State, response: Response, mode: Mode)
    requires Registered(s) && RepliesFit(s) && UnderWay(s.mode) == Some(response) && In(s, response.id)
    requires UnderWay(mode).None?
    ensures Registered(Delivered(s, response, mode)) && RepliesFit(Delivered(s, response, mode))
  {
    DeliverFindsRoom(s, response);
    var replied := s.replied + {response.id};
    assert replied == s.answers.Keys;
    if response.id in s.closed {
      LossKeepsReplies(s, response.id, mode, replied);
    } else {
      StoreKeepsReplies(s, response, mode, replied);
    }
  }

  lemma LossKeepsReplies(s: State, id: CallId, mode: Mode, replied: set<CallId>)
    requires Registered(s) && RepliesFit(s) && UnderWay(mode).None? && replied == s.answers.Keys
    requires id in s.phases && s.phases[id].Returned? && !s.phases[id].result.Got?
    ensures RepliesFit(s.(replied := replied, mode := mode, lost := s.lost + {id}))
  {
  }

  lemma StoreKeepsReplies(s: State, response: Response, mode: Mode, replied: set<CallId>)
    requires Registered(s) && RepliesFit(s) && UnderWay(mode).None? && replied == s.answers.Keys
    requires In(s, response.id) && OwnAnswer(s, response.id, response)
    ensures RepliesFit(s.(replied := replied, mode := mode, slots := s.slots[response.id := Some(response)]))
  {
  }

  lemma DeliverKeepsOrder(s: State, response: Response, mode: Mode)
    requires ServedInOrder(s) && UnderWay(s.mode).Some? && In(s, response.id)
    requires mode == if s.mode.Replying? then Listening else Draining
    ensures ServedInOrder(Delivered(s, response, mode))
  {
    var s' := Delivered(s, response, mode);
    assert s'.accepted == s.accepted && s'.phases == s.phases && s'.drained == s.drained;
  }

  lemma ModeKeepsSafe(s: State, mode: Mode, stopping: bool)
    requires Safe(s)
    requires mode == s.mode || (mode == Draining && s.mode.Listening?) || (mode == Stopped && s.mode.Draining?)
    ensures Safe(s.(mode := mode, stopping := stopping))
  {
  }

  lemma DrainKeepsSafe(s: State)
    requires Safe(s) && s.mode.Draining? && s.queue != []
    ensures Safe(Drained(s))
  {
    assert s.queue == [s.queue[0]] + s.queue[1..];
    assert s.accepted == (s.handled + s.drained) + [s.queue[0]] + s.queue[1..];
    NotServedYet(s.handled + s.drained, s.queue[0], s.queue[1..]);
  }

  lemma StepKeepsReplies(s: State, step: Step)
    requires Enabled(s, step) && Safe(s) && RepliesKept(s)
    ensures RepliesKept(Perform(s, step))
  {
    match step
    case Enqueue(id) => UnsentNotReplied(s, id);
    case Reply => ReplyIsKept(s, s.mode.response, Listening);
    case DrainReply => ReplyIsKept(s, s.mode.response, Draining);
    case Call(_) => CallerKeepsReplies(s, step);
    case GiveUp(_, _) => CallerKeepsReplies(s, step);
    case Receive(_) => CallerKeepsReplies(s, step);
    case Unregister(_) => CallerKeepsReplies(s, step);
    case Close(_) => CallerKeepsReplies(s, step);
    case _ => LoopLeavesBuffers(s, step);
  }

  lemma CallerKeepsReplies(s: State, step: Step)
    requires Enabled(s, step) && Registered(s) && RepliesKept(s)
    requires step.Call? || step.GiveUp? || step.Receive? || step.Unregister? || step.Close?
    ensures RepliesKept(Perform(s, step))
  {
    assert s.next !in s.replied;
  }

  lemma LoopLeavesBuffers(s: State, step: Step)
    requires Enabled(s, step)
    requires !step.ByCaller() && !step.Reply? && !step.DrainReply?
    ensures var s' := Perform(s, step);
            s'.replied == s.replied && s'.phases == s.phases && s'.slots == s.slots
  {
  }

  lemma UnsentNotReplied(s: State, id: CallId)
    requires Safe(s) && id in s.phases && s.phases[id].Sending?
    ensures id !in s.replied
  {
    assert forall other: CallId | other in s.replied :: other in s.accepted;
  }

  lemma ReplyIsKept(s: State, response: Response, mode: Mode)
    requires Safe(s) && RepliesKept(s) && UnderWay(s.mode) == Some(response) && In(s, response.id)
    ensures RepliesKept(Delivered(s, response, mode))
  {
    DeliverFindsRoom(s, response);
  }

  lemma StepKeepsSequential(world: ServerState, s: State, step: Step)
    requires Enabled(s, step) && Safe(s) && Sequential(world, s)
    ensures Sequential(world, Perform(s, step))
  {
    if step.Call? {
      CallKeepsSequential(world, s, step.work);
    } else if step.Serve? {
      ServeKeepsSequential(world, s);
    } else if step.DrainTake? {
      DrainKeepsSequential(world, s);
    } else {
      OtherStepsKeepHistory(s, step);
      SameHistory(world, s, Perform(s, step));
    }
  }

  /** What no caller touches. */
  lemma CallerStep(s: State, step: Step)
    requires Enabled(s, step) && step.ByCaller()
    ensures var s' := Perform(s, step);
            && s'.handled == s.handled && s'.world == s.world && s'.answers == s.answers && s'.shut == s.shut
            && s'.works == if step.Call? then s.works[s.next := step.work] else s.works
  {
  }

  lemma LoopStep(s: State, step: Step)
    requires Enabled(s, step) && step.InLoop()
    ensures var s' := Perform(s, step);
            && s'.handled == s.handled && s'.world == s.world && s'.works == s.works && s'.shut == s.shut
            && (s'.answers == s.answers || step.DrainTake?)
  {
    match step
    case Reply => DeliveredKeepsHistory(s, s.mode.response, Listening);
    case DrainReply => DeliveredKeepsHistory(s, s.mode.response, Draining);
    case _ =>
  }

  lemma DeliveredKeepsHistory(s: State, response: Response, mode: Mode)
    requires In(s, response.id)
    ensures var s' := Delivered(s, response, mode);
            && s'.handled == s.handled && s'.world == s.world && s'.works == s.works && s'.shut == s.shut
            && s'.answers == s.answers
  {
  }

  lemma OtherStepsKeepHistory(s: State, step: Step)
    requires Enabled(s, step) && !step.Call? && !step.Serve? && !step.DrainTake?
    ensures var s' := Perform(s, step);
            s'.handled == s.handled && s'.works == s.works && s'.world == s.world && s'.answers == s.answers
  {
    if step.ByCaller() {
      CallerStep(s, step);
    } else if step.InLoop() {
      LoopStep(s, step);
    }
  }

  lemma SameHistory(world: ServerState, s: State, s': State)
    requires Sequential(world, s)
    requires s'.handled == s.handled && s'.works == s.works && s'.world == s.world
    requires forall id: CallId | id in s.handled ::
               id in s.answers ==> id in s'.answers && s'.answers[id] == s.answers[id]
    ensures Sequential(world, s')
  {
    SameWork(s, s');
    forall i | 0 <= i < |s.handled|
      ensures AnsweredInTurn(world, s', i)
    {
      assert AnsweredInTurn(world, s, i);
    }
  }

  lemma SameWork(s: State, s': State)
    requires WorksKnown(s) && forall id: CallId | id in s.handled :: id in s'.works && s'.works[id] == s.works[id]
    requires s.handled <= s'.handled && WorksKnown(s')
    ensures forall n | 0 <= n <= |s.handled| :: WorkDone(s', n) == WorkDone(s, n)
  {
  }

  lemma CallKeepsSequential(world: ServerState, s: State, work: Work)
    requires Safe(s) && Sequential(world, s)
    ensures Sequential(world, Called(s, work))
  {
    var s' := Called(s, work);
    SameWork(s, s');
    forall i | 0 <= i < |s.handled|
      ensures AnsweredInTurn(world, s', i)
    {
      assert AnsweredInTurn(world, s, i);
    }
  }

  lemma DrainKeepsSequential(world: ServerState, s: State)
    requires Safe(s) && Sequential(world, s) && s.mode.Draining? && s.queue != []
    ensures Sequential(world, Drained(s))
  {
    assert s.accepted == (s.handled + s.drained) + [s.queue[0]] + s.queue[1..];
    NotServedYet(s.handled + s.drained, s.queue[0], s.queue[1..]);
    SameHistory(world, s, Drained(s));
  }

  lemma ServeKeepsSequential(world: ServerState, s: State)
    requires Safe(s) && Sequential(world, s) && s.mode.Serving? && In(s, s.mode.id)
    ensures var w := s.works[s.mode.id];
            var (world', reply) := Handle(s.world, w.request, w.verdict, w.txId);
            && Sequential(world, Served(s, Published(s, world'), reply))
            && Sequential(world, s.(mode := Crashed(s.mode.id)))
  {
    var w := s.works[s.mode.id];
    var (world', reply) := Handle(s.world, w.request, w.verdict, w.txId);
    ServedInTurn(world, s, Published(s, world'), reply);
    SameHistory(world, s, s.(mode := Crashed(s.mode.id)));
  }

  lemma ServedInTurn(world: ServerState, s: State, world': ServerState, reply: Reply)
    requires Safe(s) && Sequential(world, s) && s.mode.Serving? && In(s, s.mode.id)
    requires var w := s.works[s.mode.id];
             (world'.ledger, reply) == (Handle(s.world, w.request, w.verdict, w.txId).0.ledger,
                                        Handle(s.world, w.request, w.verdict, w.txId).1)
    ensures Sequential(world, Served(s, world', reply))
  {
    NextNotServed(s);
    LastServed(world, s, world', reply);
    EarlierServed(world, s, world', reply);
  }

  lemma EarlierServed(world: ServerState, s: State, world': ServerState, reply: Reply)
    requires Sequential(world, s) && s.mode.Serving? && In(s, s.mode.id) && s.mode.id !in s.handled
    ensures var s' := Served(s, world', reply);
            WorksKnown(s') && forall i | 0 <= i < |s.handled| :: AnsweredInTurn(world, s', i)
  {
    WorkExtends(s, world', reply);
    var s' := Served(s, world', reply);
    forall i | 0 <= i < |s.handled|
      ensures AnsweredInTurn(world, s', i)
    {
      EarlierAnswerStays(world, s, s', i);
    }
  }

  lemma LastServed(world: ServerState, s: State, world': ServerState, reply: Reply)
    requires s.mode.Serving? && In(s, s.mode.id) && WorksKnown(s)
    requires s.world.ledger == HandleAll(world, WorkDone(s, |s.handled|)).ledger
    requires var w := s.works[s.mode.id];
             (world'.ledger, reply) == (Handle(s.world, w.request, w.verdict, w.txId).0.ledger,
                                        Handle(s.world, w.request, w.verdict, w.txId).1)
    ensures var s' := Served(s, world', reply);
            && world'.ledger == HandleAll(world, WorkDone(s', |s'.handled|)).ledger
            && AnsweredInTurn(world, s', |s.handled|)
  {
    WorkExtends(s, world', reply);
    HandleByLedger(s.world, HandleAll(world, WorkDone(s, |s.handled|)), s.works[s.mode.id]);
  }

  /** What handling does to the ledger, and its reply, depend on the ledger alone. */
  lemma HandleByLedger(s: ServerState, s': ServerState, w: Work)
    requires s.ledger == s'.ledger
    ensures var h, h' := Handle(s, w.request, w.verdict, w.txId), Handle(s', w.request, w.verdict, w.txId);
            h.0.ledger == h'.0.ledger && h.1 == h'.1
  {
  }

  /** What handling does to one application's topics depends on the ledger and on those alone. */
  lemma HandleByFeed(s: ServerState, s': ServerState, w: Work, v: ScalegraphId)
    requires s.ledger == s'.ledger && v in s.feeds && v in s'.feeds && s.feeds[v] == s'.feeds[v]
    ensures var f := Handle(s, w.request, w.verdict, w.txId).0.feeds;
            var f' := Handle(s', w.request, w.verdict, w.txId).0.feeds;
            v in f && v in f' && f[v] == f'[v]
  {
    if w.request.Domain? && Admitted(w.request, w.verdict) {
      AnnouncedByFeed(s.feeds, s'.feeds, w.request.request, Execute(s.ledger, w.request.request, w.txId).1, v);
    }
  }

  lemma AnnouncedByFeed(
    feeds: map<ScalegraphId, Feed>, feeds': map<ScalegraphId, Feed>, req: Request, outcome: Outcome, v: ScalegraphId)
    requires v in feeds && v in feeds' && feeds[v] == feeds'[v]
    ensures v in Announced(feeds, req, outcome) && v in Announced(feeds', req, outcome)
    ensures Announced(feeds, req, outcome)[v] == Announced(feeds', req, outcome)[v]
  {
  }

  lemma HandleKeepsFeeds(s: ServerState, w: Work)
    ensures Handle(s, w.request, w.verdict, w.txId).0.feeds.Keys == s.feeds.Keys
  {
    if w.request.Domain? && Admitted(w.request, w.verdict) {
      AnnouncedKeepsFeeds(s.feeds, w.request.request, Execute(s.ledger, w.request.request, w.txId).1);
    }
  }

  lemma AnnouncedKeepsFeeds(feeds: map<ScalegraphId, Feed>, req: Request, outcome: Outcome)
    ensures Announced(feeds, req, outcome).Keys == feeds.Keys
  {
  }

  lemma EarlierAnswerStays(world: ServerState, s: State, s': State, i: nat)
    requires Sequential(world, s) && i < |s.handled| && s.handled <= s'.handled
    requires WorksKnown(s')
    requires s'.works == s.works && WorkDone(s', i) == WorkDone(s, i)
    requires s.handled[i] in s.answers ==>
               s.handled[i] in s'.answers && s'.answers[s.handled[i]] == s.answers[s.handled[i]]
    ensures AnsweredInTurn(world, s', i)
  {
    assert AnsweredInTurn(world, s, i);
  }

  lemma WorkExtends(s: State, world': ServerState, reply: Reply)
    requires s.mode.Serving? && s.mode.id in s.works && WorksKnown(s)
    ensures var s' := Served(s, world', reply);
            && (forall n | 0 <= n <= |s.handled| :: WorkDone(s', n) == WorkDone(s, n))
            && WorkDone(s', |s'.handled|)[..|s.handled|] == WorkDone(s, |s.handled|)
            && WorkDone(s', |s'.handled|)[|s.handled|] == s.works[s.mode.id]
  {
    SameWork(s, Served(s, world', reply));
  }

  // Topics.

  /** Over all interleavings. */
  lemma {:induction false} AnnouncingHolds(world: ServerState, steps: seq<Step>, v: ScalegraphId)
    requires v in world.feeds
    ensures Announcing(world, Reached(world, steps), v)
  {
    if steps != [] {
      var n := |steps| - 1;
      AnnouncingHolds(world, steps[..n], v);
      InvariantHolds(world, steps[..n]);
      var s := Reached(world, steps[..n]);
      if Enabled(s, steps[n]) { StepKeepsAnnouncing(world, s, steps[n], v); }
    }
  }

  lemma StepKeepsAnnouncing(world: ServerState, s: State, step: Step, v: ScalegraphId)
    requires Enabled(s, step) && Registered(s) && Sequential(world, s) && Announcing(world, s, v)
    ensures Announcing(world, Perform(s, step), v)
  {
    if step.Serve? {
      ServeKeepsAnnouncing(world, s, v);
    } else {
      NothingAnnounced(s, step, v);
      SameTopics(world, s, Perform(s, step), v);
    }
  }

  /** Closing a bus announces nothing and takes nothing back. */
  lemma NothingAnnounced(s: State, step: Step, v: ScalegraphId)
    requires Enabled(s, step) && Registered(s) && !step.Serve?
    ensures var s' := Perform(s, step);
            && s'.handled == s.handled && s'.world == s.world && AnnouncedTo(s', v) == AnnouncedTo(s, v)
            && (forall id: CallId | id in s.works :: id in s'.works && s'.works[id] == s.works[id])
  {
    if step.ByCaller() {
      CallerStep(s, step);
    } else if step.InLoop() {
      LoopStep(s, step);
    }
  }

  lemma SameTopics(world: ServerState, s: State, s': State, v: ScalegraphId)
    requires Announcing(world, s, v) && s'.handled == s.handled && s'.world == s.world
    requires forall id: CallId | id in s.handled :: id in s'.works && s'.works[id] == s.works[id]
    requires AnnouncedTo(s', v) == AnnouncedTo(s, v)
    ensures Announcing(world, s', v)
  {
    SameWork(s, s');
  }

  lemma ServeKeepsAnnouncing(world: ServerState, s: State, v: ScalegraphId)
    requires Enabled(s, Serve) && Sequential(world, s) && Announcing(world, s, v)
    ensures Announcing(world, Perform(s, Serve), v)
  {
    var w := s.works[s.mode.id];
    var (world', reply) := Handle(s.world, w.request, w.verdict, w.txId);
    if reply.Answer? && reply.outcome.Panicked? {
      SameTopics(world, s, s.(mode := Crashed(s.mode.id)), v);
    } else if v in s.shut {
      HandleKeepsFeeds(s.world, w);
      ClosedBusStays(world, s, world', reply, v);
    } else {
      HandleByFeed(s.world, HandleAll(world, WorkDone(s, |s.handled|)), w, v);
      OpenBusFed(world, s, world', reply, v);
    }
  }

  /** What is handled after a bus has closed does not reach its topics. */
  lemma ClosedBusStays(world: ServerState, s: State, world': ServerState, reply: Reply, v: ScalegraphId)
    requires s.mode.Serving? && In(s, s.mode.id) && Announcing(world, s, v) && v in s.shut && v in world'.feeds
    ensures Announcing(world, Served(s, Published(s, world'), reply), v)
  {
    WorkExtends(s, Published(s, world'), reply);
  }

  /** What is handled while it is open does. */
  lemma OpenBusFed(world: ServerState, s: State, world': ServerState, reply: Reply, v: ScalegraphId)
    requires s.mode.Serving? && In(s, s.mode.id) && Announcing(world, s, v) && v !in s.shut && v in world'.feeds
    requires var w := s.works[s.mode.id];
             var feeds := Handle(HandleAll(world, WorkDone(s, |s.handled|)), w.request, w.verdict, w.txId).0.feeds;
             v in feeds && world'.feeds[v] == feeds[v]
    ensures Announcing(world, Served(s, Published(s, world'), reply), v)
  {
    WorkExtends(s, Published(s, world'), reply);
  }
}
