/** What the protocol can always do next: nobody is ever stuck, and every waiting call can be answered. */
module ProtocolProgress {
  import opened Wrappers
  import opened Ledgers
  import opened ServerSpec
  import opened Feeds
  import opened Protocol
  import opened ProtocolSafety

  // One step.

  /** In every reachable state a call can go on: into the channel exactly while fewer than 1000 requests
      wait there, back with its reply exactly once it is in the buffer, and out at any time. */
  lemma {:induction false} CallsCanGoOn(world: ServerState, steps: seq<Step>, id: CallId)
    requires !Reached(world, steps).mode.Crashed? && id in Reached(world, steps).phases
    ensures
      var s := Reached(world, steps);
      && id in s.slots
      && match s.phases[id]
         case Sending =>
           && (Enabled(s, Enqueue(id)) <==> |s.queue| < 1000)
           && Enabled(s, GiveUp(id, Cancelled)) && Enabled(s, GiveUp(id, SendTimeout))
         case Waiting =>
           && (Enabled(s, Receive(id)) <==> s.slots[id].Some?)
           && Enabled(s, GiveUp(id, Cancelled)) && Enabled(s, GiveUp(id, ResponseTimeout))
         case Leaving(_) => Enabled(s, Unregister(id))
         case Closing(_) => Enabled(s, Close(id))
         case Returned(_) => true
  {
    InvariantHolds(world, steps);
  }

  /** Where each of those steps leads. */
  lemma CallGoesOn(s: State, id: CallId, reason: Result)
    ensures Enabled(s, Enqueue(id)) ==>
              var s' := Perform(s, Enqueue(id)); s'.phases[id] == Waiting && s'.queue == s.queue + [id]
    ensures Enabled(s, GiveUp(id, reason)) ==> Perform(s, GiveUp(id, reason)).phases[id] == Leaving(reason)
    ensures Enabled(s, Receive(id)) ==> Perform(s, Receive(id)).phases[id] == Leaving(Got(s.slots[id].value))
    ensures Enabled(s, Unregister(id)) ==>
              Perform(s, Unregister(id)).phases[id] == Closing(s.phases[id].result)
    ensures Enabled(s, Close(id)) ==> Perform(s, Close(id)).phases[id] == Returned(s.phases[id].result)
  {
  }

  /** The loop can take a step in every reachable state but four: crashed, stopped, or idle with nothing
      to do. A new call and a shutdown are possible in any but a crashed one. */
  lemma {:induction false} LoopCanGoOn(world: ServerState, steps: seq<Step>, work: Work)
    requires !Reached(world, steps).mode.Crashed?
    ensures CanGoOn(Reached(world, steps), work)
  {
    InvariantHolds(world, steps);
    LoopEnabled(Reached(world, steps), work);
  }

  ghost predicate CanGoOn(s: State, work: Work) {
    && Enabled(s, Call(work)) && Enabled(s, Stop)
    && (forall v :: Enabled(s, CloseBus(v)) <==> v in s.world.feeds && v !in s.shut)
    && match s.mode
       case Listening => (Enabled(s, Take) <==> s.queue != []) && (Enabled(s, NoticeStop) <==> s.stopping)
       case Serving(_) => Enabled(s, Serve)
       case Replying(_) => Enabled(s, Reply)
       case Draining => if s.queue == [] then Enabled(s, DrainEnd) else Enabled(s, DrainTake)
       case DrainReplying(_) => Enabled(s, DrainReply)
       case _ => true
  }

  lemma LoopEnabled(s: State, work: Work)
    requires Safe(s) && !s.mode.Crashed?
    ensures CanGoOn(s, work)
  {
    LoopMoves(s);
  }

  /** Where the loop's steps lead, in any state that allows them. */
  lemma LoopGoesOn(s: State)
    ensures Enabled(s, Take) ==>
              Perform(s, Take).mode == Serving(s.queue[0]) && Perform(s, Take).queue == s.queue[1..]
    ensures Enabled(s, Reply) ==> Perform(s, Reply).mode == Listening
    ensures Enabled(s, DrainTake) ==>
              && Perform(s, DrainTake).mode == DrainReplying(Response(s.queue[0], ShuttingDown))
              && Perform(s, DrainTake).queue == s.queue[1..]
    ensures Enabled(s, DrainReply) ==> Perform(s, DrainReply).mode == Draining
  {
  }

  /** Handling a request leads to a reply, or to the end of the program. */
  lemma ServeGoesOn(s: State)
    ensures Enabled(s, Serve) ==>
              var w := s.works[s.mode.id];
              var reply := Handle(s.world, w.request, w.verdict, w.txId).1;
              Perform(s, Serve).mode ==
              if reply == Answer(Panicked) then Crashed(s.mode.id) else Replying(Response(s.mode.id, reply))
  {
  }

  /** A reply goes into the buffer unless the channel is closed or already full. */
  lemma ReplyGoesOut(s: State)
    ensures Enabled(s, Reply) || Enabled(s, DrainReply) ==>
              var id := s.mode.response.id;
              var s' := Perform(s, if s.mode.Replying? then Reply else DrainReply);
              s'.slots == if id !in s.closed && s.slots[id].None? then s.slots[id := Some(s.mode.response)] else s.slots
  {
  }

  /** Shutting down only raises a flag; seeing it starts the drain, which ends with the channel empty. */
  lemma ShutdownGoesOn(s: State)
    ensures Enabled(s, Stop) ==> Perform(s, Stop) == s.(stopping := true)
    ensures Enabled(s, NoticeStop) ==> Perform(s, NoticeStop) == s.(mode := Draining)
    ensures Enabled(s, DrainEnd) ==> s.queue == [] && Perform(s, DrainEnd) == s.(mode := Stopped)
  {
  }

  /** A new call starts out with an empty buffer, registered, under an identifier never used before. */
  lemma {:induction false} CallStarts(world: ServerState, steps: seq<Step>, work: Work)
    requires !Reached(world, steps).mode.Crashed?
    ensures
      var s := Reached(world, steps);
      var s' := Perform(s, Call(work));
      && s.next !in s.phases && s'.next == s.next + 1
      && s'.phases == s.phases[s.next := Sending] && s'.works == s.works[s.next := work]
      && s'.slots == s.slots[s.next := None] && s'.pending == s.pending + {s.next} && s'.queue == s.queue
  {
    InvariantHolds(world, steps);
  }

  lemma LoopMoves(s: State)
    requires Safe(s)
    ensures s.mode.Serving? ==> Enabled(s, Serve)
    ensures s.mode.Replying? ==> Enabled(s, Reply)
    ensures s.mode.DrainReplying? ==> Enabled(s, DrainReply)
  {
    if s.mode.Serving? {
      assert s.accepted[|s.handled|] == s.mode.id;
    } else if UnderWay(s.mode).Some? {
      AnsweredAreIn(s, UnderWay(s.mode).value.id);
    }
  }

  lemma AnsweredAreIn(s: State, id: CallId)
    requires Safe(s) && id in s.answers
    ensures id in s.accepted && In(s, id)
  {
    assert s.accepted == s.handled + (InService(s.mode) + s.drained + s.queue);
    assert id in s.handled || id in s.drained;
  }

  // A reply taken.

  /** A call whose reply is in its buffer can take it, and then comes back with just that reply. */
  lemma {:induction false} TakesItsReply(world: ServerState, steps: seq<Step>, id: CallId)
    requires var s := Reached(world, steps);
             !s.mode.Crashed? && id in s.phases && s.phases[id].Waiting? && id in s.slots && s.slots[id].Some?
    ensures CameBack(Reached(world, steps + [Receive(id), Unregister(id), Close(id)]), id,
                     Got(Reached(world, steps).slots[id].value))
  {
    var s := Reached(world, steps);
    CallsCanGoOn(world, steps, id);
    ReachedNext(world, steps, Receive(id));
    ReachedNext(world, steps + [Receive(id)], Unregister(id));
    ReachedNext(world, steps + [Receive(id)] + [Unregister(id)], Close(id));
    assert steps + [Receive(id)] + [Unregister(id)] + [Close(id)] == steps + [Receive(id), Unregister(id), Close(id)];
    ThreeSteps(s, id);
  }

  lemma ThreeSteps(s: State, id: CallId)
    requires Enabled(s, Receive(id))
    ensures
      var s1 := Received(s, id);
      && Perform(s, Receive(id)) == s1 && Enabled(s1, Unregister(id))
      && var s2 := Unregistered(s1, id);
         && Perform(s1, Unregister(id)) == s2 && Enabled(s2, Close(id))
         && CameBack(Perform(s2, Close(id)), id, Got(s.slots[id].value))
  {
  }

  // Every waiting call can be answered.

  /** Nothing left for the loop to do. */
  predicate Idle(s: State) {
    s.mode.Crashed? || s.mode.Stopped? || (s.mode.Listening? && s.queue == [])
  }

  function NextStep(s: State): Step {
    match s.mode
    case Listening => Take
    case Serving(_) => Serve
    case Replying(_) => Reply
    case Draining => if s.queue == [] then DrainEnd else DrainTake
    case DrainReplying(_) => DrainReply
    case _ => Stop
  }

  function Left(s: State): nat {
    3 * |s.queue| +
    match s.mode
    case Serving(_) => 2
    case Replying(_) => 1
    case Draining => 1
    case DrainReplying(_) => 2
    case _ => 0
  }

  lemma NextStepAdvances(s: State)
    requires Safe(s) && !Idle(s)
    ensures Enabled(s, NextStep(s))
    ensures var s' := Perform(s, NextStep(s));
            && Left(s') < Left(s) && s'.phases == s.phases
            && (s'.mode.Stopped? ==> s'.queue == [])
  {
    LoopMoves(s);
    match s.mode
    case Serving(_) => ServeAdvances(s);
    case Replying(response) => DeliveryAdvances(s, response, Listening);
    case DrainReplying(response) => DeliveryAdvances(s, response, Draining);
    case _ =>
  }

  lemma DeliveryAdvances(s: State, response: Response, mode: Mode)
    requires In(s, response.id)
    ensures var s' := Delivered(s, response, mode);
            s'.phases == s.phases && s'.queue == s.queue && s'.mode == mode
  {
    var id := response.id;
    if id in s.closed {
    } else if s.slots[id].Some? {
    }
  }

  lemma ServeAdvances(s: State)
    requires Enabled(s, Serve)
    ensures var s' := Perform(s, Serve);
            s'.phases == s.phases && s'.queue == s.queue && (s'.mode.Replying? || s'.mode.Crashed?)
  {
  }

  /** Left to itself the loop runs out of things to do, touching no call. */
  lemma {:induction false} LoopRunsDry(world: ServerState, steps: seq<Step>) returns (more: seq<Step>)
    ensures var s, s' := Reached(world, steps), Reached(world, steps + more);
            && s'.phases == s.phases && Idle(s')
            && (s'.mode.Crashed? || s.mode.Stopped? || s'.queue == [])
    ensures Idle(Reached(world, steps)) ==> more == []
    decreases Left(Reached(world, steps))
  {
    var s := Reached(world, steps);
    if Idle(s) {
      more := [];
      assert steps + more == steps;
    } else {
      NextReached(world, steps);
      var rest := LoopRunsDry(world, steps + [NextStep(s)]);
      more := [NextStep(s)] + rest;
      Shifted(world, steps, NextStep(s), rest);
    }
  }

  lemma Shifted(world: ServerState, steps: seq<Step>, step: Step, rest: seq<Step>)
    ensures Reached(world, steps + ([step] + rest)) == Reached(world, steps + [step] + rest)
  {
    assert steps + ([step] + rest) == steps + [step] + rest;
  }

  lemma {:induction false} NextReached(world: ServerState, steps: seq<Step>)
    requires !Idle(Reached(world, steps))
    ensures var s := Reached(world, steps);
            var s' := Reached(world, steps + [NextStep(s)]);
            && Left(s') < Left(s) && s'.phases == s.phases
            && !s.mode.Stopped? && (s'.mode.Stopped? ==> s'.queue == [])
  {
    InvariantHolds(world, steps);
    NextStepAdvances(Reached(world, steps));
    ReachedNext(world, steps, NextStep(Reached(world, steps)));
  }

  ghost predicate WaitersAccepted(s: State) {
    forall id: CallId | id in s.phases && s.phases[id].Waiting? :: id in s.accepted
  }

  lemma {:induction false} WaitingMeansAccepted(world: ServerState, steps: seq<Step>)
    ensures WaitersAccepted(Reached(world, steps))
  {
    if steps != [] {
      var n := |steps| - 1;
      WaitingMeansAccepted(world, steps[..n]);
      var s := Reached(world, steps[..n]);
      if Enabled(s, steps[n]) { StepKeepsWaiters(s, steps[n]); }
    }
  }

  lemma StepKeepsWaiters(s: State, step: Step)
    requires Enabled(s, step) && WaitersAccepted(s)
    ensures WaitersAccepted(Perform(s, step))
  {
    match step
    case Serve => ServeAdvances(s);
    case _ =>
  }

  /** Every call that waits while the server is up can still come back with a response, by steps of the
      server alone before its own last three, unless the server crashes on a request. */
  lemma {:induction false} CanBeAnswered(world: ServerState, steps: seq<Step>, id: CallId) returns (more: seq<Step>)
    requires var s := Reached(world, steps);
             !s.mode.Stopped? && id in s.phases && s.phases[id].Waiting?
    ensures Reached(world, steps + more).mode.Crashed? ||
            exists response :: CameBack(Reached(world, steps + more), id, Got(response))
  {
    var served := LoopRunsDry(world, steps);
    var s := Reached(world, steps + served);
    if s.mode.Crashed? {
      more := served;
    } else {
      InvariantHolds(world, steps + served);
      WaitingMeansAccepted(world, steps + served);
      DryMeansReplied(s, id);
      TakesItsReply(world, steps + served, id);
      more := served + [Receive(id), Unregister(id), Close(id)];
      assert steps + more == steps + served + [Receive(id), Unregister(id), Close(id)];
    }
  }

  lemma DryMeansReplied(s: State, id: CallId)
    requires Safe(s) && RepliesKept(s) && WaitersAccepted(s) && id in s.phases && s.phases[id].Waiting?
    requires (s.mode.Listening? || s.mode.Stopped?) && s.queue == []
    ensures id in s.slots && s.slots[id].Some?
  {
    assert s.accepted == s.handled + s.drained;
    assert id in s.replied;
  }
}
