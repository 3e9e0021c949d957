/** Concrete histories showing that the exceptions in the other theorems do happen. */
module Witnesses {
  import opened Wrappers
  import opened Ids
  import opened Tokens
  import opened Transactions
  import opened AccountSpec
  import opened Ledgers
  import opened Changes
  import opened Mbr
  import opened Replays
  import opened Drifts
  import opened ServerSpec
  import opened Feeds
  import opened Protocol
  import opened ProtocolSafety
  import opened ProtocolProgress

  /** Accounts a, b, c with these funds, and a token of b's. */
  function Setup(
    a: ScalegraphId, b: ScalegraphId, c: ScalegraphId, signature: Signature, freeze: Option<ScalegraphId>,
    txId: TxId): Run
  {
    Then(Then(Then(Then(Start,
      CreateAccount(a, 1.0), txId),
      CreateAccount(b, 1.0), txId),
      CreateAccount(c, 1.0), txId),
      MintToken("", signature, None, freeze, 0), txId)
  }

  lemma {:induction false} SetupState(
    a: ScalegraphId, b: ScalegraphId, c: ScalegraphId, signature: Signature, freeze: Option<ScalegraphId>, txId: TxId)
    requires a != b && a != c && b != c && signature.signerId == Format(b)
    ensures
      var l := After(Setup(a, b, c, signature, freeze, txId));
      var token := Token("", signature, None, freeze, 0, false);
      && a in l && b in l && c in l
      && l[a].Available() == l[c].Available() == 1.0 && l[c].mbr == 0.0
      && l[a].nonce == l[c].nonce == 0 && l[b].nonce == 1
      && l[a].store == l[c].store == map[] && l[b].store == map[token.Id() := token]
      && l[a].id == a && l[b].id == b && l[c].id == c
      && l[b].Owns(token.Id())
      && Stuck(Setup(a, b, c, signature, freeze, txId), c) == 0
  {
    var run := Setup(a, b, c, signature, freeze, txId);
    var r3 := run.before;
    var r2 := r3.before;
    var r1 := r2.before;
    var token := Token("", signature, None, freeze, 0, false);
    ParseFormat(b);
    SignedIsNotEmpty(token);
    assert Stuck(r1, c) == Stuck(Start, c) == 0;
    assert Stuck(r2, c) == Stuck(r1, c);
    assert Stuck(r3, c) == Stuck(r2, c);
    assert After(r1) == map[a := Posted(NewAccount(a), MintTx(txId, a, 1.0))];
    assert After(r2) == After(r1)[b := Posted(NewAccount(b), MintTx(txId, b, 1.0))];
    assert After(r3) == After(r2)[c := Posted(NewAccount(c), MintTx(txId, c, 1.0))];
    assert Refusal(After(r3)[b], MintTokenTx(txId, b, token)).None?;
    assert After(run) == After(r3)[b := Posted(After(r3)[b], MintTokenTx(txId, b, token))];
  }

  /** Account a authorises b's token, then repeats the authorisation naming c as the owner: the
      second request fails, and takes the first one's placeholder with it. */
  lemma {:induction false} RepeatedAuthorizationLosesPlaceholder(
    a: ScalegraphId, b: ScalegraphId, c: ScalegraphId, signature: Signature, txId: TxId)
    requires a != b && a != c && b != c && signature.signerId == Format(b)
    ensures
      var t := Encode(signature.value);
      var before := Then(Setup(a, b, c, signature, None, txId), AuthorizeTokenTransfer(a, b, t, 0), txId);
      var run := Then(before, AuthorizeTokenTransfer(a, c, t, 1), txId);
      && OutcomeOf(before).Done? && a in After(before) && After(before)[a].HasPlaceholder(t)
      && OutcomeOf(run).Failed? && a in After(run) && t !in After(run)[a].store
      && After(run)[a].mbr == After(before)[a].mbr - SLOT_COST
  {
    var setup := Setup(a, b, c, signature, None, txId);
    var t := Encode(signature.value);
    SetupState(a, b, c, signature, None, txId);
    var first := AuthorizeTokenTransfer(a, b, t, 0);
    var before := Then(setup, first, txId);
    WellFormedAfter(setup);
    ExecuteIsOneChange(After(setup), first, txId);
    assert ChangeOf(After(setup), first, txId) == Posting(AuthorizeTx(txId, a, b, t, 0));
    var second := AuthorizeTokenTransfer(a, c, t, 1);
    WellFormedAfter(before);
    ExecuteIsOneChange(After(before), second, txId);
    assert ChangeOf(After(before), second, txId) == Dropping(a, t);
  }

  /** Account c freezes b's token and b burns it: c's freeze charge is never given back. */
  lemma {:induction false} BurningFrozenKeepsCharge(
    a: ScalegraphId, b: ScalegraphId, c: ScalegraphId, signature: Signature, txId: TxId)
    requires a != b && a != c && b != c && signature.signerId == Format(b)
    ensures
      var t := Encode(signature.value);
      var frozen := Then(Setup(a, b, c, signature, Some(c), txId), FreezeToken(c, b, t, 0), txId);
      var run := Then(frozen, BurnToken(b, t, 1), txId);
      && OutcomeOf(run).Done? && b in After(run) && c in After(run)
      && After(run)[b].store == map[] && Stuck(run, c) == 1 && After(run)[c].mbr == FREEZE_COST
  {
    var t := Encode(signature.value);
    var frozen := Then(Setup(a, b, c, signature, Some(c), txId), FreezeToken(c, b, t, 0), txId);
    var run := Then(frozen, BurnToken(b, t, 1), txId);
    FrozenState(a, b, c, signature, txId);
    ParseFormat(b);
    SignedIsNotEmpty(After(frozen)[b].store[t]);
    assert Execute(After(frozen), run.request, txId) ==
           (After(frozen)[b := Posted(After(frozen)[b], BurnTokenTx(txId, b, t, 1))], Done);
  }

  lemma {:induction false} FrozenState(
    a: ScalegraphId, b: ScalegraphId, c: ScalegraphId, signature: Signature, txId: TxId)
    requires a != b && a != c && b != c && signature.signerId == Format(b)
    ensures
      var t := Encode(signature.value);
      var frozen := Then(Setup(a, b, c, signature, Some(c), txId), FreezeToken(c, b, t, 0), txId);
      var l := After(frozen);
      && b in l && c in l && l[b].id == b && l[b].nonce == 1 && l[c].mbr == FREEZE_COST
      && l[b].store == map[t := Token("", signature, None, Some(c), 0, true)] && Stuck(frozen, c) == 0
  {
    var setup := Setup(a, b, c, signature, Some(c), txId);
    var t := Encode(signature.value);
    var freeze := FreezeToken(c, b, t, 0);
    SetupState(a, b, c, signature, Some(c), txId);
    WellFormedAfter(setup);
    ExecuteIsOneChange(After(setup), freeze, txId);
    assert ChangeOf(After(setup), freeze, txId) == Posting(FreezeTx(txId, c, b, t, 0));
  }

  /** Straight after the drop above, a proper authorisation of the same token puts the placeholder back,
      and the chain replays to the account again although a placeholder was lost. */
  lemma {:induction false} LaterAuthorizationHeals(
    a: ScalegraphId, b: ScalegraphId, c: ScalegraphId, signature: Signature, txId: TxId)
    requires a != b && a != c && b != c && signature.signerId == Format(b)
    ensures
      var t := Encode(signature.value);
      var authorized := Then(Setup(a, b, c, signature, None, txId), AuthorizeTokenTransfer(a, b, t, 0), txId);
      var dropped := Then(authorized, AuthorizeTokenTransfer(a, c, t, 1), txId);
      var run := Then(dropped, AuthorizeTokenTransfer(a, b, t, 1), txId);
      && OutcomeOf(run).Done? && !NothingLost(run, a)
      && a in After(run) && Replay(a, Blocks(After(run)[a].chain)) == Some(After(run)[a])
  {
    var t := Encode(signature.value);
    var authorized := Then(Setup(a, b, c, signature, None, txId), AuthorizeTokenTransfer(a, b, t, 0), txId);
    var dropped := Then(authorized, AuthorizeTokenTransfer(a, c, t, 1), txId);
    var run := Then(dropped, AuthorizeTokenTransfer(a, b, t, 1), txId);
    AuthorizedState(a, b, c, signature, txId);
    RepeatDrops(authorized, a, c, t, txId);
    WellFormedAfter(dropped);
    ExecuteIsOneChange(After(dropped), run.request, txId);
    var trx := AuthorizeTx(txId, a, b, t, 1);
    FreshAuthorizationPosts(After(dropped), a, b, t, txId);
    AuthorizationHeals(After(authorized)[a], trx, t);
    LossIsADrop(run, a);
  }

  /** But not after a transfer of what the drop had set free: the replay still has it locked and refuses
      the transfer, and the authorisation that follows cannot mend that. */
  lemma {:induction false} AuthorizationAfterTransferDoesNotHeal(
    a: ScalegraphId, b: ScalegraphId, c: ScalegraphId, signature: Signature, txId: TxId)
    requires a != b && a != c && b != c && signature.signerId == Format(b)
    ensures
      var t := Encode(signature.value);
      var authorized := Then(Setup(a, b, c, signature, None, txId), AuthorizeTokenTransfer(a, b, t, 0), txId);
      var dropped := Then(authorized, AuthorizeTokenTransfer(a, c, t, 1), txId);
      var spent := Then(dropped, Transfer(a, c, 1.0, 1), txId);
      var funded := Then(spent, Mint(a, 1.0), txId);
      var run := Then(funded, AuthorizeTokenTransfer(a, b, t, 2), txId);
      && OutcomeOf(spent).Done? && OutcomeOf(funded).Done? && OutcomeOf(run).Done?
      && a in After(run) && After(run)[a].HasPlaceholder(t)
      && Replay(a, Blocks(After(run)[a].chain)) == None
  {
    var t := Encode(signature.value);
    var authorized := Then(Setup(a, b, c, signature, None, txId), AuthorizeTokenTransfer(a, b, t, 0), txId);
    var dropped := Then(authorized, AuthorizeTokenTransfer(a, c, t, 1), txId);
    AuthorizedState(a, b, c, signature, txId);
    DroppedState(authorized, a, b, c, t, txId);
    SpendingParts(dropped, a, b, c, t, txId);
  }

  predicate HasDropped(run: Run, a: ScalegraphId, b: ScalegraphId, c: ScalegraphId, t: TokenId) {
    var l := After(run);
    && a in l && b in l && c in l && l[a].id == a && l[b].id == b && l[c].id == c
    && l[a].nonce == 1 && l[a].Available() == 1.0 && t !in l[a].store && l[b].Owns(t)
    && LostBy(run, a) == Some({t})
  }

  lemma {:induction false} DroppedState(
    authorized: Run, a: ScalegraphId, b: ScalegraphId, c: ScalegraphId, t: TokenId, txId: TxId)
    requires a != b && a != c && b != c
    requires
      var l := After(authorized);
      && a in l && b in l && c in l && l[a].id == a && l[b].id == b && l[c].id == c
      && l[a].nonce == 1 && l[a].Available() == 0.5
      && l[a].store == map[t := EMPTY] && l[b].Owns(t) && !l[c].Owns(t)
      && Replay(a, Blocks(l[a].chain)) == Some(l[a])
    ensures HasDropped(Then(authorized, AuthorizeTokenTransfer(a, c, t, 1), txId), a, b, c, t)
  {
    ReplayDrifts(authorized, a);
    RepeatDrops(authorized, a, c, t, txId);
    assert {} + {t} == {t};
  }

  lemma {:induction false} SpendingParts(
    dropped: Run, a: ScalegraphId, b: ScalegraphId, c: ScalegraphId, t: TokenId, txId: TxId)
    requires a != b && a != c && b != c && HasDropped(dropped, a, b, c, t)
    ensures
      var spent := Then(dropped, Transfer(a, c, 1.0, 1), txId);
      var funded := Then(spent, Mint(a, 1.0), txId);
      var run := Then(funded, AuthorizeTokenTransfer(a, b, t, 2), txId);
      && OutcomeOf(spent).Done? && OutcomeOf(funded).Done? && OutcomeOf(run).Done?
      && a in After(run) && After(run)[a].HasPlaceholder(t)
      && Replay(a, Blocks(After(run)[a].chain)) == None
  {
    var spent := Then(dropped, Transfer(a, c, 1.0, 1), txId);
    var funded := Then(spent, Mint(a, 1.0), txId);
    var run := Then(funded, AuthorizeTokenTransfer(a, b, t, 2), txId);
    assert After(spent) == Execute(After(dropped), spent.request, txId).0;
    assert After(funded) == Execute(After(spent), funded.request, txId).0;
    SpentAndFunded(After(dropped), a, b, c, t, txId);
    AuthorizationGranted(After(funded), a, b, t, txId);
    SpendingBreaks(dropped, a, b, c, t, txId);
    PartedForGood(run, spent, a);
    ReplayDrifts(run, a);
  }

  lemma SpentAndFunded(l: Ledger, a: ScalegraphId, b: ScalegraphId, c: ScalegraphId, t: TokenId, txId: TxId)
    requires a in l && b in l && c in l && a != b && a != c && b != c
    requires l[a].id == a && l[b].id == b && l[c].id == c
    requires l[a].nonce == 1 && l[a].Available() == 1.0 && t !in l[a].store && l[b].Owns(t)
    ensures
      var (spent, outcome) := Execute(l, Transfer(a, c, 1.0, 1), txId);
      var (funded, outcome') := Execute(spent, Mint(a, 1.0), txId);
      && outcome.Done? && outcome'.Done?
      && a in funded && b in funded && funded[a].id == a && funded[b] == l[b]
      && funded[a].nonce == 2 && funded[a].Available() == 1.0 && t !in funded[a].store
  {
    var trx := TransferTx(txId, a, c, 1.0);
    assert Execute(l, Transfer(a, c, 1.0, 1), txId) == (l[a := Posted(l[a], trx)][c := Posted(l[c], trx)], Done);
  }

  lemma AuthorizationGranted(l: Ledger, a: ScalegraphId, b: ScalegraphId, t: TokenId, txId: TxId)
    requires a in l && b in l && a != b && l[a].id == a && l[b].id == b
    requires l[a].nonce == 2 && l[a].Available() == 1.0 && t !in l[a].store && l[b].Owns(t)
    ensures
      var (granted, outcome) := Execute(l, AuthorizeTokenTransfer(a, b, t, 2), txId);
      outcome.Done? && a in granted && granted[a].HasPlaceholder(t)
  {
    var trx := AuthorizeTx(txId, a, b, t, 2);
    assert Execute(l, AuthorizeTokenTransfer(a, b, t, 2), txId) ==
           (l[a := Posted(l[a], trx)][b := Posted(l[b], trx)], Done);
  }

  lemma {:induction false} SpendingBreaks(
    dropped: Run, a: ScalegraphId, b: ScalegraphId, c: ScalegraphId, t: TokenId, txId: TxId)
    requires a != b && a != c && b != c && HasDropped(dropped, a, b, c, t)
    ensures LostBy(Then(dropped, Transfer(a, c, 1.0, 1), txId), a) == None
  {
    var trx := TransferTx(txId, a, c, 1.0);
    assert ChangeOf(After(dropped), Transfer(a, c, 1.0, 1), txId) == Posting(trx);
    assert !Bears(After(dropped)[a], {t}, trx);
  }

  lemma FreshAuthorizationPosts(l: Ledger, a: ScalegraphId, b: ScalegraphId, t: TokenId, txId: TxId)
    requires a in l && b in l && a != b && l[a].id == a && l[b].id == b
    requires l[a].nonce == 1 && l[a].Available() >= SLOT_COST && t !in l[a].store && l[b].Owns(t)
    ensures ChangeOf(l, AuthorizeTokenTransfer(a, b, t, 1), txId) == Posting(AuthorizeTx(txId, a, b, t, 1))
  {
  }

  lemma {:induction false} RepeatDrops(before: Run, a: ScalegraphId, c: ScalegraphId, t: TokenId, txId: TxId)
    requires RepeatsAuthorization(After(before), AuthorizeTokenTransfer(a, c, t, 1))
    ensures var run := Then(before, AuthorizeTokenTransfer(a, c, t, 1), txId);
            && After(run) == After(before)[a := Dropped(After(before)[a], t)]
            && !NothingLost(run, a)
            && LostBy(run, a) == LostMore(LostBy(before, a), t)
  {
    var run := Then(before, AuthorizeTokenTransfer(a, c, t, 1), txId);
    WellFormedAfter(before);
    FailureLeavesNoTrace(After(before), run.request, txId);
    DropsExactly(After(before), run.request, txId);
    LossIsADrop(run, a);
  }

  lemma {:induction false} AuthorizedState(
    a: ScalegraphId, b: ScalegraphId, c: ScalegraphId, signature: Signature, txId: TxId)
    requires a != b && a != c && b != c && signature.signerId == Format(b)
    ensures
      var t := Encode(signature.value);
      var authorized := Then(Setup(a, b, c, signature, None, txId), AuthorizeTokenTransfer(a, b, t, 0), txId);
      var l := After(authorized);
      && a in l && b in l && c in l && l[a].id == a && l[b].id == b && l[c].id == c
      && l[a].nonce == 1 && l[a].Available() == 0.5
      && l[a].store == map[t := EMPTY] && l[b].Owns(t) && !l[c].Owns(t)
      && Replay(a, Blocks(l[a].chain)) == Some(l[a])
  {
    var setup := Setup(a, b, c, signature, None, txId);
    var t := Encode(signature.value);
    SetupState(a, b, c, signature, None, txId);
    var request := AuthorizeTokenTransfer(a, b, t, 0);
    var authorized := Then(setup, request, txId);
    WellFormedAfter(setup);
    ExecuteIsOneChange(After(setup), request, txId);
    assert ChangeOf(After(setup), request, txId) == Posting(AuthorizeTx(txId, a, b, t, 0));
    SetupNeverRepeats(a, b, c, signature, txId);
    ReplaysExactly(authorized, a);
  }

  lemma {:induction false} SetupNeverRepeats(
    a: ScalegraphId, b: ScalegraphId, c: ScalegraphId, signature: Signature, txId: TxId)
    requires a != b && a != c && b != c && signature.signerId == Format(b)
    ensures NeverRepeats(Setup(a, b, c, signature, None, txId), a)
  {
    var run := Setup(a, b, c, signature, None, txId);
    assert NeverRepeats(Start, a);
    assert NeverRepeats(run.before.before.before, a);
    assert NeverRepeats(run.before.before, a);
    assert NeverRepeats(run.before, a);
  }

  /** Account c claws back b's token, which has no clawback address: the program panics. */
  lemma {:induction false} ClawbackWithoutAddressPanics(
    a: ScalegraphId, b: ScalegraphId, c: ScalegraphId, signature: Signature, txId: TxId)
    requires a != b && a != c && b != c && signature.signerId == Format(b)
    ensures
      var run := Then(Setup(a, b, c, signature, None, txId), ClawbackToken(b, c, Encode(signature.value), 0), txId);
      OutcomeOf(run).Panicked?
  {
    SetupState(a, b, c, signature, None, txId);
  }

  /** Sent to the server, that request ends it, whoever else is calling. */
  lemma {:induction false} ClawbackWithoutAddressCrashesServer(
    a: ScalegraphId, b: ScalegraphId, c: ScalegraphId, signature: Signature, txId: TxId)
    requires a != b && a != c && b != c && signature.signerId == Format(b)
    ensures
      var world := ServerState(After(Setup(a, b, c, signature, None, txId)), map[]);
      var work := Work(Domain(ClawbackToken(b, c, Encode(signature.value), 0)), Genuine, txId);
      Reached(world, [Call(work), Enqueue(0), Take, Serve]).mode == Crashed(0)
  {
    var world := ServerState(After(Setup(a, b, c, signature, None, txId)), map[]);
    var work := Work(Domain(ClawbackToken(b, c, Encode(signature.value), 0)), Genuine, txId);
    ClawbackWithoutAddressPanics(a, b, c, signature, txId);
    FirstRequestTaken(world, work);
    var taken := [Call(work), Enqueue(0), Take];
    ReachedNext(world, taken, Serve);
    assert taken + [Serve] == [Call(work), Enqueue(0), Take, Serve];
  }

  lemma {:induction false} FirstRequestTaken(world: ServerState, work: Work)
    ensures var s := Reached(world, [Call(work), Enqueue(0), Take]);
            && s.mode == Serving(0) && s.world == world && In(s, 0) && s.works[0] == work
            && 0 !in s.closed && s.slots[0] == None && s.phases[0] == Waiting
  {
    FirstRequestWaits(world, work);
    ReachedNext(world, [Call(work), Enqueue(0)], Take);
    assert [Call(work), Enqueue(0)] + [Take] == [Call(work), Enqueue(0), Take];
  }

  lemma {:induction false} FirstRequestWaits(world: ServerState, work: Work)
    ensures var s := Reached(world, [Call(work), Enqueue(0)]);
            && s.mode == Listening && s.queue == [0] && s.world == world && In(s, 0) && s.works[0] == work
            && 0 !in s.closed && s.slots[0] == None && s.phases[0] == Waiting
  {
    RequestEnters(world, [], work);
    assert [] + [Call(work)] + [Enqueue(0)] == [Call(work), Enqueue(0)];
  }

  /** A call made in any state but a crashed one gets its request into the channel if there is room. */
  lemma RequestEnters(world: ServerState, steps: seq<Step>, work: Work)
    requires var s := Reached(world, steps); !s.mode.Crashed? && |s.queue| < CAPACITY
    ensures var s := Reached(world, steps);
            Reached(world, steps + [Call(work)] + [Enqueue(s.next)]) == Enqueued(Called(s, work), s.next)
  {
    var s := Reached(world, steps);
    ReachedNext(world, steps, Call(work));
    ReachedNext(world, steps + [Call(work)], Enqueue(s.next));
    assert Perform(s, Call(work)) == Called(s, work);
    assert Enabled(Called(s, work), Enqueue(s.next));
  }

  /** A request that enters the channel after the drain has ended is accepted and never answered. */
  lemma {:induction false} LateRequestNeverAnswered(world: ServerState, work: Work, more: seq<Step>)
    ensures
      var s := Reached(world, [Stop, NoticeStop, DrainEnd, Call(work), Enqueue(0)] + more);
      s.mode.Stopped? && 0 in s.accepted && 0 in s.queue && 0 !in s.replied
  {
    var stopped := [Stop, NoticeStop, DrainEnd];
    var steps := [Stop, NoticeStop, DrainEnd, Call(work), Enqueue(0)];
    IdleServerStops(world);
    RequestEnters(world, stopped, work);
    assert stopped + [Call(work)] + [Enqueue(0)] == steps;
    assert Reached(world, steps).accepted == Reached(world, steps).queue == [0];
    StoppedForGood(world, steps, more);
    assert Reached(world, steps + more).accepted[0] == Reached(world, steps + more).queue[0] == 0;
  }

  lemma {:induction false} IdleServerStops(world: ServerState)
    ensures Reached(world, [Stop, NoticeStop, DrainEnd]) == Initial(world).(stopping := true, mode := Stopped)
  {
    IdleServerDrains(world);
    ReachedNext(world, [Stop, NoticeStop], DrainEnd);
    assert [Stop, NoticeStop] + [DrainEnd] == [Stop, NoticeStop, DrainEnd];
  }

  lemma {:induction false} IdleServerDrains(world: ServerState)
    ensures Reached(world, [Stop, NoticeStop]) == Initial(world).(stopping := true, mode := Draining)
  {
    ReachedNext(world, [], Stop);
    assert [] + [Stop] == [Stop];
    ReachedNext(world, [Stop], NoticeStop);
    assert [Stop] + [NoticeStop] == [Stop, NoticeStop];
  }

  /** A mint handled after an application's bus has closed is on the chain and not on the topic. */
  lemma {:induction false} LateBlockUnannounced(a: ScalegraphId, v: ScalegraphId, txId: TxId)
    ensures
      var world := ServerState(map[a := NewAccount(a)], map[v := map[]]);
      var work := Work(Domain(Mint(a, 1.0)), Genuine, txId);
      var s := Reached(world, [CloseBus(v), Call(work), Enqueue(0), Take, Serve]);
      && a in s.world.ledger && s.world.ledger[a].chain == [MintTx(txId, a, 1.0)]
      && v in s.world.feeds && Topic(s.world.feeds[v], Format(a)) == []
  {
    var world := ServerState(map[a := NewAccount(a)], map[v := map[]]);
    var work := Work(Domain(Mint(a, 1.0)), Genuine, txId);
    LateRequestTaken(world, v, work);
    var taken := [CloseBus(v), Call(work), Enqueue(0), Take];
    ReachedNext(world, taken, Serve);
    assert taken + [Serve] == [CloseBus(v), Call(work), Enqueue(0), Take, Serve];
    MintServed(Reached(world, taken), a, v, txId);
  }

  lemma MintServed(s: State, a: ScalegraphId, v: ScalegraphId, txId: TxId)
    requires s.mode == Serving(0) && s.world == ServerState(map[a := NewAccount(a)], map[v := map[]]) && v in s.shut
    requires In(s, 0) && s.works[0] == Work(Domain(Mint(a, 1.0)), Genuine, txId)
    ensures Enabled(s, Serve)
    ensures var world := Perform(s, Serve).world;
            && a in world.ledger && world.ledger[a].chain == [MintTx(txId, a, 1.0)]
            && v in world.feeds && world.feeds[v] == map[]
  {
    MintHandled(a, v, txId);
  }

  lemma MintHandled(a: ScalegraphId, v: ScalegraphId, txId: TxId)
    ensures
      var world := ServerState(map[a := NewAccount(a)], map[v := map[]]);
      var (after, reply) := Handle(world, Domain(Mint(a, 1.0)), Genuine, txId);
      && reply == Answer(Done) && v in after.feeds
      && a in after.ledger && after.ledger[a].chain == [MintTx(txId, a, 1.0)]
  {
  }

  lemma {:induction false} LateRequestTaken(world: ServerState, v: ScalegraphId, work: Work)
    requires v in world.feeds
    ensures var s := Reached(world, [CloseBus(v), Call(work), Enqueue(0), Take]);
            && s.mode == Serving(0) && s.world == world && v in s.shut && In(s, 0) && s.works[0] == work
  {
    ReachedNext(world, [], CloseBus(v));
    assert [] + [CloseBus(v)] == [CloseBus(v)];
    RequestEnters(world, [CloseBus(v)], work);
    assert [CloseBus(v)] + [Call(work)] + [Enqueue(0)] == [CloseBus(v), Call(work), Enqueue(0)];
    ReachedNext(world, [CloseBus(v), Call(work), Enqueue(0)], Take);
    assert [CloseBus(v), Call(work), Enqueue(0)] + [Take] == [CloseBus(v), Call(work), Enqueue(0), Take];
  }

  /** A token mint sent without an envelope crashes the server, whatever the ledger. */
  lemma {:induction false} MintWithoutEnvelopeCrashesServer(world: ServerState, request: Request, txId: TxId)
    requires request.MintToken?
    ensures Reached(world, [Call(Work(Domain(request), NoEnvelope, txId)), Enqueue(0), Take, Serve]).mode == Crashed(0)
  {
    var work := Work(Domain(request), NoEnvelope, txId);
    FirstRequestTaken(world, work);
    var taken := [Call(work), Enqueue(0), Take];
    ReachedNext(world, taken, Serve);
    assert taken + [Serve] == [Call(work), Enqueue(0), Take, Serve];
  }
  /** A first call, whatever the server's state and the request, comes back with the answer to it. */
  lemma {:induction false} FirstCallAnswered(world: ServerState, work: Work)
    requires Handle(world, work.request, work.verdict, work.txId).1 != Answer(Panicked)
    ensures
      var s := Reached(world, [Call(work), Enqueue(0), Take, Serve, Reply, Receive(0), Unregister(0), Close(0)]);
      CameBack(s, 0, Got(Response(0, Handle(world, work.request, work.verdict, work.txId).1)))
  {
    FirstCallReplied(world, work);
    var replied := [Call(work), Enqueue(0), Take, Serve, Reply];
    TakesItsReply(world, replied, 0);
    assert replied + [Receive(0), Unregister(0), Close(0)] ==
           [Call(work), Enqueue(0), Take, Serve, Reply, Receive(0), Unregister(0), Close(0)];
  }

  lemma {:induction false} FirstCallReplied(world: ServerState, work: Work)
    requires Handle(world, work.request, work.verdict, work.txId).1 != Answer(Panicked)
    ensures
      var s := Reached(world, [Call(work), Enqueue(0), Take, Serve, Reply]);
      && s.mode == Listening && 0 in s.phases && s.phases[0] == Waiting && 0 in s.slots
      && s.slots[0] == Some(Response(0, Handle(world, work.request, work.verdict, work.txId).1))
  {
    FirstRequestTaken(world, work);
    var taken := [Call(work), Enqueue(0), Take];
    ReachedNext(world, taken, Serve);
    ReachedNext(world, taken + [Serve], Reply);
    assert taken + [Serve] + [Reply] == [Call(work), Enqueue(0), Take, Serve, Reply];
    ServedAndReplied(Reached(world, taken), work);
  }

  lemma ServedAndReplied(s: State, work: Work)
    requires s.mode == Serving(0) && In(s, 0) && s.works[0] == work && 0 !in s.closed && s.slots[0] == None
    requires s.phases[0] == Waiting
    requires Handle(s.world, work.request, work.verdict, work.txId).1 != Answer(Panicked)
    ensures
      var reply := Handle(s.world, work.request, work.verdict, work.txId).1;
      && Enabled(s, Serve) && Enabled(Perform(s, Serve), Reply)
      && var s' := Perform(Perform(s, Serve), Reply);
         && s'.mode == Listening && 0 in s'.phases && s'.phases[0] == Waiting && 0 in s'.slots
         && s'.slots[0] == Some(Response(0, reply))
  {
  }

  /** A call whose request is still waiting when the server shuts down comes back with the notice. */
  lemma {:induction false} WaitingCallToldOfShutdown(world: ServerState, work: Work)
    ensures
      var s := Reached(world, [Call(work), Enqueue(0), Stop, NoticeStop, DrainTake, DrainReply,
                               Receive(0), Unregister(0), Close(0)]);
      CameBack(s, 0, Got(Response(0, ShuttingDown)))
  {
    ShutdownReplied(world, work);
    var replied := [Call(work), Enqueue(0), Stop, NoticeStop, DrainTake, DrainReply];
    TakesItsReply(world, replied, 0);
    assert replied + [Receive(0), Unregister(0), Close(0)] ==
           [Call(work), Enqueue(0), Stop, NoticeStop, DrainTake, DrainReply, Receive(0), Unregister(0), Close(0)];
  }

  lemma {:induction false} ShutdownReplied(world: ServerState, work: Work)
    ensures
      var s := Reached(world, [Call(work), Enqueue(0), Stop, NoticeStop, DrainTake, DrainReply]);
      && s.mode == Draining && 0 in s.phases && s.phases[0] == Waiting && 0 in s.slots
      && s.slots[0] == Some(Response(0, ShuttingDown))
  {
    FirstRequestWaits(world, work);
    var waits := [Call(work), Enqueue(0)];
    ReachedNext(world, waits, Stop);
    ReachedNext(world, waits + [Stop], NoticeStop);
    ReachedNext(world, waits + [Stop] + [NoticeStop], DrainTake);
    ReachedNext(world, waits + [Stop] + [NoticeStop] + [DrainTake], DrainReply);
    assert waits + [Stop] + [NoticeStop] + [DrainTake] + [DrainReply] ==
           [Call(work), Enqueue(0), Stop, NoticeStop, DrainTake, DrainReply];
    DrainedAndReplied(Reached(world, waits));
  }

  lemma DrainedAndReplied(s: State)
    requires s.mode == Listening && s.queue == [0] && In(s, 0) && 0 !in s.closed && s.slots[0] == None
    requires s.phases[0] == Waiting
    ensures
      && Enabled(s, Stop) && Enabled(Perform(s, Stop), NoticeStop)
      && var s1 := Perform(Perform(s, Stop), NoticeStop);
         && Enabled(s1, DrainTake) && Enabled(Perform(s1, DrainTake), DrainReply)
         && var s2 := Perform(Perform(s1, DrainTake), DrainReply);
            && s2.mode == Draining && 0 in s2.phases && s2.phases[0] == Waiting && 0 in s2.slots
            && s2.slots[0] == Some(Response(0, ShuttingDown))
  {
  }
}
