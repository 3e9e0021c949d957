/** An account is the replay of its own history. Its chain alone determines it as long as no
    placeholder was dropped by a failed repeated authorisation; balance and nonce, always. */
module Replays {
  import opened Wrappers
  import opened Ids
  import opened Tokens
  import opened Transactions
  import opened AccountSpec
  import opened Ledgers
  import opened Changes
  import opened Chains

  /** A journal entry: a block, or a placeholder lost without a block. */
  datatype Entry = Block(trx: Transaction) | Lost(tokenId: TokenId)

  function EntriesFor(change: Change, x: ScalegraphId): seq<Entry> {
    match change
    case Opening(y, initial) => if y == x && initial.Some? then [Block(initial.value)] else []
    case Posting(trx) => if trx.Involves(x) then [Block(trx)] else []
    case Dropping(y, t) => if y == x then [Lost(t)] else []
    case Nothing => []
  }

  function Journal(run: Run, x: ScalegraphId): seq<Entry> {
    match run
    case Start => []
    case Then(before, req, txId) => Journal(before, x) + EntriesFor(ChangeOf(After(before), req, txId), x)
  }

  /** Runs the forward handlers, with all their checks, over a journal from an empty account. */
  function Replay(x: ScalegraphId, journal: seq<Entry>): Option<AccountState> {
    if journal == [] then Some(NewAccount(x))
    else
      match Replay(x, journal[..|journal| - 1])
      case None => None
      case Some(a) =>
        match journal[|journal| - 1]
        case Block(trx) => if Refusal(a, trx).Some? then None else Some(Posted(a, trx))
        case Lost(t) => Some(Dropped(a, t))
  }

  function Blocks(chain: seq<Transaction>): (journal: seq<Entry>)
    ensures |journal| == |chain|
    ensures forall i | 0 <= i < |chain| :: journal[i] == Block(chain[i])
  {
    if chain == [] then [] else Blocks(chain[..|chain| - 1]) + [Block(chain[|chain| - 1])]
  }

  /** Every account, at every moment, is exactly the checked replay of its journal. */
  lemma {:induction false} JournalReplays(run: Run, x: ScalegraphId)
    ensures x in After(run) ==> Replay(x, Journal(run, x)) == Some(After(run)[x])
    ensures x !in After(run) ==> Journal(run, x) == []
  {
    match run
    case Start =>
    case Then(before, req, txId) =>
      var l := After(before);
      JournalReplays(before, x);
      WellFormedAfter(before);
      ExecuteIsOneChange(l, req, txId);
      var change := ChangeOf(l, req, txId);
      if change.Posting? { PostingIsLawful(l, req, txId); }
      StepReplays(l, change, x, Journal(before, x));
  }

  lemma {:induction false} StepReplays(l: Ledger, change: Change, x: ScalegraphId, journal: seq<Entry>)
    requires change.Posting? ==> Lawful(l, change.trx)
    requires change.Dropping? ==> change.account in l
    requires change.Opening? ==> change.account !in l && (change.initial.Some? ==> change.initial.value.MintTx?)
    requires x in l ==> Replay(x, journal) == Some(l[x])
    requires x !in l ==> journal == []
    ensures x in Changed(l, change) ==> Replay(x, journal + EntriesFor(change, x)) == Some(Changed(l, change)[x])
    ensures x !in Changed(l, change) ==> EntriesFor(change, x) == []
  {
    var entries := EntriesFor(change, x);
    if entries == [] {
      assert journal + entries == journal;
    } else {
      assert (journal + entries)[..|journal|] == journal;
    }
    if change.Posting? {
      PartiesExist(l, change.trx, x);
      if x in l {
        PostAllAt(l, change.trx, x);
        if change.trx.Involves(x) { PartyAccepts(l, change.trx, x); }
      }
    }
  }

  /** No placeholder of x was ever dropped. */
  predicate NothingLost(run: Run, x: ScalegraphId) {
    forall i | 0 <= i < |Journal(run, x)| :: Journal(run, x)[i].Block?
  }

  /** Then the whole account - balance, minimum balance, nonce, token store - is the checked replay of its chain. */
  lemma {:induction false} ChainReplays(run: Run, x: ScalegraphId)
    requires x in After(run) && NothingLost(run, x)
    ensures Replay(x, Blocks(After(run)[x].chain)) == Some(After(run)[x])
  {
    JournalReplays(run, x);
    JournalIsChain(run, x);
  }

  lemma {:induction false} JournalIsChain(run: Run, x: ScalegraphId)
    requires NothingLost(run, x)
    ensures Journal(run, x) == Blocks(ChainOf(After(run), x))
  {
    match run
    case Start =>
    case Then(before, req, txId) =>
      var l := After(before);
      var entries := EntriesFor(ChangeOf(l, req, txId), x);
      forall i | 0 <= i < |Journal(before, x)|
        ensures Journal(before, x)[i].Block?
      {
        assert Journal(run, x)[i] == Journal(before, x)[i];
      }
      JournalIsChain(before, x);
      WellFormedAfter(before);
      ChainGrows(l, req, txId, x);
      if entries != [] {
        assert Journal(run, x)[|Journal(before, x)|] == entries[0];
      }
  }

  /** A drop breaks it at once: the chain stays, the account does not. An authorisation of the
      same token posted straight after it heals it; the Drifts module says when the chain replays at
      any later moment. */
  lemma DropBreaksReplay(l: Ledger, req: Request, txId: TxId, x: ScalegraphId)
    requires WellFormed(l) && x in l && Replay(x, Blocks(l[x].chain)) == Some(l[x])
    ensures var l' := Execute(l, req, txId).0;
            && x in l'
            && (ChangeOf(l, req, txId).Dropping? && ChangeOf(l, req, txId).account == x ==>
                  Replay(x, Blocks(l'[x].chain)) != Some(l'[x]))
  {
    ExecuteIsOneChange(l, req, txId);
    match ChangeOf(l, req, txId)
    case Dropping(y, t) => if y == x { assert t in l[x].store && t !in Dropped(l[x], t).store; }
    case Posting(trx) =>
    case _ =>
  }

  /** An authorisation of the same token posted straight after a drop puts the placeholder back, and the
      chain replays to the account again. */
  lemma {:induction false} AuthorizationHeals(a: AccountState, trx: Transaction, t: TokenId)
    requires t in a.store && a.store[t] == EMPTY && Replay(a.id, Blocks(a.chain)) == Some(a)
    requires trx.AuthorizeTx? && trx.sender == a.id && trx.tokenId == t && Refusal(Dropped(a, t), trx).None?
    ensures var healed := Posted(Dropped(a, t), trx);
            Replay(a.id, Blocks(healed.chain)) == Some(healed)
  {
    AuthorizationRestores(a, trx, t);
    BlocksAppend(a.chain, trx);
    var journal := Blocks(a.chain);
    assert (journal + [Block(trx)])[..|journal|] == journal;
  }

  lemma AuthorizationRestores(a: AccountState, trx: Transaction, t: TokenId)
    requires t in a.store && a.store[t] == EMPTY
    requires trx.AuthorizeTx? && trx.sender == a.id && trx.tokenId == t && Refusal(Dropped(a, t), trx).None?
    ensures Refusal(a, trx).None? && Posted(Dropped(a, t), trx) == Posted(a, trx)
  {
    RestoreEntry(a.store, t, EMPTY);
  }

  lemma BlocksAppend(chain: seq<Transaction>, trx: Transaction)
    ensures Blocks(chain + [trx]) == Blocks(chain) + [Block(trx)]
  {
    assert (chain + [trx])[..|chain|] == chain;
  }

  /** At every moment of the run the account, once there, was the checked replay of its chain. */
  ghost predicate ReplaysThroughout(run: Run, x: ScalegraphId) {
    && (x in After(run) ==> Replay(x, Blocks(After(run)[x].chain)) == Some(After(run)[x]))
    && (run.Then? ==> ReplaysThroughout(run.before, x))
  }

  /** The account never sent a request that repeats an authorisation and fails; each request can be
      checked against the ledger before it. */
  predicate NeverRepeats(run: Run, x: ScalegraphId) {
    run.Then? ==>
      && NeverRepeats(run.before, x)
      && !(RepeatsAuthorization(After(run.before), run.request) && run.request.account == x)
  }

  /** Over whole runs: the chain replays to the account at every moment exactly when the account never
      so repeated an authorisation, that is when no placeholder of it was ever dropped. */
  lemma {:induction false} ReplaysExactly(run: Run, x: ScalegraphId)
    ensures ReplaysThroughout(run, x) <==> NeverRepeats(run, x)
    ensures NothingLost(run, x) <==> NeverRepeats(run, x)
  {
    if x in After(run) && NothingLost(run, x) { ChainReplays(run, x); }
    if run.Then? {
      ReplaysExactly(run.before, x);
      LossIsADrop(run, x);
      WellFormedAfter(run.before);
      DropsExactly(After(run.before), run.request, run.txId);
      if x in After(run.before) && ReplaysThroughout(run.before, x) {
        DropBreaksReplay(After(run.before), run.request, run.txId, x);
      }
    }
  }

  /** The step that loses a placeholder is a dropped repetition. */
  lemma {:induction false} LossIsADrop(run: Run, x: ScalegraphId)
    requires run.Then?
    ensures NothingLost(run, x) <==>
            NothingLost(run.before, x) && !Drops(ChangeOf(After(run.before), run.request, run.txId), x)
    ensures Drops(ChangeOf(After(run.before), run.request, run.txId), x) ==> x in After(run.before)
  {
    var earlier := Journal(run.before, x);
    var entries := EntriesFor(ChangeOf(After(run.before), run.request, run.txId), x);
    assert Journal(run, x) == earlier + entries;
    assert forall i | 0 <= i < |earlier| :: Journal(run, x)[i] == earlier[i];
    if entries != [] { assert Journal(run, x)[|earlier|] == entries[0]; }
  }

  predicate Drops(change: Change, x: ScalegraphId) {
    change.Dropping? && change.account == x
  }

  // Balance and nonce.

  /** The effects of a chain without the checks. */
  function Fold(x: ScalegraphId, chain: seq<Transaction>): AccountState {
    if chain == [] then NewAccount(x)
    else Posted(Fold(x, chain[..|chain| - 1]), chain[|chain| - 1])
  }

  /** In every reachable state, whatever was dropped, the chain determines balance and nonce. */
  lemma {:induction false} FundsReplay(run: Run, x: ScalegraphId)
    requires x in After(run)
    ensures SameFunds(Fold(x, After(run)[x].chain), After(run)[x])
  {
    JournalReplays(run, x);
    JournalFolds(x, Journal(run, x), After(run)[x]);
  }

  lemma {:induction false} JournalFolds(x: ScalegraphId, journal: seq<Entry>, a: AccountState)
    requires Replay(x, journal) == Some(a)
    ensures a.id == x
    ensures SameFunds(Fold(x, a.chain), a)
  {
    if journal != [] {
      var b := Replay(x, journal[..|journal| - 1]).value;
      JournalFolds(x, journal[..|journal| - 1], b);
      match journal[|journal| - 1]
      case Block(trx) =>
        assert a.chain[..|a.chain| - 1] == b.chain;
        EffectSameFunds(Fold(x, b.chain), b, trx);
      case Lost(t) =>
    }
  }

  predicate SameFunds(a: AccountState, b: AccountState) {
    a.id == b.id && a.balance == b.balance && a.nonce == b.nonce
  }

  lemma EffectSameFunds(a: AccountState, b: AccountState, trx: Transaction)
    requires SameFunds(a, b)
    ensures SameFunds(Effect(a, trx), Effect(b, trx))
  {
  }
}
