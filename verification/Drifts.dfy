/** How far an account drifts from the replay of its chain. A dropped placeholder leaves no block, so the
    replay still has it, and half a unit locked for it; the two meet again or part for good. */
module Drifts {
  import opened Wrappers
  import opened Ids
  import opened Tokens
  import opened Transactions
  import opened AccountSpec
  import opened Ledgers
  import opened Changes
  import opened Chains
  import opened Replays

  function Placeholders(lost: set<TokenId>): map<TokenId, Token> {
    map t | t in lost :: EMPTY
  }

  /** The account as its chain alone tells it, when it has lost these placeholders. */
  function Shadow(a: AccountState, lost: set<TokenId>): AccountState {
    a.(mbr := a.mbr + SLOT_COST * |lost| as real, store := a.store + Placeholders(lost))
  }

  /** A block the account accepted is accepted by the shadow too: what it needs free is there even with the
      lost slots set aside, and it does not bring in a token that has a lost placeholder without using it. */
  predicate Bears(a: AccountState, lost: set<TokenId>, trx: Transaction) {
    var free := a.Available() - SLOT_COST * |lost| as real;
    match trx
    case TransferTx(_, s, _, amount) => s == a.id ==> amount <= free
    case BurnTx(_, r, amount) => r == a.id ==> amount <= free
    case MintTokenTx(_, r, token) => r == a.id ==> token.Id() !in lost && TOKEN_COST <= free
    case AuthorizeTx(_, s, _, t, _) => s == a.id && t !in a.store && t !in lost ==> SLOT_COST <= free
    case ClawbackTx(_, _, r, token, _) => r == a.id ==> token.Id() !in lost
    case FreezeTx(_, s, _, _, _) => s == a.id ==> FREEZE_COST <= free
    case _ => true
  }

  /** An authorisation puts a lost placeholder back. */
  function StillLost(lost: set<TokenId>, x: ScalegraphId, trx: Transaction): set<TokenId> {
    if trx.AuthorizeTx? && trx.sender == x then lost - {trx.tokenId} else lost
  }

  /** What is lost after a block of the account's own: its chain may stop replaying with it. */
  function LostWith(lost: Option<set<TokenId>>, a: AccountState, trx: Transaction): Option<set<TokenId>> {
    if lost.Some? && Bears(a, lost.value, trx) then Some(StillLost(lost.value, a.id, trx)) else None
  }

  function LostMore(lost: Option<set<TokenId>>, t: TokenId): Option<set<TokenId>> {
    if lost.Some? then Some(lost.value + {t}) else None
  }

  /** The placeholders lost so far, or None once the chain has stopped replaying. */
  function LostAfter(lost: Option<set<TokenId>>, l: Ledger, change: Change, x: ScalegraphId): Option<set<TokenId>> {
    if lost.None? then None
    else
      match change
      case Posting(trx) =>
        if trx.Involves(x) && x in l then LostWith(lost, l[x], trx) else lost
      case Dropping(y, t) => if y == x then LostMore(lost, t) else lost
      case _ => lost
  }

  function LostBy(run: Run, x: ScalegraphId): Option<set<TokenId>> {
    match run
    case Start => Some({})
    case Then(before, req, txId) => LostAfter(LostBy(before, x), After(before), ChangeOf(After(before), req, txId), x)
  }

  /** What the chain of an account replays to. */
  function ShadowOf(a: AccountState, lost: Option<set<TokenId>>): Option<AccountState> {
    if lost.Some? then Some(Shadow(a, lost.value)) else None
  }

  /** At every moment of every run: what the chain replays to, and so exactly when that is the account. */
  lemma {:induction false} ReplayDrifts(run: Run, x: ScalegraphId)
    requires x in After(run)
    ensures Replay(x, Blocks(After(run)[x].chain)) == ShadowOf(After(run)[x], LostBy(run, x))
    ensures Replay(x, Blocks(After(run)[x].chain)) == Some(After(run)[x]) <==> LostBy(run, x) == Some({})
  {
    JournalReplays(run, x);
    JournalTellsLost(run, x);
    JournalDrifts(x, Journal(run, x), After(run)[x]);
    if LostBy(run, x).Some? { ShadowIsAccount(After(run)[x], LostBy(run, x).value); }
  }

  /** A chain that has stopped replaying never replays again. */
  lemma {:induction false} PartedForGood(later: Run, earlier: Run, x: ScalegraphId)
    requires Extends(later, earlier) && LostBy(earlier, x).None?
    ensures LostBy(later, x).None?
  {
    if later != earlier {
      PartedForGood(later.before, earlier, x);
    }
  }

  lemma ShadowIsAccount(a: AccountState, lost: set<TokenId>)
    ensures Shadow(a, lost) == a <==> lost == {}
  {
    if lost == {} {
      assert a.store + Placeholders({}) == a.store;
    } else {
      assert |lost| > 0;
    }
  }

  // Along the journal of one account.

  /** The same reckoning from a journal alone. */
  function LostIn(x: ScalegraphId, journal: seq<Entry>): Option<set<TokenId>> {
    if journal == [] then Some({})
    else
      var earlier := journal[..|journal| - 1];
      match (Replay(x, earlier), journal[|journal| - 1])
      case (None, _) => None
      case (Some(a), Block(trx)) => LostWith(LostIn(x, earlier), a, trx)
      case (_, Lost(t)) => LostMore(LostIn(x, earlier), t)
  }

  /** Blocks have two different parties and losses are of placeholders. */
  predicate Sound(x: ScalegraphId, journal: seq<Entry>) {
    journal != [] ==>
      var earlier := journal[..|journal| - 1];
      && Sound(x, earlier)
      && match journal[|journal| - 1]
         case Block(trx) => trx.TwoSided() ==> trx.sender != trx.receiver
         case Lost(t) =>
           var a := Replay(x, earlier);
           a.Some? && t in a.value.store && a.value.store[t] == EMPTY
  }

  lemma {:induction false} JournalTellsLost(run: Run, x: ScalegraphId)
    ensures Sound(x, Journal(run, x)) && LostBy(run, x) == LostIn(x, Journal(run, x))
  {
    match run
    case Start =>
    case Then(before, req, txId) =>
      JournalTellsLost(before, x);
      JournalReplays(before, x);
      WellFormedAfter(before);
      EntryTellsLost(After(before), req, txId, x, Journal(before, x), LostBy(before, x));
  }

  lemma {:induction false} EntryTellsLost(
    l: Ledger, req: Request, txId: TxId, x: ScalegraphId, journal: seq<Entry>, lost: Option<set<TokenId>>)
    requires WellFormed(l) && Sound(x, journal) && lost == LostIn(x, journal)
    requires x in l ==> Replay(x, journal) == Some(l[x])
    requires x !in l ==> journal == []
    ensures var change := ChangeOf(l, req, txId);
            && Sound(x, journal + EntriesFor(change, x))
            && LostAfter(lost, l, change, x) == LostIn(x, journal + EntriesFor(change, x))
  {
    var change := ChangeOf(l, req, txId);
    ChangeIsSound(l, req, txId, x);
    if EntriesFor(change, x) == [] {
      assert journal + EntriesFor(change, x) == journal;
    } else if change.Opening? {
      NextLost(x, [], EntriesFor(change, x)[0], NewAccount(x));
    } else {
      NextLost(x, journal, EntriesFor(change, x)[0], l[x]);
    }
  }

  lemma ChangeIsSound(l: Ledger, req: Request, txId: TxId, x: ScalegraphId)
    requires WellFormed(l)
    ensures
      match ChangeOf(l, req, txId)
      case Posting(trx) =>
        (trx.TwoSided() ==> trx.sender != trx.receiver) && (trx.Involves(x) ==> x in l && l[x].id == x)
      case Dropping(y, t) => y in l && t in l[y].store && l[y].store[t] == EMPTY
      case Opening(y, initial) => y !in l && (initial.Some? ==> initial.value.MintTx?)
      case Nothing => true
  {
    match ChangeOf(l, req, txId)
    case Posting(trx) =>
      PostingIsLawful(l, req, txId);
      PartiesExist(l, trx, x);
    case Dropping(y, t) => PlaceholderTestExact(t, l[y].store[t]);
    case _ =>
  }

  lemma {:induction false} NextLost(x: ScalegraphId, journal: seq<Entry>, entry: Entry, a: AccountState)
    requires Replay(x, journal) == Some(a)
    ensures LostIn(x, journal + [entry]) ==
            match entry
            case Block(trx) => LostWith(LostIn(x, journal), a, trx)
            case Lost(t) => LostMore(LostIn(x, journal), t)
    ensures Sound(x, journal + [entry]) <==>
            && Sound(x, journal)
            && match entry
               case Block(trx) => trx.TwoSided() ==> trx.sender != trx.receiver
               case Lost(t) => t in a.store && a.store[t] == EMPTY
  {
    assert (journal + [entry])[..|journal|] == journal;
  }

  ghost predicate Shadowed(a: AccountState, lost: Option<set<TokenId>>) {
    && Replay(a.id, Blocks(a.chain)) == ShadowOf(a, lost)
    && (lost.Some? ==> lost.value !! a.store.Keys)
  }

  lemma {:induction false} JournalDrifts(x: ScalegraphId, journal: seq<Entry>, a: AccountState)
    requires Sound(x, journal) && Replay(x, journal) == Some(a)
    ensures a.id == x && Shadowed(a, LostIn(x, journal))
  {
    if journal == [] {
      ShadowIsAccount(a, {});
    } else {
      var n := |journal| - 1;
      var b := Replay(x, journal[..n]).value;
      JournalDrifts(x, journal[..n], b);
      match journal[n]
      case Block(trx) => PartDrifts(b, trx, LostIn(x, journal[..n]));
      case Lost(t) => DroppingDrifts(b, t, LostIn(x, journal[..n]));
    }
  }

  /** The chain stays, and so does what it replays to; the account loses the slot. */
  lemma DroppingDrifts(a: AccountState, t: TokenId, lost: Option<set<TokenId>>)
    requires t in a.store && a.store[t] == EMPTY && Shadowed(a, lost)
    ensures Dropped(a, t).id == a.id && Shadowed(Dropped(a, t), LostMore(lost, t))
  {
    if lost.Some? { ShadowStays(a, t, lost.value); }
  }

  lemma ShadowStays(a: AccountState, t: TokenId, lost: set<TokenId>)
    requires t in a.store && a.store[t] == EMPTY && lost !! a.store.Keys
    ensures Shadow(Dropped(a, t), lost + {t}) == Shadow(a, lost) && lost + {t} !! Dropped(a, t).store.Keys
  {
    assert Dropped(a, t).store + Placeholders(lost + {t}) == a.store + Placeholders(lost);
  }

  lemma {:induction false} ReplayNext(x: ScalegraphId, chain: seq<Transaction>, trx: Transaction)
    ensures Replay(x, Blocks(chain + [trx])) ==
            match Replay(x, Blocks(chain))
            case None => None
            case Some(b) => if Refusal(b, trx).Some? then None else Some(Posted(b, trx))
  {
    BlocksAppend(chain, trx);
    var journal := Blocks(chain);
    assert (journal + [Block(trx)])[..|journal|] == journal;
  }

  lemma {:induction false} PartDrifts(a: AccountState, trx: Transaction, lost: Option<set<TokenId>>)
    requires Refusal(a, trx).None? && (trx.TwoSided() ==> trx.sender != trx.receiver)
    requires Shadowed(a, lost)
    ensures Posted(a, trx).id == a.id && Shadowed(Posted(a, trx), LostWith(lost, a, trx))
  {
    EffectLeavesChain(a, trx);
    ReplayNext(a.id, a.chain, trx);
    if lost.Some? { BlockDrifts(a, trx, lost.value); }
  }

  /** One accepted block, on the account and on its shadow. */
  lemma BlockDrifts(a: AccountState, trx: Transaction, lost: set<TokenId>)
    requires Refusal(a, trx).None? && lost !! a.store.Keys && (trx.TwoSided() ==> trx.sender != trx.receiver)
    ensures Refusal(Shadow(a, lost), trx).None? <==> Bears(a, lost, trx)
    ensures Bears(a, lost, trx) ==>
              && Posted(Shadow(a, lost), trx) == Shadow(Posted(a, trx), StillLost(lost, a.id, trx))
              && StillLost(lost, a.id, trx) !! Posted(a, trx).store.Keys
  {
    ShadowRefuses(a, trx, lost);
    if Bears(a, lost, trx) { ShadowFollows(a, trx, lost); }
  }

  lemma ShadowRefuses(a: AccountState, trx: Transaction, lost: set<TokenId>)
    requires Refusal(a, trx).None? && lost !! a.store.Keys && (trx.TwoSided() ==> trx.sender != trx.receiver)
    ensures Refusal(Shadow(a, lost), trx).None? <==> Bears(a, lost, trx)
  {
    assert EMPTY.Equal(EMPTY);
  }

  lemma ShadowFollows(a: AccountState, trx: Transaction, lost: set<TokenId>)
    requires Refusal(a, trx).None? && lost !! a.store.Keys && (trx.TwoSided() ==> trx.sender != trx.receiver)
    requires Bears(a, lost, trx)
    ensures Posted(Shadow(a, lost), trx) == Shadow(Posted(a, trx), StillLost(lost, a.id, trx))
    ensures StillLost(lost, a.id, trx) !! Posted(a, trx).store.Keys
  {
    StoresFollow(a, trx, lost);
    FundsFollow(a, trx, lost);
    EffectLeavesChain(a, trx);
    EffectLeavesChain(Shadow(a, lost), trx);
    SameAccount(Posted(Shadow(a, lost), trx), Shadow(Posted(a, trx), StillLost(lost, a.id, trx)));
  }

  lemma SameAccount(a: AccountState, b: AccountState)
    requires a.id == b.id && a.balance == b.balance && a.mbr == b.mbr && a.nonce == b.nonce
    requires a.store == b.store && a.chain == b.chain
    ensures a == b
  {
  }

  lemma EffectLeavesChain(a: AccountState, trx: Transaction)
    ensures Effect(a, trx).chain == a.chain && Effect(a, trx).id == a.id
  {
  }

  lemma FundsFollow(a: AccountState, trx: Transaction, lost: set<TokenId>)
    requires Refusal(a, trx).None? && lost !! a.store.Keys
    ensures var shadowed, actual := Effect(Shadow(a, lost), trx), Effect(a, trx);
            && shadowed.balance == actual.balance && shadowed.nonce == actual.nonce
            && shadowed.mbr == actual.mbr + SLOT_COST * |StillLost(lost, a.id, trx)| as real
  {
    if trx.AuthorizeTx? && trx.sender == a.id { AuthorizationFollows(a.store, lost, trx.tokenId); }
  }

  lemma StoresFollow(a: AccountState, trx: Transaction, lost: set<TokenId>)
    requires Refusal(a, trx).None? && lost !! a.store.Keys && (trx.TwoSided() ==> trx.sender != trx.receiver)
    requires Bears(a, lost, trx)
    ensures Effect(Shadow(a, lost), trx).store == Effect(a, trx).store + Placeholders(StillLost(lost, a.id, trx))
    ensures StillLost(lost, a.id, trx) !! Effect(a, trx).store.Keys
  {
    match trx
    case MintTokenTx(_, _, token) => EntryFollows(a.store, lost, token.Id(), token);
    case AuthorizeTx(_, _, _, t, _) => AuthorizationFollows(a.store, lost, t);
    case UnauthorizeTx(_, _, _, t, _) => RemovalFollows(a.store, lost, t);
    case TransferTokenTx(_, _, _, token, _) =>
      RemovalFollows(a.store, lost, token.Id());
      EntryFollows(a.store, lost, token.Id(), token);
    case BurnTokenTx(_, _, t, _) => RemovalFollows(a.store, lost, t);
    case ClawbackTx(_, _, _, token, _) =>
      RemovalFollows(a.store, lost, token.Id());
      EntryFollows(a.store, lost, token.Id(), token);
    case FreezeTx(_, _, _, t, _) =>
      if t in a.store { EntryFollows(a.store, lost, t, a.store[t].(frozen := true)); }
    case UnfreezeTx(_, _, _, t, _) =>
      if t in a.store { EntryFollows(a.store, lost, t, a.store[t].(frozen := false)); }
    case _ =>
  }

  lemma EntryFollows(store: map<TokenId, Token>, lost: set<TokenId>, t: TokenId, token: Token)
    requires lost !! store.Keys
    ensures t !in lost ==> (store + Placeholders(lost))[t := token] == store[t := token] + Placeholders(lost)
    ensures t !in lost ==> lost !! store[t := token].Keys
  {
  }

  lemma RemovalFollows(store: map<TokenId, Token>, lost: set<TokenId>, t: TokenId)
    requires lost !! store.Keys
    ensures t in store ==> Without(store + Placeholders(lost), t) == Without(store, t) + Placeholders(lost)
    ensures lost !! Without(store, t).Keys
  {
  }

  lemma AuthorizationFollows(store: map<TokenId, Token>, lost: set<TokenId>, t: TokenId)
    requires lost !! store.Keys
    ensures t in lost ==> store + Placeholders(lost) == store[t := EMPTY] + Placeholders(lost - {t})
    ensures t !in lost ==> (store + Placeholders(lost))[t := EMPTY] == store[t := EMPTY] + Placeholders(lost)
    ensures |lost - {t}| == |lost| - if t in lost then 1 else 0
    ensures t !in lost ==> lost - {t} == lost
    ensures lost - {t} !! store[t := EMPTY].Keys
  {
  }
}
