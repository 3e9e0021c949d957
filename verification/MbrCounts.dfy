/** The minimum balance in the documentation's own terms: so much per placeholder, per token
    created, and per token frozen, counted over all stores. */
module MbrCounts {
  import opened Wrappers
  import opened Ids
  import opened Tokens
  import opened AccountSpec
  import opened Ledgers
  import opened Sums
  import opened Mbr

  type EntryTest = (ScalegraphId, Token) -> bool

  /** The entries, as (holder, token identifier), that pass a test. */
  ghost function Entries(l: Ledger, test: EntryTest): set<(ScalegraphId, TokenId)> {
    set h, t | h in l && t in l[h].store && test(h, l[h].store[t]) :: (h, t)
  }

  ghost function EntriesIn(store: map<TokenId, Token>, h: ScalegraphId, test: EntryTest): set<(ScalegraphId, TokenId)> {
    set t | t in store && test(h, store[t]) :: (h, t)
  }

  function IsPlaceholderOf(x: ScalegraphId): EntryTest {
    (h: ScalegraphId, token: Token) => h == x && token.Equal(EMPTY)
  }

  function IsSignedBy(x: ScalegraphId): EntryTest {
    (h: ScalegraphId, token: Token) => !token.Equal(EMPTY) && token.Signer() == Some(x)
  }

  function IsFrozenFor(x: ScalegraphId): EntryTest {
    (h: ScalegraphId, token: Token) => !token.Equal(EMPTY) && token.frozen && token.freeze == Some(x)
  }

  /** MBR = 0.5 x placeholders + 1.0 x live tokens signed + 0.1 x (live frozen + burned while frozen). */
  lemma {:induction false} MbrIsCounted(run: Run, x: ScalegraphId)
    requires x in After(run)
    ensures After(run)[x].mbr ==
            0.5 * |Entries(After(run), IsPlaceholderOf(x))| as real
          + 1.0 * |Entries(After(run), IsSignedBy(x))| as real
          + 0.1 * (|Entries(After(run), IsFrozenFor(x))| + Stuck(run, x)) as real
    ensures After(run)[x].mbr >= 0.0
  {
    MbrExact(run, x);
    LockedCounts(After(run), x);
  }

  /** What a burned frozen token left locked stays locked in every later state. */
  lemma {:induction false} StuckStaysLocked(later: Run, earlier: Run, x: ScalegraphId)
    requires Extends(later, earlier) && x in After(later)
    ensures After(later)[x].mbr >= 0.1 * Stuck(earlier, x) as real
  {
    StuckForGood(later, earlier, x);
    MbrIsCounted(later, x);
  }

  lemma {:induction false} LockedCounts(l: Ledger, x: ScalegraphId)
    ensures Locked(l, x) ==
            SLOT_COST * |Entries(l, IsPlaceholderOf(x))| as real
          + TOKEN_COST * |Entries(l, IsSignedBy(x))| as real
          + FREEZE_COST * |Entries(l, IsFrozenFor(x))| as real
    decreases |l|
  {
    if l == map[] {
      assert StoreCharges(l, x) == map[];
      assert forall test: EntryTest :: Entries(l, test) == {};
    } else {
      var h :| h in l;
      LockedCounts(l - {h}, x);
      LockedSplit(l, h, x);
      StoreCounts(l[h].store, h, x);
      EntriesSplit(l, h, IsPlaceholderOf(x));
      EntriesSplit(l, h, IsSignedBy(x));
      EntriesSplit(l, h, IsFrozenFor(x));
    }
  }

  lemma LockedSplit(l: Ledger, h: ScalegraphId, x: ScalegraphId)
    requires h in l
    ensures Locked(l, x) == Locked(l - {h}, x) + StoreCharge(l[h].store, h, x)
  {
    SumWithout(StoreCharges(l, x), h);
    assert StoreCharges(l - {h}, x) == StoreCharges(l, x) - {h};
  }

  lemma EntriesSplit(l: Ledger, h: ScalegraphId, test: EntryTest)
    requires h in l
    ensures |Entries(l, test)| == |Entries(l - {h}, test)| + |EntriesIn(l[h].store, h, test)|
  {
    assert Entries(l, test) == Entries(l - {h}, test) + EntriesIn(l[h].store, h, test);
  }

  lemma {:induction false} StoreCounts(store: map<TokenId, Token>, h: ScalegraphId, x: ScalegraphId)
    ensures StoreCharge(store, h, x) ==
            SLOT_COST * |EntriesIn(store, h, IsPlaceholderOf(x))| as real
          + TOKEN_COST * |EntriesIn(store, h, IsSignedBy(x))| as real
          + FREEZE_COST * |EntriesIn(store, h, IsFrozenFor(x))| as real
    decreases |store|
  {
    if store == map[] {
      assert Charges(store, h, x) == map[];
      assert forall test: EntryTest :: EntriesIn(store, h, test) == {};
    } else {
      var t :| t in store;
      StoreCounts(store - {t}, h, x);
      ChargeDropped(store, t, h, x);
      EntriesInSplit(store, t, h, IsPlaceholderOf(x));
      EntriesInSplit(store, t, h, IsSignedBy(x));
      EntriesInSplit(store, t, h, IsFrozenFor(x));
    }
  }

  lemma EntriesInSplit(store: map<TokenId, Token>, t: TokenId, h: ScalegraphId, test: EntryTest)
    requires t in store
    ensures |EntriesIn(store, h, test)| == |EntriesIn(store - {t}, h, test)| + if test(h, store[t]) then 1 else 0
  {
    assert EntriesIn(store, h, test) ==
           EntriesIn(store - {t}, h, test) + if test(h, store[t]) then {(h, t)} else {};
  }
}
