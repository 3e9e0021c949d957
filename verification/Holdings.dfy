/** Who really holds which token. The check against minting a token twice looks only at one
    account's own store; that no token is ever held twice follows from the nonces. */
module Holdings {
  import opened Wrappers
  import opened Ids
  import opened Tokens
  import opened Transactions
  import opened AccountSpec
  import opened Ledgers
  import opened Changes

  predicate Holds(l: Ledger, x: ScalegraphId, t: TokenId) {
    x in l && l[x].Owns(t)
  }

  // What posting a transaction does to holdings.

  predicate OwnsAfter(a: AccountState, trx: Transaction, t: TokenId) {
    match trx
    case MintTokenTx(_, r, token) => a.Owns(t) || (a.id == r && t == token.Id())
    case TransferTokenTx(_, s, r, token, _) => if t == token.Id() && a.id in {s, r} then a.id == r else a.Owns(t)
    case ClawbackTx(_, s, r, token, _) => if t == token.Id() && a.id in {s, r} then a.id == r else a.Owns(t)
    case BurnTokenTx(_, s, burned, _) => a.Owns(t) && !(a.id == s && t == burned)
    case _ => a.Owns(t)
  }

  /** The token then held under t: as it was, moved unchanged, or with its frozen flag flipped. */
  function TokenAfter(a: AccountState, trx: Transaction, t: TokenId): Token
    requires OwnsAfter(a, trx, t)
  {
    match trx
    case MintTokenTx(_, r, token) => if a.id == r && t == token.Id() then token else a.store[t]
    case TransferTokenTx(_, _, r, token, _) => if a.id == r && t == token.Id() then token else a.store[t]
    case ClawbackTx(_, _, r, token, _) => if a.id == r && t == token.Id() then token else a.store[t]
    case FreezeTx(_, _, r, frozen, _) => if a.id == r && t == frozen then a.store[t].(frozen := true) else a.store[t]
    case UnfreezeTx(_, _, r, frozen, _) => if a.id == r && t == frozen then a.store[t].(frozen := false) else a.store[t]
    case _ => a.store[t]
  }

  lemma EffectMovesTokens(a: AccountState, trx: Transaction, t: TokenId)
    requires Refusal(a, trx).None?
    requires trx.TwoSided() ==> trx.sender != trx.receiver
    requires trx.TransferTokenTx? || trx.ClawbackTx? ==> trx.token.Signer().Some?
    ensures Effect(a, trx).Owns(t) <==> OwnsAfter(a, trx, t)
    ensures OwnsAfter(a, trx, t) ==> Effect(a, trx).store[t] == TokenAfter(a, trx, t)
  {
    if trx.MintTokenTx? || trx.TransferTokenTx? || trx.ClawbackTx? {
      EffectAddsToken(a, trx, t);
    } else if trx.FreezeTx? || trx.UnfreezeTx? {
      EffectFlipsToken(a, trx, t);
    }
  }

  lemma EffectAddsToken(a: AccountState, trx: Transaction, t: TokenId)
    requires trx.MintTokenTx? || trx.TransferTokenTx? || trx.ClawbackTx?
    requires trx.MintTokenTx? && trx.receiver == a.id ==> trx.token.Signer().Some?
    requires !trx.MintTokenTx? ==> trx.sender != trx.receiver && trx.token.Signer().Some?
    ensures Effect(a, trx).Owns(t) <==> OwnsAfter(a, trx, t)
    ensures OwnsAfter(a, trx, t) ==> Effect(a, trx).store[t] == TokenAfter(a, trx, t)
  {
    if trx.token.Signer().Some? { SignedIsNotEmpty(trx.token); }
  }

  lemma EffectFlipsToken(a: AccountState, trx: Transaction, t: TokenId)
    requires (trx.FreezeTx? || trx.UnfreezeTx?) && trx.sender != trx.receiver
    ensures Effect(a, trx).Owns(t) <==> OwnsAfter(a, trx, t)
    ensures OwnsAfter(a, trx, t) ==> Effect(a, trx).store[t] == TokenAfter(a, trx, t)
  {
  }

  /** What a posting leaves everywhere. */
  ghost predicate Moved(l: Ledger, trx: Transaction, l': Ledger) {
    && l'.Keys == l.Keys
    && (forall x, t :: Holds(l', x, t) <==> x in l && OwnsAfter(l[x], trx, t))
    && (forall x, t | Holds(l', x, t) :: l'[x].store[t] == TokenAfter(l[x], trx, t))
  }

  lemma PostingMovesTokens(l: Ledger, trx: Transaction)
    requires WellFormed(l) && Lawful(l, trx)
    ensures Moved(l, trx, PostAll(l, trx))
  {
    forall x, t | x in l
      ensures PostAll(l, trx).Keys == l.Keys
      ensures PostAll(l, trx)[x].Owns(t) <==> OwnsAfter(l[x], trx, t)
      ensures OwnsAfter(l[x], trx, t) ==> PostAll(l, trx)[x].store[t] == TokenAfter(l[x], trx, t)
    {
      PostAllAt(l, trx, x);
      PostingMovesTokensAt(l, trx, x, t);
    }
  }

  lemma PostingMovesTokensAt(l: Ledger, trx: Transaction, x: ScalegraphId, t: TokenId)
    requires WellFormed(l) && Lawful(l, trx) && x in l
    ensures var a := if trx.Involves(x) then Posted(l[x], trx) else l[x];
            && (a.Owns(t) <==> OwnsAfter(l[x], trx, t))
            && (OwnsAfter(l[x], trx, t) ==> a.store[t] == TokenAfter(l[x], trx, t))
  {
    if trx.TransferTokenTx? || trx.ClawbackTx? {
      PlaceholderTestExact(trx.token.Id(), l[trx.sender].store[trx.token.Id()]);
    }
    if trx.Involves(x) {
      EffectMovesTokens(l[x], trx, t);
    }
  }

  /** The other changes move no real token. */
  lemma OtherChangesMoveNothing(l: Ledger, change: Change, x: ScalegraphId, t: TokenId)
    requires WellFormed(l)
    requires change.Opening? ==> change.account !in l && (change.initial.Some? ==> change.initial.value.MintTx?)
    requires change.Dropping? ==> change.account in l && l[change.account].HasPlaceholder(change.tokenId)
    requires !change.Posting?
    ensures Holds(Changed(l, change), x, t) <==> Holds(l, x, t)
    ensures Holds(l, x, t) ==> Changed(l, change)[x].store[t] == l[x].store[t]
  {
  }

  // Histories of minting and burning.

  function Minted(run: Run): set<TokenId> {
    match run
    case Start => {}
    case Then(before, _, _) => Minted(before) + (if OutcomeOf(run).DoneMint? then {OutcomeOf(run).tokenId} else {})
  }

  function Burned(run: Run): set<TokenId> {
    match run
    case Start => {}
    case Then(before, req, _) => Burned(before) + (if req.BurnToken? && OutcomeOf(run).Done? then {req.tokenId} else {})
  }

  /** Signatures bind: equal signature bytes come from one signer and one payload, nonce included.
      So some function recovers signer and nonce from a token identifier. */
  type Origins = TokenId -> (ScalegraphId, int)

  predicate SignaturesBind(run: Run, origins: Origins) {
    match run
    case Start => true
    case Then(before, req, _) =>
      && SignaturesBind(before, origins)
      && (req.MintToken? && Parse(req.signature.signerId).Some? ==>
            origins(Encode(req.signature.value)) == (Parse(req.signature.signerId).value, req.nonce))
  }

  /** A token minted so far carries a nonce its signer has already used. */
  ghost predicate Used(l: Ledger, origins: Origins, t: TokenId) {
    var (signer, nonce) := origins(t);
    signer in l && 0 <= nonce < l[signer].nonce
  }

  /** All that is known about one token identifier. */
  ghost predicate TokenTracked(l: Ledger, minted: bool, burned: bool, origins: Origins, t: TokenId) {
    && (minted ==> Used(l, origins, t))
    && (burned ==> minted)
    && (forall x | Holds(l, x, t) ::
          minted && !burned && l[x].store[t].Signer() == Some(origins(t).0) && l[x].store[t].nonce == origins(t).1)
    && (minted && !burned ==> exists x :: Holds(l, x, t))
    && (forall x, y | Holds(l, x, t) && Holds(l, y, t) :: x == y)
  }

  ghost predicate AllTracked(l: Ledger, minted: set<TokenId>, burned: set<TokenId>, origins: Origins) {
    && (forall x | x in l :: 0 <= l[x].nonce)
    && forall t :: TokenTracked(l, t in minted, t in burned, origins, t)
  }

  ghost predicate Tracked(run: Run, origins: Origins) {
    AllTracked(After(run), Minted(run), Burned(run), origins)
  }

  ghost predicate HeldOnce(l: Ledger) {
    forall x, y, t | Holds(l, x, t) && Holds(l, y, t) :: x == y
  }

  ghost predicate HeldExactly(l: Ledger, tokens: set<TokenId>) {
    forall t :: t in tokens <==> exists x :: Holds(l, x, t)
  }

  /** In every reachable state a token is held by at most one account, and the tokens held are
      exactly those minted and not burned. */
  lemma {:induction false} SingleHolder(run: Run, origins: Origins)
    requires SignaturesBind(run, origins)
    ensures HeldOnce(After(run))
    ensures HeldExactly(After(run), Minted(run) - Burned(run))
  {
    AlwaysTracked(run, origins);
    TrackedMeansSingleHolder(After(run), Minted(run), Burned(run), origins);
  }

  lemma TrackedMeansSingleHolder(l: Ledger, minted: set<TokenId>, burned: set<TokenId>, origins: Origins)
    requires AllTracked(l, minted, burned, origins)
    ensures HeldOnce(l) && HeldExactly(l, minted - burned)
  {
    forall x, y, t | Holds(l, x, t) && Holds(l, y, t)
      ensures x == y
    {
      assert TokenTracked(l, t in minted, t in burned, origins, t);
    }
    forall t
      ensures t in minted - burned <==> exists x :: Holds(l, x, t)
    {
      assert TokenTracked(l, t in minted, t in burned, origins, t);
    }
  }

  lemma {:induction false} AlwaysTracked(run: Run, origins: Origins)
    requires SignaturesBind(run, origins)
    ensures Tracked(run, origins)
  {
    match run
    case Start =>
    case Then(before, req, txId) =>
      var l := After(before);
      AlwaysTracked(before, origins);
      WellFormedAfter(before);
      ExecuteIsOneChange(l, req, txId);
      var change := ChangeOf(l, req, txId);
      if change.Posting? {
        PostingIsLawful(l, req, txId);
        PostingRecorded(run, change.trx);
        if change.trx.MintTokenTx? { MintedAsRequested(l, req, txId); }
        PostingKeepsAllTracked(l, change.trx, Minted(before), Burned(before), origins);
      } else {
        OtherChangesKeepTracked(run, origins, change);
      }
  }

  lemma {:induction false} OtherChangesKeepTracked(run: Run, origins: Origins, change: Change)
    requires run.Then? && Tracked(run.before, origins) && WellFormed(After(run.before))
    requires change == ChangeOf(After(run.before), run.request, run.txId) && !change.Posting?
    requires After(run) == Changed(After(run.before), change)
    requires OutcomeOf(run).Succeeded() <==> change.Opening?
    ensures Tracked(run, origins)
  {
    var l, l' := After(run.before), After(run);
    assert Minted(run) == Minted(run.before) && Burned(run) == Burned(run.before);
    assert forall x | x in l :: x in l' && l'[x].nonce == l[x].nonce;
    forall t
      ensures TokenTracked(l', t in Minted(run), t in Burned(run), origins, t)
    {
      assert TokenTracked(l, t in Minted(run), t in Burned(run), origins, t);
      forall x
        ensures Holds(l', x, t) <==> Holds(l, x, t)
        ensures Holds(l, x, t) ==> l'[x].store[t] == l[x].store[t]
      {
        OtherChangesMoveNothing(l, change, x, t);
      }
    }
  }

  /** The identifiers a posting mints or burns. */
  function MintedBy(trx: Transaction): set<TokenId> {
    if trx.MintTokenTx? then {trx.token.Id()} else {}
  }

  function BurnedBy(trx: Transaction): set<TokenId> {
    if trx.BurnTokenTx? then {trx.tokenId} else {}
  }

  lemma PostingKeepsAllTracked(
    l: Ledger, trx: Transaction, minted: set<TokenId>, burned: set<TokenId>, origins: Origins)
    requires WellFormed(l) && Lawful(l, trx) && AllTracked(l, minted, burned, origins)
    requires trx.MintTokenTx? ==>
               && trx.token.nonce == l[trx.receiver].nonce && trx.token.Signer() == Some(trx.receiver)
               && origins(trx.token.Id()) == (trx.receiver, trx.token.nonce)
    ensures AllTracked(PostAll(l, trx), minted + MintedBy(trx), burned + BurnedBy(trx), origins)
  {
    var l' := PostAll(l, trx);
    PostingMovesTokens(l, trx);
    PostingAdvancesNonces(l, trx);
    forall t
      ensures TokenTracked(l', t in minted + MintedBy(trx), t in burned + BurnedBy(trx), origins, t)
    {
      PostingKeepsTokenTracked(l, l', trx, t in minted, t in burned, origins, t);
    }
  }

  lemma PostingKeepsTokenTracked(
    l: Ledger, l': Ledger, trx: Transaction, minted: bool, burned: bool, origins: Origins, t: TokenId)
    requires WellFormed(l) && Lawful(l, trx) && TokenTracked(l, minted, burned, origins, t)
    requires Moved(l, trx, l') && NoncesAdvance(l, trx, l')
    requires trx.MintTokenTx? ==>
               && 0 <= l[trx.receiver].nonce && trx.token.nonce == l[trx.receiver].nonce
               && trx.token.Signer() == Some(trx.receiver)
               && origins(trx.token.Id()) == (trx.receiver, trx.token.nonce)
    ensures TokenTracked(l', minted || (trx.MintTokenTx? && t == trx.token.Id()),
                         burned || (trx.BurnTokenTx? && t == trx.tokenId), origins, t)
  {
    if trx.MintTokenTx? && t == trx.token.Id() {
      MintedTokenTracked(l, l', trx, minted, burned, origins);
    } else if (trx.TransferTokenTx? || trx.ClawbackTx?) && t == trx.token.Id() {
      MovedTokenTracked(l, l', trx, minted, burned, origins);
    } else if trx.BurnTokenTx? && t == trx.tokenId {
      BurnedTokenTracked(l, l', trx, minted, burned, origins);
    } else {
      OtherTokenTracked(l, l', trx, minted, burned, origins, t);
    }
  }

  lemma {:induction false} PostingRecorded(run: Run, trx: Transaction)
    requires run.Then? && OutcomeOf(run).Succeeded()
    requires ChangeOf(After(run.before), run.request, run.txId) == Posting(trx)
    ensures Minted(run) == Minted(run.before) + MintedBy(trx)
    ensures Burned(run) == Burned(run.before) + BurnedBy(trx)
  {
    OutcomeNamesMint(After(run.before), run.request, run.txId);
    PostedAsRequested(After(run.before), run.request, run.txId);
  }

  lemma OutcomeNamesMint(l: Ledger, req: Request, txId: TxId)
    ensures Execute(l, req, txId).1.Succeeded() ==>
            Execute(l, req, txId).1 == if req.MintToken? then DoneMint(MintedToken(req).Id()) else Done
  {
  }

  lemma PostedAsRequested(l: Ledger, req: Request, txId: TxId)
    requires ChangeOf(l, req, txId).Posting?
    ensures MintedBy(ChangeOf(l, req, txId).trx) == if req.MintToken? then {MintedToken(req).Id()} else {}
    ensures BurnedBy(ChangeOf(l, req, txId).trx) == if req.BurnToken? then {req.tokenId} else {}
  {
  }

  lemma MintedAsRequested(l: Ledger, req: Request, txId: TxId)
    requires ChangeOf(l, req, txId).Posting? && ChangeOf(l, req, txId).trx.MintTokenTx?
    ensures var trx := ChangeOf(l, req, txId).trx;
            && req.MintToken? && trx.token == MintedToken(req)
            && Parse(req.signature.signerId) == Some(trx.receiver)
            && trx.receiver in l && trx.token.nonce == l[trx.receiver].nonce
  {
  }

  /** A token about to be minted cannot have been minted before: its nonce is not used yet. */
  lemma MintedTokenTracked(l: Ledger, l': Ledger, trx: Transaction, minted: bool, burned: bool, origins: Origins)
    requires trx.MintTokenTx? && trx.receiver in l && 0 <= l[trx.receiver].nonce && WellFormed(l)
    requires TokenTracked(l, minted, burned, origins, trx.token.Id())
    requires trx.token.Signer() == Some(trx.receiver) && trx.token.nonce == l[trx.receiver].nonce
    requires origins(trx.token.Id()) == (trx.receiver, trx.token.nonce)
    requires Moved(l, trx, l') && NoncesAdvance(l, trx, l')
    ensures !minted
    ensures TokenTracked(l', true, burned, origins, trx.token.Id())
  {
    var id := trx.token.Id();
    assert !Used(l, origins, id);
    assert forall x :: !Holds(l, x, id);
    assert Holds(l', trx.receiver, id);
  }

  lemma MovedTokenTracked(l: Ledger, l': Ledger, trx: Transaction, minted: bool, burned: bool, origins: Origins)
    requires (trx.TransferTokenTx? || trx.ClawbackTx?) && WellFormed(l)
    requires Holds(l, trx.sender, trx.token.Id()) && l[trx.sender].store[trx.token.Id()] == trx.token
    requires trx.receiver in l && trx.receiver != trx.sender
    requires TokenTracked(l, minted, burned, origins, trx.token.Id())
    requires Moved(l, trx, l') && NoncesAdvance(l, trx, l')
    ensures TokenTracked(l', minted, burned, origins, trx.token.Id())
  {
    var id := trx.token.Id();
    assert Holds(l', trx.receiver, id);
    forall x | Holds(l', x, id)
      ensures x == trx.receiver
    {
      assert l[x].id == x && OwnsAfter(l[x], trx, id);
      if x != trx.receiver { assert Holds(l, x, id); }
    }
    assert l'[trx.receiver].store[id] == trx.token;
  }

  lemma BurnedTokenTracked(l: Ledger, l': Ledger, trx: Transaction, minted: bool, burned: bool, origins: Origins)
    requires trx.BurnTokenTx? && Holds(l, trx.sender, trx.tokenId) && WellFormed(l)
    requires TokenTracked(l, minted, burned, origins, trx.tokenId)
    requires Moved(l, trx, l') && NoncesAdvance(l, trx, l')
    ensures TokenTracked(l', minted, true, origins, trx.tokenId)
  {
    forall x
      ensures !Holds(l', x, trx.tokenId)
    {
      if Holds(l', x, trx.tokenId) {
        assert l[x].id == x && Holds(l, x, trx.tokenId);
      }
    }
  }

  lemma OtherTokenTracked(
    l: Ledger, l': Ledger, trx: Transaction, minted: bool, burned: bool, origins: Origins, t: TokenId)
    requires TokenTracked(l, minted, burned, origins, t) && WellFormed(l)
    requires trx.MintTokenTx? || trx.TransferTokenTx? || trx.ClawbackTx? ==> t != trx.token.Id()
    requires trx.BurnTokenTx? ==> t != trx.tokenId
    requires Moved(l, trx, l') && NoncesAdvance(l, trx, l')
    ensures TokenTracked(l', minted, burned, origins, t)
  {
    forall x ensures Holds(l', x, t) <==> Holds(l, x, t) { }
  }
}
