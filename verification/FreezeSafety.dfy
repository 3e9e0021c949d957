/** What can happen to a token during its life, and to a frozen token while it is frozen. */
module FreezeSafety {
  import opened Wrappers
  import opened Ids
  import opened Tokens
  import opened Transactions
  import opened Ledgers
  import opened Changes
  import opened Holdings

  predicate HoldsExactly(l: Ledger, h: ScalegraphId, t: TokenId, token: Token) {
    Holds(l, h, t) && l[h].store[t] == token
  }

  /** What one request does to a held token. */
  datatype Fate =
    | Kept
    | Transferred(to: ScalegraphId)
    | ClawedBack(to: ScalegraphId)
    | Frozen
    | Unfrozen
    | Destroyed

  function FateOf(change: Change, h: ScalegraphId, t: TokenId): Fate {
    match change
    case Posting(TransferTokenTx(_, s, r, token, _)) => if s == h && token.Id() == t then Transferred(r) else Kept
    case Posting(ClawbackTx(_, s, r, token, _)) => if s == h && token.Id() == t then ClawedBack(r) else Kept
    case Posting(FreezeTx(_, _, r, frozen, _)) => if r == h && frozen == t then Frozen else Kept
    case Posting(UnfreezeTx(_, _, r, frozen, _)) => if r == h && frozen == t then Unfrozen else Kept
    case Posting(BurnTokenTx(_, s, burned, _)) => if s == h && burned == t then Destroyed else Kept
    case _ => Kept
  }

  /** The complete life of a token, step by step: a transfer needs it unfrozen, a clawback goes to its
      clawback address, only its freeze authority flips the flag, only its signer burns it, and
      apart from that flag nothing about it ever changes. */
  lemma TokenStep(l: Ledger, req: Request, txId: TxId, h: ScalegraphId, t: TokenId, token: Token)
    requires WellFormed(l) && HoldsExactly(l, h, t, token)
    ensures
      var l', change := Execute(l, req, txId).0, ChangeOf(l, req, txId);
      match FateOf(change, h, t)
      case Kept => HoldsExactly(l', h, t, token)
      case Transferred(to) =>
        !token.frozen && req == TransferToken(h, to, t, req.nonce) && HoldsExactly(l', to, t, token) && !Holds(l', h, t)
      case ClawedBack(to) =>
        && token.clawback == Some(to) && req == ClawbackToken(h, to, t, req.nonce)
        && HoldsExactly(l', to, t, token) && !Holds(l', h, t)
      case Frozen =>
        && !token.frozen && req.FreezeToken? && token.freeze == Some(req.authority)
        && HoldsExactly(l', h, t, token.(frozen := true))
      case Unfrozen =>
        && token.frozen && req.UnfreezeToken? && token.freeze == Some(req.authority)
        && HoldsExactly(l', h, t, token.(frozen := false))
      case Destroyed => token.Signer() == Some(h) && req == BurnToken(h, t, req.nonce) && !Holds(l', h, t)
  {
    ExecuteIsOneChange(l, req, txId);
    var change := ChangeOf(l, req, txId);
    if change.Posting? {
      PostingIsLawful(l, req, txId);
      PostingMovesTokens(l, change.trx);
      FateIsRequested(l, req, txId, h, t);
      PostingFate(l, change.trx, PostAll(l, change.trx), h, t, token);
    } else {
      OtherChangesMoveNothing(l, change, h, t);
    }
  }

  lemma FateIsRequested(l: Ledger, req: Request, txId: TxId, h: ScalegraphId, t: TokenId)
    requires WellFormed(l) && ChangeOf(l, req, txId).Posting?
    ensures
      match FateOf(ChangeOf(l, req, txId), h, t)
      case Kept => true
      case Transferred(to) => req == TransferToken(h, to, t, req.nonce)
      case ClawedBack(to) => req == ClawbackToken(h, to, t, req.nonce)
      case Frozen => req.FreezeToken? && req.authority == ChangeOf(l, req, txId).trx.sender
      case Unfrozen => req.UnfreezeToken? && req.authority == ChangeOf(l, req, txId).trx.sender
      case Destroyed => req == BurnToken(h, t, req.nonce)
  {
    if req.TransferToken? || req.ClawbackToken? {
      PlaceholderTestExact(req.tokenId, l[req.from].store[req.tokenId]);
    }
  }

  lemma PostingFate(l: Ledger, trx: Transaction, l': Ledger, h: ScalegraphId, t: TokenId, token: Token)
    requires WellFormed(l) && Lawful(l, trx) && HoldsExactly(l, h, t, token) && Moved(l, trx, l')
    ensures
      match FateOf(Posting(trx), h, t)
      case Kept => HoldsExactly(l', h, t, token)
      case Transferred(to) => !token.frozen && HoldsExactly(l', to, t, token) && !Holds(l', h, t)
      case ClawedBack(to) => token.clawback == Some(to) && HoldsExactly(l', to, t, token) && !Holds(l', h, t)
      case Frozen => !token.frozen && token.freeze == Some(trx.sender) && HoldsExactly(l', h, t, token.(frozen := true))
      case Unfrozen =>
        token.frozen && token.freeze == Some(trx.sender) && HoldsExactly(l', h, t, token.(frozen := false))
      case Destroyed => token.Signer() == Some(h) && !Holds(l', h, t)
  {
  }

  // Over runs.

  /** Between the two runs no request on token t of the kinds given succeeds. */
  predicate Spared(later: Run, earlier: Run, t: TokenId, unfreezing: bool)
    requires Extends(later, earlier)
  {
    later != earlier ==>
      && Spared(later.before, earlier, t, unfreezing)
      && !(OutcomeOf(later).Succeeded() && later.request.BurnToken? && later.request.tokenId == t)
      && !(unfreezing && OutcomeOf(later).Succeeded() && later.request.UnfreezeToken? && later.request.tokenId == t)
  }

  predicate FrozenWithin(l: Ledger, h: ScalegraphId, t: TokenId, token: Token) {
    HoldsExactly(l, h, t, token) || (token.clawback.Some? && HoldsExactly(l, token.clawback.value, t, token))
  }

  /** From a freeze until an unfreeze or burn, the token stays exactly as it is, flag included, with
      its holder or - clawed back - with its clawback address, and nowhere else. */
  lemma {:induction false} FrozenStays(later: Run, earlier: Run, h: ScalegraphId, t: TokenId, token: Token)
    requires Extends(later, earlier) && Spared(later, earlier, t, true)
    requires FrozenWithin(After(earlier), h, t, token) && token.frozen
    ensures FrozenWithin(After(later), h, t, token)
  {
    if later != earlier {
      FrozenStays(later.before, earlier, h, t, token);
      WellFormedAfter(later.before);
      var l := After(later.before);
      var holder := if HoldsExactly(l, h, t, token) then h else token.clawback.value;
      ExecuteIsOneChange(l, later.request, later.txId);
      TokenStep(l, later.request, later.txId, holder, t, token);
      FateSucceeds(l, later.request, later.txId, holder, t);
    }
  }

  /** ... and nowhere else. */
  lemma {:induction false} FrozenNowhereElse(
    later: Run, earlier: Run, h: ScalegraphId, t: TokenId, token: Token, origins: Origins, x: ScalegraphId)
    requires Extends(later, earlier) && Spared(later, earlier, t, true) && SignaturesBind(later, origins)
    requires HoldsExactly(After(earlier), h, t, token) && token.frozen
    requires Holds(After(later), x, t)
    ensures After(later)[x].store[t] == token && (x == h || token.clawback == Some(x))
  {
    FrozenStays(later, earlier, h, t, token);
    SingleHolder(later, origins);
  }

  lemma FateSucceeds(l: Ledger, req: Request, txId: TxId, h: ScalegraphId, t: TokenId)
    requires WellFormed(l)
    ensures !FateOf(ChangeOf(l, req, txId), h, t).Kept? ==> Execute(l, req, txId).1.Succeeded()
    ensures FateOf(ChangeOf(l, req, txId), h, t).Unfrozen? ==> req.UnfreezeToken? && req.tokenId == t
    ensures FateOf(ChangeOf(l, req, txId), h, t).Destroyed? ==> req.BurnToken? && req.tokenId == t
  {
    ExecuteIsOneChange(l, req, txId);
  }

  /** A successful freeze is where that starts. */
  lemma FreezeFreezes(l: Ledger, req: Request, txId: TxId)
    requires WellFormed(l) && req.FreezeToken? && Execute(l, req, txId).1.Succeeded()
    ensures var l' := Execute(l, req, txId).0;
            && Holds(l', req.holder, req.tokenId)
            && l'[req.holder].store[req.tokenId].frozen
            && l'[req.holder].store[req.tokenId].freeze == Some(req.authority)
  {
    ExecuteIsOneChange(l, req, txId);
    TokenStep(l, req, txId, req.holder, req.tokenId, l[req.holder].store[req.tokenId]);
  }

  /** Someone holds the token, the same in everything but the flag. */
  ghost predicate Alive(l: Ledger, t: TokenId, token: Token) {
    exists h :: Holds(l, h, t) && l[h].store[t].(frozen := token.frozen) == token
  }

  /** Value, signer, addresses and nonce never change from minting to burning, and the token is never lost. */
  lemma {:induction false} ProvenanceConstant(later: Run, earlier: Run, t: TokenId, token: Token)
    requires Extends(later, earlier) && Spared(later, earlier, t, false)
    requires Alive(After(earlier), t, token)
    ensures Alive(After(later), t, token)
  {
    if later != earlier {
      ProvenanceConstant(later.before, earlier, t, token);
      WellFormedAfter(later.before);
      var l := After(later.before);
      var h :| Holds(l, h, t) && l[h].store[t].(frozen := token.frozen) == token;
      TokenStep(l, later.request, later.txId, h, t, l[h].store[t]);
      FateSucceeds(l, later.request, later.txId, h, t);
      var fate := FateOf(ChangeOf(l, later.request, later.txId), h, t);
      assert Holds(After(later), if fate.Transferred? || fate.ClawedBack? then fate.to else h, t);
    }
  }
}
