/** The whole product as a labelled transition system: vault, token ledgers, clock, enclave and
the signatures that exist.  A run is a sequence of enabled actions. */
module System {
  import opened Options
  import opened Abi
  import opened Protocol
  import opened Tokens
  import opened Vault
  import opened Books
  import opened Accounting
  import opened Guarantees
  import opened Enclave
  import opened Rates

  /** `enclaveKeys` are the keys honest enclaves ever sign with; `base` is the ledger before the
      vault's first call. */
  datatype Setup = Setup(chain: Chain, enclaveKeys: set<Address>, base: Ledger)

  /** A withdrawal or settlement the vault accepted. */
  datatype Accept = Accept(settle: bool, id: nat, figure: nat, deadline: nat, time: nat)

  datatype Sys = Sys(
    world: World,
    now: nat,
    issued: set<Signature>,
    grants: seq<Grant>,
    accepted: seq<Accept>)

  datatype Action =
    | Transaction(call: Call)
    | PartySigns(who: Address, message: Word)
    | EnclaveRequest(key: Address, tag: Word, req: Request)
    | Tick(seconds: nat)

  // ---------------------------------------------------------------- enabled actions

  /** The owner only ever installs enclave keys, in callbacks too. */
  predicate HonestRotation(keys: set<Address>, owner: Address, c: Call)
    decreases c, 1
  {
    match c
    case SetTeeSigner(sender, signer) => sender == owner && signer != 0 ==> signer in keys
    case Fund(_, _, _, r) => AllHonest(keys, owner, r.callbacks)
    case Withdraw(_, _, _, _, _, r) => AllHonest(keys, owner, r.callbacks)
    case CancelStream(_, _, _, _, _, p, r) =>
      AllHonest(keys, owner, p.callbacks) && AllHonest(keys, owner, r.callbacks)
    case _ => true
  }

  predicate AllHonest(keys: set<Address>, owner: Address, cs: seq<Call>)
    decreases cs, 0
  {
    forall c | c in cs :: HonestRotation(keys, owner, c)
  }

  /** Nobody can present a signature that was never made. */
  predicate Available(s: Sys, sig: Signature) {
    sig.Ecdsa? ==> sig in s.issued
  }

  predicate Enabled(su: Setup, s: Sys, a: Action) {
    match a
    case Transaction(c) =>
      && Legit(su.chain, c)
      && HonestRotation(su.enclaveKeys, s.world.vault.owner, c)
      && (c.Withdraw? || c.CancelStream? ==> Available(s, c.sig))
    case PartySigns(who, _) => who !in su.enclaveKeys
    case EnclaveRequest(key, tag, req) =>
      && key in su.enclaveKeys
      && (tag == WITHDRAW_TAG || tag == SETTLE_TAG)
      && Available(s, req.callerSig)
    case Tick(_) => true
  }

  // ---------------------------------------------------------------- steps and runs

  function AcceptOf(c: Call, now: nat): seq<Accept> {
    match c
    case Withdraw(_, id, figure, deadline, _, _) => [Accept(false, id, figure, deadline, now)]
    case CancelStream(_, id, figure, deadline, _, _, _) => [Accept(true, id, figure, deadline, now)]
    case _ => []
  }

  function Step(su: Setup, s: Sys, a: Action): Sys {
    match a
    case Transaction(c) =>
      (match Exec(su.chain, s.now, s.world, c)
       case Done(w) => s.(world := w, accepted := s.accepted + AcceptOf(c, s.now))
       case Revert(_) => s)
    case PartySigns(who, message) => s.(issued := s.issued + {Ecdsa(who, message)})
    case EnclaveRequest(key, tag, req) =>
      (match AuthorizeSpec(Some(key), tag, req, s.now)
       case Granted(g, sig) => s.(issued := s.issued + {sig}, grants := s.grants + [g])
       case _ => s)
    case Tick(seconds) => s.(now := s.now + seconds)
  }

  function Run(su: Setup, s: Sys, acts: seq<Action>): Sys {
    if acts == [] then s else Step(su, Run(su, s, acts[..|acts| - 1]), acts[|acts| - 1])
  }

  predicate ValidRun(su: Setup, s: Sys, acts: seq<Action>) {
    acts != [] ==>
      && ValidRun(su, s, acts[..|acts| - 1])
      && Enabled(su, Run(su, s, acts[..|acts| - 1]), acts[|acts| - 1])
  }

  /** A freshly deployed vault, before any stream exists. */
  ghost predicate Init(su: Setup, s: Sys) {
    && SupplyFits(su.base)
    && s.world.ledger == su.base && s.world.trail == []
    && s.world.vault.streams == map[] && s.world.vault.nextStreamId == 1 && s.world.vault.entered == 1
    && s.world.vault.teeSigner in su.enclaveKeys
    && (forall sig | sig in s.issued && sig.Ecdsa? :: sig.signer !in su.enclaveKeys)
    && s.grants == [] && s.accepted == []
  }

  // ---------------------------------------------------------------- what streams keep

  /** Existing streams keep their parties, token, commitment and start time, their counters
      never fall, and a cancelled stream never changes again. */
  ghost predicate Evolves(v: Storage, v': Storage) {
    forall id | id in v.streams ::
      && id in v'.streams
      && SameIdentity(v.streams[id], v'.streams[id])
      && v'.streams[id].funded >= v.streams[id].funded
      && v'.streams[id].withdrawn >= v.streams[id].withdrawn
      && (v.streams[id].cancelled ==> v'.streams[id] == v.streams[id])
  }

  lemma CountersGrow(s: Stream, c: Call)
    requires Guarded(c) && (c.Fund? ==> s.funded + c.amount < TWO128) && !s.cancelled
    requires c.Withdraw? ==> Min(c.figure, s.funded) > s.withdrawn
    ensures var s' := Counters(s, c);
            SameIdentity(s, s') && s'.funded >= s.funded && s'.withdrawn >= s.withdrawn
  {
  }

  lemma TransactionEvolves(su: Setup, s: Sys, c: Call)
    requires WorldOk(su.chain, su.base, s.world) && Legit(su.chain, c)
    ensures Evolves(s.world.vault, Settle(s.world, Exec(su.chain, s.now, s.world, c)).vault)
  {
    var o := Exec(su.chain, s.now, s.world, c);
    if o.Done? {
      forall id | id in s.world.vault.streams
        ensures id in o.world.vault.streams
        ensures var x, y := s.world.vault.streams[id], o.world.vault.streams[id];
                SameIdentity(x, y) && y.funded >= x.funded && y.withdrawn >= x.withdrawn && (x.cancelled ==> y == x)
      {
        ExistingStays(su.chain, su.base, s.now, s.world, c, id);
        OuterCallDecides(su.chain, su.base, s.now, s.world, c, id);
        if Guarded(c) && c.id == id {
          CountersGrow(s.world.vault.At(id), c);
        }
      }
    }
  }

  // ---------------------------------------------------------------- the signer stays honest

  predicate SignerKept(keys: set<Address>, v: Storage, v': Storage) {
    v'.owner == v.owner && (v.teeSigner in keys ==> v'.teeSigner in keys)
  }

  lemma UnguardedSigner(ch: Chain, now: nat, w: World, c: Call, keys: set<Address>)
    requires !Guarded(c) && HonestRotation(keys, w.vault.owner, c)
    ensures var w' := Settle(w, Exec(ch, now, w, c));
            SignerKept(keys, w.vault, w'.vault) && w'.vault.entered == w.vault.entered
  {
  }

  lemma {:induction false} CallbacksSigner(ch: Chain, now: nat, w: World, cs: seq<Call>, keys: set<Address>)
    requires w.vault.entered == 2 && AllHonest(keys, w.vault.owner, cs)
    ensures var w' := ExecAll(ch, now, w, cs);
            SignerKept(keys, w.vault, w'.vault) && w'.vault.entered == 2
    decreases |cs|
  {
    if cs != [] {
      var w' := Settle(w, Exec(ch, now, w, cs[0]));
      if Guarded(cs[0]) {
        LockedReverts(ch, now, w, cs[0]);
      } else {
        UnguardedSigner(ch, now, w, cs[0], keys);
      }
      CallbacksSigner(ch, now, w', cs[1..], keys);
    }
  }

  predicate ReplySigner(keys: set<Address>, w: World, r: Option<World>) {
    r.Some? ==> SignerKept(keys, w.vault, r.value.vault) && r.value.vault.entered == 2
  }

  lemma TokenCallSigner(ch: Chain, now: nat, w: World, token: nat, other: nat, amount: nat, reply: Reply,
                        keys: set<Address>)
    requires w.vault.entered == 2 && AllHonest(keys, w.vault.owner, reply.callbacks)
    ensures ReplySigner(keys, w, TokenOut(ch, now, w, token, other, amount, reply))
    ensures ReplySigner(keys, w, TokenIn(ch, now, w, token, other, amount, reply))
  {
    if token !in ch.standard {
      CallbacksSigner(ch, now, w, reply.callbacks, keys);
    }
  }

  lemma LegsSigner(ch: Chain, now: nat, w: World, id: nat, owed: nat, refund: nat, payReply: Reply, refundReply: Reply,
                   keys: set<Address>)
    requires w.vault.entered == 2
    requires AllHonest(keys, w.vault.owner, payReply.callbacks) && AllHonest(keys, w.vault.owner, refundReply.callbacks)
    ensures var r := PayLeg(ch, now, w, id, owed, payReply);
            r.Some? ==> ReplySigner(keys, w, RefundLeg(ch, now, r.value, id, refund, refundReply))
  {
    var s := w.vault.At(id);
    TokenCallSigner(ch, now, w, s.token, s.recipient, owed, payReply, keys);
    var r := PayLeg(ch, now, w, id, owed, payReply);
    if r.Some? {
      var t := r.value.vault.At(id);
      TokenCallSigner(ch, now, r.value, t.token, t.employer, refund, refundReply, keys);
    }
  }

  lemma TransactionSigner(ch: Chain, now: nat, w: World, c: Call, keys: set<Address>)
    requires HonestRotation(keys, w.vault.owner, c)
    ensures SignerKept(keys, w.vault, Settle(w, Exec(ch, now, w, c)).vault)
  {
    var s := if Guarded(c) then w.vault.At(c.id) else AbsentStream();
    match c
    case Fund(sender, id, amount, reply) =>
      if ExecFund(ch, now, w, c).Done? {
        TokenCallSigner(ch, now, Entered(w, id, AfterFund(s, amount)), s.token, sender, amount, reply, keys);
      }
    case Withdraw(_, id, figure, _, _, reply) =>
      if ExecWithdraw(ch, now, w, c).Done? {
        TokenCallSigner(ch, now, Entered(w, id, AfterWithdraw(s, figure)), s.token, s.recipient,
                        Min(figure, s.funded) - s.withdrawn, reply, keys);
      }
    case CancelStream(_, id, figure, _, _, payReply, refundReply) =>
      if ExecCancel(ch, now, w, c).Done? {
        LegsSigner(ch, now, Entered(w, id, AfterCancel(s, figure)), id, OwedOnCancel(s, figure),
                   RefundOnCancel(s, figure), payReply, refundReply, keys);
      }
    case _ => UnguardedSigner(ch, now, w, c, keys);
  }

  // ---------------------------------------------------------------- system invariant

  predicate Covers(grants: seq<Grant>, key: Address, message: Word) {
    exists g :: g in grants && g.key == key && AuthMessage(g.auth) == message
  }

  /** Enclave keys have only signed what was granted. */
  ghost predicate SignedOk(su: Setup, s: Sys) {
    forall sig | sig in s.issued && sig.Ecdsa? && sig.signer in su.enclaveKeys ::
      Covers(s.grants, sig.signer, sig.message)
  }

  /** Every grant is sound, not in the future, and its caller's challenge signature exists. */
  ghost predicate GrantsOk(s: Sys) {
    forall g | g in s.grants ::
      GrantOk(g) && g.time <= s.now && Ecdsa(g.caller, ChallengeMessage(g.challenge)) in s.issued
  }

  function TermsOf(g: Grant): Terms
    requires DecodeTerms(g.blob).Some?
  {
    DecodeTerms(g.blob).value
  }

  predicate BackedBy(grants: seq<Grant>, x: Stream) {
    x.withdrawn > 0 ==> exists g :: g in grants && g.auth.commitment == x.commitment && x.withdrawn <= g.auth.figure
  }

  ghost predicate StreamsBacked(s: Sys) {
    forall id | id in s.world.vault.streams :: BackedBy(s.grants, s.world.vault.streams[id])
  }

  /** The grant an accepted call used: same chain, vault, stream, stored commitment, figure,
      deadline and purpose, made no later than the call and no more than ten minutes before. */
  predicate Justifies(su: Setup, g: Grant, x: Stream, a: Accept) {
    && g.auth.tag == (if a.settle then SETTLE_TAG else WITHDRAW_TAG)
    && g.auth.chainId == su.chain.chainId && g.auth.vault == su.chain.vault
    && g.auth.streamId == a.id && g.auth.commitment == x.commitment
    && g.auth.figure == a.figure && g.auth.deadline == a.deadline
    && g.time <= a.time <= a.deadline
  }

  /** After a settlement the lifetime receipts are fixed between two accruals. */
  predicate SettledWithin(x: Stream, t: Terms, time: int) {
    && x.cancelled
    && Min(x.funded, AccruedAt(t, time - AUTH_TTL_SECONDS)) <= x.withdrawn
    && x.withdrawn <= Min(x.funded, AccruedAt(t, time))
  }

  predicate AcceptOk(su: Setup, s: Sys, a: Accept) {
    && a.id in s.world.vault.streams
    && a.time <= s.now
    && exists g ::
      && g in s.grants
      && DecodeTerms(g.blob).Some?
      && Justifies(su, g, s.world.vault.streams[a.id], a)
      && (a.settle ==> SettledWithin(s.world.vault.streams[a.id], TermsOf(g), a.time))
  }

  ghost predicate AcceptsOk(su: Setup, s: Sys) {
    forall a | a in s.accepted :: AcceptOk(su, s, a)
  }

  /** Only settlements cancel. */
  ghost predicate CancelsAccepted(s: Sys) {
    forall id | id in s.world.vault.streams && s.world.vault.streams[id].cancelled ::
      exists a :: a in s.accepted && a.settle && a.id == id
  }

  ghost predicate Inv(su: Setup, s: Sys) {
    && WorldOk(su.chain, su.base, s.world)
    && s.world.vault.teeSigner in su.enclaveKeys
    && SignedOk(su, s)
    && GrantsOk(s)
    && StreamsBacked(s)
    && AcceptsOk(su, s)
    && CancelsAccepted(s)
  }

  lemma InitInv(su: Setup, s: Sys)
    requires Init(su, s)
    ensures Inv(su, s)
  {
    assert forall id: nat :: StreamBooks(s.world, id);
    forall t: nat ensures Owed(s.world.vault, t, 1) == 0 {
      assert Owed(s.world.vault, t, 0) == 0;
    }
  }

  // ---------------------------------------------------------------- off-chain steps

  lemma SignKeepsInv(su: Setup, s: Sys, who: Address, message: Word)
    requires Inv(su, s) && who !in su.enclaveKeys
    ensures Inv(su, Step(su, s, PartySigns(who, message)))
  {
    var s' := Step(su, s, PartySigns(who, message));
    forall a | a in s'.accepted ensures AcceptOk(su, s', a) {
      assert AcceptOk(su, s, a);
    }
  }

  lemma TickKeepsInv(su: Setup, s: Sys, seconds: nat)
    requires Inv(su, s)
    ensures Inv(su, Step(su, s, Tick(seconds)))
  {
    var s' := Step(su, s, Tick(seconds));
    forall a | a in s'.accepted ensures AcceptOk(su, s', a) {
      assert AcceptOk(su, s, a);
    }
  }

  /** The system after a grant. */
  function Issue(s: Sys, g: Grant, sig: Signature): Sys {
    s.(issued := s.issued + {sig}, grants := s.grants + [g])
  }

  lemma IssueCovers(su: Setup, s: Sys, g: Grant, sig: Signature)
    requires SignedOk(su, s) && sig == Ecdsa(g.key, AuthMessage(g.auth))
    ensures SignedOk(su, Issue(s, g, sig))
  {
    var s' := Issue(s, g, sig);
    assert s'.grants[|s.grants|] == g;
    forall made | made in s'.issued && made.Ecdsa? && made.signer in su.enclaveKeys
      ensures Covers(s'.grants, made.signer, made.message)
    {
      if made in s.issued {
        assert Covers(s.grants, made.signer, made.message);
      }
    }
  }

  lemma IssueBacks(s: Sys, g: Grant, sig: Signature)
    requires StreamsBacked(s)
    ensures StreamsBacked(Issue(s, g, sig))
  {
    forall id | id in s.world.vault.streams ensures BackedBy(s.grants + [g], s.world.vault.streams[id]) {
      assert BackedBy(s.grants, s.world.vault.streams[id]);
    }
  }

  lemma IssueAccepts(su: Setup, s: Sys, g: Grant, sig: Signature)
    requires AcceptsOk(su, s)
    ensures AcceptsOk(su, Issue(s, g, sig))
  {
    forall a | a in s.accepted ensures AcceptOk(su, Issue(s, g, sig), a) {
      assert AcceptOk(su, s, a);
    }
  }

  lemma IssueGrants(s: Sys, g: Grant, sig: Signature)
    requires GrantsOk(s) && GrantOk(g) && g.time <= s.now
    requires Ecdsa(g.caller, ChallengeMessage(g.challenge)) in s.issued
    ensures GrantsOk(Issue(s, g, sig))
  {
  }

  lemma GrantKeepsInv(su: Setup, s: Sys, key: Address, tag: Word, req: Request)
    requires Inv(su, s) && Enabled(su, s, EnclaveRequest(key, tag, req))
    ensures Inv(su, Step(su, s, EnclaveRequest(key, tag, req)))
  {
    var r := AuthorizeSpec(Some(key), tag, req, s.now);
    if r.Granted? {
      GrantsAreOk(Some(key), tag, req, s.now);
      IssueCovers(su, s, r.grant, r.sig);
      IssueBacks(s, r.grant, r.sig);
      IssueAccepts(su, s, r.grant, r.sig);
      IssueGrants(s, r.grant, r.sig);
      assert Step(su, s, EnclaveRequest(key, tag, req)) == Issue(s, r.grant, r.sig);
    }
  }

  // ---------------------------------------------------------------- transactions

  /** A signature the vault accepts was granted for exactly this authorization. */
  lemma AcceptedWasGranted(su: Setup, s: Sys, auth: Authorization, sig: Signature) returns (g: Grant)
    requires Inv(su, s) && Available(s, sig)
    requires CheckSignature(s.world.vault.teeSigner, AuthMessage(auth), sig).None?
    ensures g in s.grants && g.auth == auth && GrantOk(g) && g.time <= s.now
  {
    assert Covers(s.grants, sig.signer, sig.message);
    g :| g in s.grants && g.key == sig.signer && AuthMessage(g.auth) == sig.message;
    AuthMessageInjective(g.auth, auth);
  }

  /** One commitment opens to one blob. */
  lemma SameBlob(a: seq<Octet>, b: seq<Octet>)
    requires CommitTo(a) == CommitTo(b)
    ensures a == b
  {
    KeccakInjective(Lift(a), Lift(b));
    LiftInjective(a, b);
  }

  /** A backed stream has received no more than its terms have accrued by now. */
  lemma BackedBound(s: Sys, x: Stream, blob: seq<Octet>)
    requires GrantsOk(s) && BackedBy(s.grants, x) && CommitTo(blob) == x.commitment
    requires DecodeTerms(blob).Some?
    ensures x.withdrawn <= AccruedAt(DecodeTerms(blob).value, s.now)
  {
    if x.withdrawn > 0 {
      var g :| g in s.grants && g.auth.commitment == x.commitment && x.withdrawn <= g.auth.figure;
      SameBlob(g.blob, blob);
      AccruedMonotone(DecodeTerms(blob).value, g.time, s.now);
    }
  }

  lemma OldAcceptKept(su: Setup, s: Sys, s': Sys, a: Accept)
    requires AcceptOk(su, s, a) && Evolves(s.world.vault, s'.world.vault)
    requires s'.grants == s.grants && s'.now == s.now
    ensures AcceptOk(su, s', a)
  {
  }

  /** Settling with a figure between two bounds leaves the receipts between them, funding allowing. */
  lemma FigureBoundsReceipts(x: Stream, figure: nat, low: nat, high: nat)
    requires x.withdrawn <= x.funded && x.withdrawn <= high && low <= figure <= high
    ensures Min(x.funded, low) <= AfterCancel(x, figure).withdrawn <= Min(x.funded, high)
  {
  }

  /** The settlement window of a cancel accepted now. */
  lemma CancelWithin(s: Sys, x: Stream, g: Grant, now: nat)
    requires GrantsOk(s) && g in s.grants && s.now == now && now <= g.auth.deadline
    requires x.commitment == g.auth.commitment && BackedBy(s.grants, x) && x.withdrawn <= x.funded
    ensures SettledWithin(AfterCancel(x, g.auth.figure), TermsOf(g), now)
  {
    var t := TermsOf(g);
    BackedBound(s, x, g.blob);
    var low, figure, high := AccruedAt(t, now - AUTH_TTL_SECONDS), AccruedAt(t, g.time), AccruedAt(t, now);
    assert figure == g.auth.figure && low <= figure <= high by {
      AccruedMonotone(t, g.time, now);
      AccruedMonotone(t, now - AUTH_TTL_SECONDS, g.time);
    }
    FigureBoundsReceipts(x, figure, low, high);
  }

  /** The grant behind a call the vault accepts. */
  lemma AcceptedGrant(su: Setup, s: Sys, c: Call) returns (g: Grant)
    requires Inv(su, s) && Enabled(su, s, Transaction(c)) && (c.Withdraw? || c.CancelStream?)
    requires Exec(su.chain, s.now, s.world, c).Done?
    ensures g in s.grants && GrantOk(g) && g.time <= s.now <= c.deadline && c.id in s.world.vault.streams
    ensures g.auth == Authorization(if c.Withdraw? then WITHDRAW_TAG else SETTLE_TAG, su.chain.chainId, su.chain.vault,
                                    c.id, s.world.vault.streams[c.id].commitment, c.figure, c.deadline)
  {
    GuardedCompletes(su.chain, su.base, s.now, s.world, c);
    var tag := if c.Withdraw? then WITHDRAW_TAG else SETTLE_TAG;
    var auth := AuthorizationFor(su.chain, s.world.vault, tag, c.id, c.figure, c.deadline);
    g := AcceptedWasGranted(su, s, auth, c.sig);
  }

  /** What a grant does for a stream it is used on. */
  lemma GrantUsed(su: Setup, s: Sys, c: Call, x: Stream, g: Grant, a: Accept)
    requires GrantsOk(s) && g in s.grants && (c.Withdraw? || c.CancelStream?) && AcceptOf(c, s.now) == [a]
    requires BackedBy(s.grants, x) && x.withdrawn <= x.funded && s.now <= c.deadline
    requires g.auth == Authorization(if c.Withdraw? then WITHDRAW_TAG else SETTLE_TAG, su.chain.chainId, su.chain.vault,
                                     c.id, x.commitment, c.figure, c.deadline)
    ensures BackedBy(s.grants, Counters(x, c))
    ensures DecodeTerms(g.blob).Some? && Justifies(su, g, Counters(x, c), a)
    ensures a.settle ==> SettledWithin(Counters(x, c), TermsOf(g), a.time)
  {
    if c.CancelStream? {
      CancelWithin(s, x, g, s.now);
    }
  }

  /** A completed guarded call is justified by a grant and keeps the stream backed. */
  lemma NewAccept(su: Setup, s: Sys, c: Call, x': Stream, a: Accept)
    requires Inv(su, s) && Enabled(su, s, Transaction(c)) && (c.Withdraw? || c.CancelStream?)
    requires Exec(su.chain, s.now, s.world, c).Done?
    requires x' == Counters(s.world.vault.At(c.id), c) && c.id in s.world.vault.streams
    requires AcceptOf(c, s.now) == [a]
    ensures BackedBy(s.grants, x')
    ensures exists g :: g in s.grants && DecodeTerms(g.blob).Some? && Justifies(su, g, x', a)
                        && (a.settle ==> SettledWithin(x', TermsOf(g), a.time))
  {
    var x := s.world.vault.At(c.id);
    var g := AcceptedGrant(su, s, c);
    assert BackedBy(s.grants, x);
    assert StreamOk(su.chain, s.world.vault.streams[c.id]);
    GrantUsed(su, s, c, x, g, a);
  }

  lemma TransactionBacked(su: Setup, s: Sys, c: Call, id: nat)
    requires Inv(su, s) && Enabled(su, s, Transaction(c)) && Exec(su.chain, s.now, s.world, c).Done?
    requires id in Exec(su.chain, s.now, s.world, c).world.vault.streams
    ensures BackedBy(s.grants, Exec(su.chain, s.now, s.world, c).world.vault.streams[id])
  {
    if id in s.world.vault.streams {
      OuterCallDecides(su.chain, su.base, s.now, s.world, c, id);
      assert BackedBy(s.grants, s.world.vault.streams[id]);
      if (c.Withdraw? || c.CancelStream?) && c.id == id {
        NewAccept(su, s, c, Counters(s.world.vault.At(id), c), AcceptOf(c, s.now)[0]);
      }
    } else if Guarded(c) {
      GuardedCompletes(su.chain, su.base, s.now, s.world, c);
    } else {
      UnguardedShifts(su.chain, s.now, s.world, c, 0);
    }
  }

  lemma TransactionAccepts(su: Setup, s: Sys, c: Call)
    requires Inv(su, s) && Enabled(su, s, Transaction(c)) && Exec(su.chain, s.now, s.world, c).Done?
    ensures AcceptsOk(su, Step(su, s, Transaction(c)))
  {
    var s' := Step(su, s, Transaction(c));
    TransactionEvolves(su, s, c);
    forall a | a in s'.accepted ensures AcceptOk(su, s', a) {
      if a in s.accepted {
        OldAcceptKept(su, s, s', a);
      } else {
        GuardedCompletes(su.chain, su.base, s.now, s.world, c);
        OuterCallDecides(su.chain, su.base, s.now, s.world, c, c.id);
        NewAccept(su, s, c, s'.world.vault.streams[c.id], a);
      }
    }
  }

  lemma TransactionCancels(su: Setup, s: Sys, c: Call)
    requires Inv(su, s) && Enabled(su, s, Transaction(c)) && Exec(su.chain, s.now, s.world, c).Done?
    ensures CancelsAccepted(Step(su, s, Transaction(c)))
  {
    var s' := Step(su, s, Transaction(c));
    forall id | id in s'.world.vault.streams && s'.world.vault.streams[id].cancelled
      ensures exists a :: a in s'.accepted && a.settle && a.id == id
    {
      if id in s.world.vault.streams {
        OuterCallDecides(su.chain, su.base, s.now, s.world, c, id);
        if s.world.vault.streams[id].cancelled {
          var a :| a in s.accepted && a.settle && a.id == id;
          assert a in s'.accepted;
        } else {
          assert s'.accepted[|s.accepted|] in s'.accepted;
        }
      } else if Guarded(c) {
        GuardedCompletes(su.chain, su.base, s.now, s.world, c);
      } else {
        UnguardedShifts(su.chain, s.now, s.world, c, 0);
      }
    }
  }

  lemma TransactionKeepsInv(su: Setup, s: Sys, c: Call)
    requires Inv(su, s) && Enabled(su, s, Transaction(c))
    ensures Inv(su, Step(su, s, Transaction(c)))
  {
    var s' := Step(su, s, Transaction(c));
    if Exec(su.chain, s.now, s.world, c).Done? {
      EveryCallKeepsWorld(su.chain, su.base, s.now, s.world, c);
      TransactionSigner(su.chain, s.now, s.world, c, su.enclaveKeys);
      forall id | id in s'.world.vault.streams ensures BackedBy(s'.grants, s'.world.vault.streams[id]) {
        TransactionBacked(su, s, c, id);
      }
      TransactionAccepts(su, s, c);
      TransactionCancels(su, s, c);
    }
  }

  lemma StepKeepsInv(su: Setup, s: Sys, a: Action)
    requires Inv(su, s) && Enabled(su, s, a)
    ensures Inv(su, Step(su, s, a))
  {
    match a
    case Transaction(c) => TransactionKeepsInv(su, s, c);
    case PartySigns(who, message) => SignKeepsInv(su, s, who, message);
    case EnclaveRequest(key, tag, req) => GrantKeepsInv(su, s, key, tag, req);
    case Tick(seconds) => TickKeepsInv(su, s, seconds);
  }

  lemma StepEvolves(su: Setup, s: Sys, a: Action)
    requires Inv(su, s) && Enabled(su, s, a)
    ensures Evolves(s.world.vault, Step(su, s, a).world.vault)
  {
    if a.Transaction? {
      TransactionEvolves(su, s, a.call);
    }
  }

  /** The invariant holds at the end of every valid run, and streams evolve along it. */
  lemma {:induction false} RunKeepsInv(su: Setup, s: Sys, acts: seq<Action>)
    requires Inv(su, s) && ValidRun(su, s, acts)
    ensures Inv(su, Run(su, s, acts))
    ensures Evolves(s.world.vault, Run(su, s, acts).world.vault)
    ensures s.now <= Run(su, s, acts).now
  {
    if acts != [] {
      var front := acts[..|acts| - 1];
      RunKeepsInv(su, s, front);
      StepKeepsInv(su, Run(su, s, front), acts[|acts| - 1]);
      StepEvolves(su, Run(su, s, front), acts[|acts| - 1]);
    }
  }
}
