/** What holds in every run of vault and enclave. */
module Theorems {
  import opened Options
  import opened Abi
  import opened Protocol
  import opened Tokens
  import opened Vault
  import opened Books
  import opened Accounting
  import opened Guarantees
  import opened Enclave
  import opened Rates
  import opened System

  /** The states some valid run from a fresh deployment ends in. */
  ghost predicate Reachable(su: Setup, s: Sys) {
    exists s0, acts :: Init(su, s0) && ValidRun(su, s0, acts) && s == Run(su, s0, acts)
  }

  lemma ReachableInv(su: Setup, s: Sys)
    requires Reachable(su, s)
    ensures Inv(su, s)
  {
    var s0, acts :| Init(su, s0) && ValidRun(su, s0, acts) && s == Run(su, s0, acts);
    InitInv(su, s0);
    RunKeepsInv(su, s0, acts);
  }

  lemma {:induction false} RunConcat(su: Setup, s: Sys, a: seq<Action>, b: seq<Action>)
    ensures Run(su, s, a + b) == Run(su, Run(su, s, a), b)
    ensures ValidRun(su, s, a + b) <==> ValidRun(su, s, a) && ValidRun(su, Run(su, s, a), b)
  {
    if b == [] {
      assert a + b == a;
    } else {
      RunConcat(su, s, a, b[..|b| - 1]);
      assert (a + b)[..|a + b| - 1] == a + b[..|b| - 1];
    }
  }

  /** Reachable states are closed under further valid runs, so what holds in every reachable state
      holds at every later point of a run too. */
  lemma ReachableExtends(su: Setup, s: Sys, later: seq<Action>)
    requires Reachable(su, s) && ValidRun(su, s, later)
    ensures Reachable(su, Run(su, s, later))
  {
    var s0, acts :| Init(su, s0) && ValidRun(su, s0, acts) && s == Run(su, s0, acts);
    RunConcat(su, s0, acts, later);
  }

  predicate Opens(blob: seq<Octet>, x: Stream) {
    CommitTo(blob) == x.commitment && DecodeTerms(blob).Some?
  }

  // ---------------------------------------------------------------- safety

  /** A stream never pays more than its funding and what the terms behind its commitment have
      accrued by now; a commitment that opens to no terms never pays at all. */
  lemma PaidWithinAccrual(su: Setup, s: Sys, id: nat)
    requires Reachable(su, s) && id in s.world.vault.streams
    ensures var x := s.world.vault.streams[id];
            && x.withdrawn <= x.funded
            && (forall blob | Opens(blob, x) ::
                  x.withdrawn <= Min(x.funded, AccruedAt(DecodeTerms(blob).value, s.now)))
            && ((forall blob :: !Opens(blob, x)) ==> x.withdrawn == 0)
  {
    ReachableInv(su, s);
    var x := s.world.vault.streams[id];
    assert BackedBy(s.grants, x);
    forall blob | Opens(blob, x)
      ensures x.withdrawn <= Min(x.funded, AccruedAt(DecodeTerms(blob).value, s.now))
    {
      BackedBound(s, x, blob);
    }
    if x.withdrawn > 0 {
      var g :| g in s.grants && g.auth.commitment == x.commitment;
      assert GrantOk(g);
      assert Opens(g.blob, x);
    }
  }

  /** Enclave keys never sign challenges, so an authenticated caller is not an enclave. */
  lemma CallerIsNoEnclave(su: Setup, s: Sys, g: Grant)
    requires Inv(su, s) && g in s.grants
    ensures g.caller !in su.enclaveKeys
  {
    if g.caller in su.enclaveKeys {
      var m := ChallengeMessage(g.challenge);
      assert Covers(s.grants, g.caller, m);
      var h :| h in s.grants && h.key == g.caller && AuthMessage(h.auth) == m;
      assert GrantOk(h);
      MessagesDisjoint(h.auth, g.challenge);
    }
  }

  /** Whenever the vault accepts a withdrawal or a settlement, an enclave has already granted
      exactly that purpose, stream, commitment, figure and deadline, at a time no later than now
      and at most ten minutes ago, after checking a signature that a permitted party of the terms
      had made over a challenge for this very stream and purpose. */
  lemma AcceptedTracesBack(su: Setup, s: Sys, c: Call) returns (g: Grant)
    requires Reachable(su, s) && Enabled(su, s, Transaction(c)) && (c.Withdraw? || c.CancelStream?)
    requires Exec(su.chain, s.now, s.world, c).Done?
    ensures g in s.grants && c.id in s.world.vault.streams
    ensures g.auth == Authorization(if c.Withdraw? then WITHDRAW_TAG else SETTLE_TAG, su.chain.chainId, su.chain.vault,
                                    c.id, s.world.vault.streams[c.id].commitment, c.figure, c.deadline)
    ensures g.time <= s.now <= c.deadline == g.time + AUTH_TTL_SECONDS
    ensures Opens(g.blob, s.world.vault.streams[c.id])
    ensures c.figure == AccruedAt(TermsOf(g), g.time) && Earned(TermsOf(g), g.time, c.figure)
    ensures Permitted(g.auth.tag, TermsOf(g), g.caller) && g.caller !in su.enclaveKeys
    ensures Ecdsa(g.caller, ChallengeMessage(Challenge(su.chain.chainId, su.chain.vault, c.id, g.auth.commitment,
                                                       g.auth.tag, g.challenge.issuedAt))) in s.issued
    ensures Abs(g.challenge.issuedAt - g.time) <= CALLER_AUTH_WINDOW_SECONDS
  {
    ReachableInv(su, s);
    g := AcceptedGrant(su, s, c);
    CallerIsNoEnclave(su, s, g);
    AccruedExactly(TermsOf(g), g.time, c.figure);
  }

  // ---------------------------------------------------------------- money

  /** Conservation, per stream and for any token: deposits are the funding, receipts are
      `withdrawn`, and deposits = receipts + refund + what is still outstanding, nothing being
      outstanding after cancellation and nothing refunded before. */
  lemma Conservation(su: Setup, s: Sys, id: nat)
    requires Reachable(su, s) && id in s.world.vault.streams
    ensures var x := s.world.vault.streams[id];
            var deposits, receipts, refund :=
              Total(s.world.trail, In(id)), Total(s.world.trail, Out(id)), Total(s.world.trail, Back(id));
            && deposits == x.funded < TWO128 && receipts == x.withdrawn
            && receipts + refund <= deposits
            && (x.cancelled ==> deposits == receipts + refund)
            && (!x.cancelled ==> refund == 0)
  {
    ReachableInv(su, s);
    assert StreamBooks(s.world, id);
  }

  /** Solvency: for every standard token the vault holds all its open streams' reserves together;
      exactly those, its balance before the first call and the gifts made to it. */
  lemma Solvency(su: Setup, s: Sys, token: nat)
    requires Reachable(su, s) && token in su.chain.standard
    ensures var reserved := Owed(s.world.vault, token, s.world.vault.nextStreamId);
            && s.world.ledger.Bal(token, su.chain.vault) >= reserved >= 0
            && s.world.ledger.Bal(token, su.chain.vault)
               == reserved + su.base.Bal(token, su.chain.vault) + Total(s.world.trail, Gift(token))
  {
    ReachableInv(su, s);
    OpenWithinOwed(su.chain, s.world.vault, 0, token, s.world.vault.nextStreamId);
    assert Solvent(su.chain, su.base, s.world);
  }

  /** No payout or refund of a standard token ever fails in a reachable state: a withdrawal or a
      settlement completes exactly when its own checks pass. */
  lemma PayoutsNeverFail(su: Setup, s: Sys, c: Call)
    requires Reachable(su, s) && Legit(su.chain, c) && (c.Withdraw? || c.CancelStream?)
    requires s.world.vault.At(c.id).token in su.chain.standard
    ensures Exec(su.chain, s.now, s.world, c).Done?
            <==> (if c.Withdraw? then WithdrawChecks(su.chain, s.now, s.world.vault, c.id, c.figure, c.deadline, c.sig)
                  else CancelChecks(su.chain, s.now, s.world.vault, c.sender, c.id, c.figure, c.deadline, c.sig)).None?
  {
    ReachableInv(su, s);
    if c.Withdraw? {
      WithdrawalPays(su.chain, su.base, s.now, s.world, c);
    } else {
      SettlementPays(su.chain, su.base, s.now, s.world, c);
    }
  }

  // ---------------------------------------------------------------- settlement window

  lemma SettledBounds(su: Setup, s: Sys, a: Accept, blob: seq<Octet>)
    requires Reachable(su, s) && a in s.accepted && a.settle && Opens(blob, s.world.vault.At(a.id))
    ensures a.id in s.world.vault.streams
    ensures SettledWithin(s.world.vault.At(a.id), DecodeTerms(blob).value, a.time)
  {
    ReachableInv(su, s);
    assert AcceptOk(su, s, a);
    var x := s.world.vault.streams[a.id];
    var g :| g in s.grants && DecodeTerms(g.blob).Some? && Justifies(su, g, x, a)
             && SettledWithin(x, TermsOf(g), a.time);
    assert GrantOk(g);
    SameBlob(g.blob, blob);
  }

  lemma CappedGap(funded: nat, low: nat, high: nat, gap: nat)
    requires high - low <= gap
    ensures Min(funded, high) - Min(funded, low) <= gap
  {
  }

  /** After a settlement accepted at time b, at every later state, the lifetime receipts lie
      between min(funded, accrued(b - 600)) and min(funded, accrued(b)), those bounds are at most
      ceil(rate * 600 / 10^12) apart, and the refund is the rest of the funding. */
  lemma SettlementWindow(su: Setup, s: Sys, a: Accept, blob: seq<Octet>)
    requires Reachable(su, s) && a in s.accepted && a.settle && Opens(blob, s.world.vault.At(a.id))
    ensures var x, t := s.world.vault.At(a.id), DecodeTerms(blob).value;
            var low := Min(x.funded, AccruedAt(t, a.time - AUTH_TTL_SECONDS));
            var high := Min(x.funded, AccruedAt(t, a.time));
            && low <= Total(s.world.trail, Out(a.id)) <= high
            && high - low <= CeilDiv(t.ratePerSecond * AUTH_TTL_SECONDS, RATE_SCALE)
            && Total(s.world.trail, Back(a.id)) == x.funded - Total(s.world.trail, Out(a.id))
  {
    SettledBounds(su, s, a, blob);
    Conservation(su, s, a.id);
    var x, t := s.world.vault.At(a.id), DecodeTerms(blob).value;
    var gap := CeilDiv(t.ratePerSecond * AUTH_TTL_SECONDS, RATE_SCALE);
    WindowGrowth(t, a.time, AUTH_TTL_SECONDS);
    CappedGap(x.funded, AccruedAt(t, a.time - AUTH_TTL_SECONDS), AccruedAt(t, a.time), gap);
  }

  /** A stream is cancelled exactly when the vault accepted a settlement of it. */
  lemma CancelledBySettlement(su: Setup, s: Sys, id: nat)
    requires Reachable(su, s) && id in s.world.vault.streams
    ensures s.world.vault.streams[id].cancelled <==> exists a :: a in s.accepted && a.settle && a.id == id
  {
    ReachableInv(su, s);
    if a :| a in s.accepted && a.settle && a.id == id {
      assert AcceptOk(su, s, a);
    }
  }

  // ---------------------------------------------------------------- published terms

  /** All terms ever published for a stream are one and the same blob, and every figure the vault
      ever accepted for it is the accrual of that blob's terms at some time in the ten minutes
      before the acceptance. */
  lemma PublishedTermsAreEnforced(su: Setup, s: Sys, id: nat, blob: seq<Octet>)
    requires Reachable(su, s) && Revealed(id, blob) in s.world.trail
    ensures forall other :: Revealed(id, other) in s.world.trail ==> other == blob
    ensures forall a | a in s.accepted && a.id == id ::
              && DecodeTerms(blob).Some?
              && exists time: nat ::
                  && time <= a.time <= time + AUTH_TTL_SECONDS
                  && a.figure == AccruedAt(DecodeTerms(blob).value, time)
  {
    ReachableInv(su, s);
    forall other | Revealed(id, other) in s.world.trail ensures other == blob {
      SameBlob(other, blob);
    }
    forall a | a in s.accepted && a.id == id
      ensures DecodeTerms(blob).Some?
      ensures exists time: nat :: time <= a.time <= time + AUTH_TTL_SECONDS
                                  && a.figure == AccruedAt(DecodeTerms(blob).value, time)
    {
      assert AcceptOk(su, s, a);
      var g :| g in s.grants && DecodeTerms(g.blob).Some? && Justifies(su, g, s.world.vault.streams[id], a);
      assert GrantOk(g);
      SameBlob(g.blob, blob);
      assert g.time <= a.time <= g.time + AUTH_TTL_SECONDS;
    }
  }

  /** Every figure the vault ever accepted for a stream is what whatever terms open its commitment
      had earned, to the raw unit, at some time in the ten minutes before. */
  lemma AcceptedFigureIsEarned(su: Setup, s: Sys, a: Accept, blob: seq<Octet>)
    requires Reachable(su, s) && a in s.accepted && Opens(blob, s.world.vault.At(a.id))
    ensures exists time: nat :: time <= a.time <= time + 600 && Earned(DecodeTerms(blob).value, time, a.figure)
  {
    ReachableInv(su, s);
    assert AcceptOk(su, s, a);
    var x := s.world.vault.streams[a.id];
    var g :| g in s.grants && DecodeTerms(g.blob).Some? && Justifies(su, g, x, a);
    assert GrantOk(g);
    SameBlob(g.blob, blob);
    AccruedExactly(DecodeTerms(blob).value, g.time, a.figure);
    assert g.time <= a.time <= g.time + 600;
  }

  // ---------------------------------------------------------------- completeness

  /** What the dashboard offers is never negative, and is min(accrued, funded) - withdrawn. */
  lemma AvailableNotNegative(su: Setup, s: Sys, id: nat, blob: seq<Octet>)
    requires Reachable(su, s) && id in s.world.vault.streams && Opens(blob, s.world.vault.streams[id])
    ensures var x, t := s.world.vault.streams[id], DecodeTerms(blob).value;
            && Protocol.Available(t, x.funded, x.withdrawn, s.now) >= 0
            && Protocol.Available(t, x.funded, x.withdrawn, s.now) == Min(AccruedAt(t, s.now), x.funded) - x.withdrawn
  {
    PaidWithinAccrual(su, s, id);
  }

  /** The two off-chain steps of an honest request: sign the challenge, ask the enclave. */
  function HonestChallenge(su: Setup, tag: Word, id: Uint256, blob: seq<Octet>, issuedAt: Uint256): Challenge {
    Challenge(su.chain.chainId, su.chain.vault, id, CommitTo(blob), tag, issuedAt)
  }

  function HonestSteps(su: Setup, key: Address, caller: Address, c: Challenge, blob: seq<Octet>): seq<Action> {
    [PartySigns(caller, ChallengeMessage(c)),
     EnclaveRequest(key, c.purpose,
                    Request(Some(c.streamId), Some(c.vault), Some(c.chainId), c.commitment, Some(blob),
                            Some(c.issuedAt), Ecdsa(caller, ChallengeMessage(c))))]
  }

  /** The authorization an honest request made at `now` yields. */
  function HonestAuth(su: Setup, tag: Word, id: Uint256, blob: seq<Octet>, now: nat): Authorization
    requires DecodeTerms(blob).Some? && now + AUTH_TTL_SECONDS < TWO256
  {
    Authorization(tag, su.chain.chainId, su.chain.vault, id, CommitTo(blob),
                  AccruedAt(DecodeTerms(blob).value, now), now + AUTH_TTL_SECONDS)
  }

  lemma TwoSteps(su: Setup, s: Sys, a: Action, b: Action)
    ensures Run(su, s, [a, b]) == Step(su, Step(su, s, a), b)
    ensures ValidRun(su, s, [a, b]) <==> Enabled(su, s, a) && Enabled(su, Step(su, s, a), b)
  {
    var acts := [a, b];
    assert acts[..1] == [a] && [a][..0] == [];
    assert Run(su, s, [a]) == Step(su, Run(su, s, []), a);
    assert ValidRun(su, s, [a]) <==> Enabled(su, s, a);
  }

  lemma StoredStream(su: Setup, s: Sys, id: Uint256)
    requires Reachable(su, s) && id in s.world.vault.streams
    ensures StreamOk(su.chain, s.world.vault.streams[id]) && s.world.vault.teeSigner in su.enclaveKeys
  {
    ReachableInv(su, s);
  }

  /** From any state, a permitted party's fresh challenge makes authorize succeed, for both purposes. */
  lemma HonestRequestSucceeds(su: Setup, s: Sys, key: Address, tag: Word, caller: Address, id: Uint256,
                              blob: seq<Octet>, issuedAt: Uint256)
    requires DecodeTerms(blob).Some? && s.now + AUTH_TTL_SECONDS < TWO256
    requires key in su.enclaveKeys && caller !in su.enclaveKeys && caller != 0
    requires (tag == WITHDRAW_TAG || tag == SETTLE_TAG) && Permitted(tag, DecodeTerms(blob).value, caller)
    requires Abs(issuedAt - s.now) <= CALLER_AUTH_WINDOW_SECONDS
    ensures var steps := HonestSteps(su, key, caller, HonestChallenge(su, tag, id, blob, issuedAt), blob);
            var s' := Run(su, s, steps);
            && ValidRun(su, s, steps)
            && s'.world == s.world && s'.now == s.now
            && Ecdsa(key, AuthMessage(HonestAuth(su, tag, id, blob, s.now))) in s'.issued
  {
    var c := HonestChallenge(su, tag, id, blob, issuedAt);
    var steps := HonestSteps(su, key, caller, c, blob);
    TwoSteps(su, s, steps[0], steps[1]);
    assert steps == [steps[0], steps[1]];
    HonestRequestGranted(key, tag, blob, c, caller, s.now);
    GrantsAreOk(Some(key), tag, steps[1].req, s.now);
  }

  lemma {:induction false} IssuedGrows(su: Setup, s: Sys, acts: seq<Action>)
    ensures s.issued <= Run(su, s, acts).issued
  {
    if acts != [] {
      IssuedGrows(su, s, acts[..|acts| - 1]);
    }
  }

  /** An authorization made by the installed signer that is still in time, names this vault, an
      open stream of a standard token and its commitment, and has something left to pay. */
  predicate Payable(su: Setup, s: Sys, key: Address, auth: Authorization) {
    && s.now <= auth.deadline && s.world.vault.teeSigner == key
    && auth.streamId in s.world.vault.streams
    && var x := s.world.vault.streams[auth.streamId];
       && auth == Authorization(WITHDRAW_TAG, su.chain.chainId, su.chain.vault, auth.streamId, x.commitment,
                                auth.figure, auth.deadline)
       && !x.cancelled && x.token in su.chain.standard && Min(auth.figure, x.funded) > x.withdrawn
  }

  function Payout(s: Sys, auth: Authorization): int {
    var x := s.world.vault.At(auth.streamId);
    Min(auth.figure, x.funded) - x.withdrawn
  }

  function Submission(key: Address, auth: Authorization, sender: Address): Call {
    Call.Withdraw(sender, auth.streamId, auth.figure, auth.deadline, Ecdsa(key, AuthMessage(auth)), Reply([], true))
  }

  /** Submitting the signature is enabled and completes. */
  predicate Submits(su: Setup, s: Sys, key: Address, auth: Authorization, sender: Address) {
    && Enabled(su, s, Transaction(Submission(key, auth, sender)))
    && Exec(su.chain, s.now, s.world, Submission(key, auth, sender)).Done?
  }

  function AfterSubmission(su: Setup, s: Sys, key: Address, auth: Authorization, sender: Address): Ledger
    requires Submits(su, s, key, auth, sender)
  {
    Exec(su.chain, s.now, s.world, Submission(key, auth, sender)).world.ledger
  }

  lemma PayableChecks(su: Setup, s: Sys, key: Address, auth: Authorization)
    requires WorldOk(su.chain, su.base, s.world) && key != 0 && Payable(su, s, key, auth)
    ensures WithdrawChecks(su.chain, s.now, s.world.vault, auth.streamId, auth.figure, auth.deadline,
                           Ecdsa(key, AuthMessage(auth))).None?
  {
    assert StreamOk(su.chain, s.world.vault.streams[auth.streamId]);
  }

  lemma AuthorizationPays(su: Setup, s: Sys, key: Address, auth: Authorization, sender: Address)
    requires WorldOk(su.chain, su.base, s.world) && Outsider(su.chain, sender) && key != 0
    requires Ecdsa(key, AuthMessage(auth)) in s.issued && Payable(su, s, key, auth)
    ensures Submits(su, s, key, auth, sender)
    ensures var x := s.world.vault.streams[auth.streamId];
            Moved(s.world.ledger, AfterSubmission(su, s, key, auth, sender), x.token, su.chain.vault, x.recipient,
                  Payout(s, auth))
  {
    var c := Submission(key, auth, sender);
    PayableChecks(su, s, key, auth);
    WithdrawalPays(su.chain, su.base, s.now, s.world, c);
    assert AllLegit(su.chain, []) && AllHonest(su.enclaveKeys, s.world.vault.owner, []);
    assert Enabled(su, s, Transaction(c));
  }

  /** Completeness: from any reachable state a party's fresh challenge is granted, and in every
      continuation the resulting authorization is accepted until its deadline as long as its
      signer is installed, the stream is open and something is left to pay; then exactly the
      difference moves from the vault to the recipient. */
  lemma HonestWithdrawalCompletes(su: Setup, s: Sys, key: Address, caller: Address, id: Uint256, blob: seq<Octet>,
                                  issuedAt: Uint256, later: seq<Action>, sender: Address)
    requires Reachable(su, s) && id in s.world.vault.streams && Opens(blob, s.world.vault.streams[id])
    requires s.now + AUTH_TTL_SECONDS < TWO256 && Abs(issuedAt - s.now) <= CALLER_AUTH_WINDOW_SECONDS
    requires key in su.enclaveKeys && key != 0 && caller !in su.enclaveKeys && caller != 0
    requires Permitted(WITHDRAW_TAG, DecodeTerms(blob).value, caller) && Outsider(su.chain, sender)
    ensures var steps := HonestSteps(su, key, caller, HonestChallenge(su, WITHDRAW_TAG, id, blob, issuedAt), blob);
            var auth := HonestAuth(su, WITHDRAW_TAG, id, blob, s.now);
            var s1 := Run(su, s, steps);
            var s2 := Run(su, s1, later);
            && ValidRun(su, s, steps)
            && (ValidRun(su, s1, later) && Payable(su, s2, key, auth) ==>
                  && Submits(su, s2, key, auth, sender)
                  && Moved(s2.world.ledger, AfterSubmission(su, s2, key, auth, sender), s2.world.vault.At(id).token,
                           su.chain.vault, s2.world.vault.At(id).recipient, Payout(s2, auth)))
  {
    var steps := HonestSteps(su, key, caller, HonestChallenge(su, WITHDRAW_TAG, id, blob, issuedAt), blob);
    HonestRequestSucceeds(su, s, key, WITHDRAW_TAG, caller, id, blob, issuedAt);
    var s1 := Run(su, s, steps);
    var auth := HonestAuth(su, WITHDRAW_TAG, id, blob, s.now);
    if ValidRun(su, s1, later) && Payable(su, Run(su, s1, later), key, auth) {
      assert Inv(su, Run(su, s1, later)) by {
        ReachableInv(su, s);
        RunKeepsInv(su, s, steps);
        RunKeepsInv(su, s1, later);
      }
      IssuedGrows(su, s1, later);
      AuthorizationPays(su, Run(su, s1, later), key, auth, sender);
    }
  }

  /** An authorization for what has accrued now is payable when something is available. */
  lemma FreshIsPayable(su: Setup, s: Sys, key: Address, id: Uint256, blob: seq<Octet>)
    requires id in s.world.vault.streams && Opens(blob, s.world.vault.streams[id])
    requires s.now + AUTH_TTL_SECONDS < TWO256 && key == s.world.vault.teeSigner
    requires !s.world.vault.streams[id].cancelled && s.world.vault.streams[id].token in su.chain.standard
    ensures var auth := HonestAuth(su, WITHDRAW_TAG, id, blob, s.now);
            var x := s.world.vault.streams[id];
            && Payout(s, auth) == Protocol.Available(DecodeTerms(blob).value, x.funded, x.withdrawn, s.now)
            && (Payable(su, s, key, auth) <==> Payout(s, auth) > 0)
  {
  }

  /** With no step in between, an open stream of a standard token that has anything available is
      payable at once, for what the dashboard shows. */
  lemma DashboardIsPayable(su: Setup, s: Sys, key: Address, caller: Address, id: Uint256, blob: seq<Octet>,
                           issuedAt: Uint256)
    requires Reachable(su, s) && id in s.world.vault.streams && Opens(blob, s.world.vault.streams[id])
    requires s.now + AUTH_TTL_SECONDS < TWO256 && Abs(issuedAt - s.now) <= CALLER_AUTH_WINDOW_SECONDS
    requires key == s.world.vault.teeSigner && caller !in su.enclaveKeys && caller != 0
    requires Permitted(WITHDRAW_TAG, DecodeTerms(blob).value, caller)
    requires !s.world.vault.streams[id].cancelled && s.world.vault.streams[id].token in su.chain.standard
    ensures var steps := HonestSteps(su, key, caller, HonestChallenge(su, WITHDRAW_TAG, id, blob, issuedAt), blob);
            var s1 := Run(su, s, steps);
            var auth := HonestAuth(su, WITHDRAW_TAG, id, blob, s.now);
            var x := s.world.vault.streams[id];
            && s1.world == s.world
            && Payout(s1, auth) == Protocol.Available(DecodeTerms(blob).value, x.funded, x.withdrawn, s.now)
            && (Payable(su, s1, key, auth) <==> Payout(s1, auth) > 0)
  {
    StoredStream(su, s, id);
    HonestRequestSucceeds(su, s, key, WITHDRAW_TAG, caller, id, blob, issuedAt);
    var steps := HonestSteps(su, key, caller, HonestChallenge(su, WITHDRAW_TAG, id, blob, issuedAt), blob);
    FreshIsPayable(su, Run(su, s, steps), key, id, blob);
  }

  /** What the dashboard shows is what is paid: if it is positive, anyone can submit the signature at
      once, the call completes, and exactly that moves from the vault to the recipient. */
  lemma DashboardIsPaid(su: Setup, s: Sys, key: Address, caller: Address, id: Uint256, blob: seq<Octet>,
                        issuedAt: Uint256, sender: Address)
    requires Reachable(su, s) && id in s.world.vault.streams && Opens(blob, s.world.vault.streams[id])
    requires s.now + AUTH_TTL_SECONDS < TWO256 && Abs(issuedAt - s.now) <= CALLER_AUTH_WINDOW_SECONDS
    requires key == s.world.vault.teeSigner && key != 0 && caller !in su.enclaveKeys && caller != 0
    requires Permitted(WITHDRAW_TAG, DecodeTerms(blob).value, caller) && Outsider(su.chain, sender)
    requires !s.world.vault.streams[id].cancelled && s.world.vault.streams[id].token in su.chain.standard
    ensures var steps := HonestSteps(su, key, caller, HonestChallenge(su, WITHDRAW_TAG, id, blob, issuedAt), blob);
            var s1, auth := Run(su, s, steps), HonestAuth(su, WITHDRAW_TAG, id, blob, s.now);
            var x := s.world.vault.streams[id];
            var shown := Protocol.Available(DecodeTerms(blob).value, x.funded, x.withdrawn, s.now);
            && ValidRun(su, s, steps) && shown >= 0
            && (shown > 0 ==>
                  && Submits(su, s1, key, auth, sender)
                  && Moved(s.world.ledger, AfterSubmission(su, s1, key, auth, sender), x.token, su.chain.vault,
                           x.recipient, shown))
  {
    AvailableNotNegative(su, s, id, blob);
    StoredStream(su, s, id);
    DashboardIsPayable(su, s, key, caller, id, blob, issuedAt);
    HonestWithdrawalCompletes(su, s, key, caller, id, blob, issuedAt, [], sender);
  }

  // ---------------------------------------------------------------- completeness of settlement

  /** A settlement made by the installed signer that is still in time, names this vault, an open
      stream of a standard token and its commitment.  Nothing need be left to pay. */
  predicate Settleable(su: Setup, s: Sys, key: Address, auth: Authorization) {
    && s.now <= auth.deadline && s.world.vault.teeSigner == key
    && auth.streamId in s.world.vault.streams
    && var x := s.world.vault.streams[auth.streamId];
       && auth == Authorization(SETTLE_TAG, su.chain.chainId, su.chain.vault, auth.streamId, x.commitment,
                                auth.figure, auth.deadline)
       && !x.cancelled && x.token in su.chain.standard
  }

  /** The stream's employer submits the signed settlement. */
  function Settlement(s: Sys, key: Address, auth: Authorization): Call {
    Call.CancelStream(s.world.vault.At(auth.streamId).employer, auth.streamId, auth.figure, auth.deadline,
                      Ecdsa(key, AuthMessage(auth)), Reply([], true), Reply([], true))
  }

  /** The vault brings the recipient up to `total`, then pays the employer the rest, and nobody else. */
  ghost predicate TwoLegs(vault: Address, x: Stream, before: Ledger, mid: Ledger, after: Ledger, total: nat) {
    && x.withdrawn <= total <= x.funded
    && Moved(before, mid, x.token, vault, x.recipient, total - x.withdrawn)
    && Moved(mid, after, x.token, vault, x.employer, x.funded - total)
  }

  /** The settlement is enabled and completes: the stream is cancelled with
      max(withdrawn, min(figure, funded)) received, the recipient is paid what that adds and the
      employer the rest of the funding. */
  ghost predicate SettlesFully(su: Setup, s: Sys, key: Address, auth: Authorization) {
    var c := Settlement(s, key, auth);
    && Enabled(su, s, Transaction(c))
    && var o := Exec(su.chain, s.now, s.world, c);
       && o.Done?
       && var x := s.world.vault.At(auth.streamId);
          var total := Max(x.withdrawn, Min(auth.figure, x.funded));
          && o.world.vault.At(auth.streamId) == x.(cancelled := true, withdrawn := total)
          && exists mid :: TwoLegs(su.chain.vault, x, s.world.ledger, mid, o.world.ledger, total)
  }

  lemma SettleableChecks(su: Setup, s: Sys, key: Address, auth: Authorization)
    requires WorldOk(su.chain, su.base, s.world) && key != 0 && Settleable(su, s, key, auth)
    ensures var c := Settlement(s, key, auth);
            && Legit(su.chain, c)
            && CancelChecks(su.chain, s.now, s.world.vault, c.sender, c.id, c.figure, c.deadline, c.sig).None?
  {
    assert StreamOk(su.chain, s.world.vault.streams[auth.streamId]);
  }

  lemma SettlementLegs(su: Setup, s: Sys, key: Address, auth: Authorization)
    requires WorldOk(su.chain, su.base, s.world) && Settleable(su, s, key, auth)
    requires Legit(su.chain, Settlement(s, key, auth))
    requires ExecCancel(su.chain, s.now, s.world, Settlement(s, key, auth)).Done?
    ensures var x := s.world.vault.At(auth.streamId);
            var o := ExecCancel(su.chain, s.now, s.world, Settlement(s, key, auth));
            exists mid :: TwoLegs(su.chain.vault, x, s.world.ledger, mid, o.world.ledger,
                                  Max(x.withdrawn, Min(auth.figure, x.funded)))
  {
    var c := Settlement(s, key, auth);
    SettlementSplits(su.chain, su.base, s.world, auth.streamId, auth.figure);
    var mid := SettlementMoves(su.chain, su.base, s.now, s.world, c);
    var x := s.world.vault.At(auth.streamId);
    assert TwoLegs(su.chain.vault, x, s.world.ledger, mid, ExecCancel(su.chain, s.now, s.world, c).world.ledger,
                   Max(x.withdrawn, Min(auth.figure, x.funded)));
  }

  lemma AuthorizationSettles(su: Setup, s: Sys, key: Address, auth: Authorization)
    requires WorldOk(su.chain, su.base, s.world) && key != 0
    requires Ecdsa(key, AuthMessage(auth)) in s.issued && Settleable(su, s, key, auth)
    ensures SettlesFully(su, s, key, auth)
  {
    var c := Settlement(s, key, auth);
    SettleableChecks(su, s, key, auth);
    SettlementPays(su.chain, su.base, s.now, s.world, c);
    SettlementLegs(su, s, key, auth);
    OuterCallDecides(su.chain, su.base, s.now, s.world, c, auth.streamId);
    assert AllHonest(su.enclaveKeys, s.world.vault.owner, []);
    assert Enabled(su, s, Transaction(c));
  }

  /** Completeness of settlement: from any reachable state the terms' employer's fresh challenge is
      granted, and in every continuation the stream's employer can settle with the result until its
      deadline as long as its signer is installed and the stream is open, whatever was withdrawn or
      topped up in between; at once in particular. */
  lemma HonestSettlementCompletes(su: Setup, s: Sys, key: Address, id: Uint256, blob: seq<Octet>, issuedAt: Uint256,
                                  later: seq<Action>)
    requires Reachable(su, s) && id in s.world.vault.streams && Opens(blob, s.world.vault.streams[id])
    requires s.now + AUTH_TTL_SECONDS < TWO256 && Abs(issuedAt - s.now) <= CALLER_AUTH_WINDOW_SECONDS
    requires key in su.enclaveKeys && key != 0
    requires DecodeTerms(blob).value.employer !in su.enclaveKeys && DecodeTerms(blob).value.employer != 0
    ensures var caller := DecodeTerms(blob).value.employer;
            var steps := HonestSteps(su, key, caller, HonestChallenge(su, SETTLE_TAG, id, blob, issuedAt), blob);
            var auth := HonestAuth(su, SETTLE_TAG, id, blob, s.now);
            var s1 := Run(su, s, steps);
            var s2 := Run(su, s1, later);
            && ValidRun(su, s, steps)
            && (key == s.world.vault.teeSigner ==>
                  (Settleable(su, s1, key, auth) <==>
                   !s.world.vault.streams[id].cancelled && s.world.vault.streams[id].token in su.chain.standard))
            && (ValidRun(su, s1, later) && Settleable(su, s2, key, auth) ==> SettlesFully(su, s2, key, auth))
  {
    var caller := DecodeTerms(blob).value.employer;
    var steps := HonestSteps(su, key, caller, HonestChallenge(su, SETTLE_TAG, id, blob, issuedAt), blob);
    HonestRequestSucceeds(su, s, key, SETTLE_TAG, caller, id, blob, issuedAt);
    var s1 := Run(su, s, steps);
    var auth := HonestAuth(su, SETTLE_TAG, id, blob, s.now);
    if ValidRun(su, s1, later) && Settleable(su, Run(su, s1, later), key, auth) {
      assert Inv(su, Run(su, s1, later)) by {
        ReachableInv(su, s);
        RunKeepsInv(su, s, steps);
        RunKeepsInv(su, s1, later);
      }
      IssuedGrows(su, s1, later);
      AuthorizationSettles(su, Run(su, s1, later), key, auth);
    }
  }

  // ---------------------------------------------------------------- lasting data

  /** The stream's lasting data: in every continuation parties, token, commitment and start time
      stay, counters never fall and a cancelled stream is frozen. */
  lemma StreamsEvolve(su: Setup, s: Sys, later: seq<Action>)
    requires Reachable(su, s) && ValidRun(su, s, later)
    ensures Evolves(s.world.vault, Run(su, s, later).world.vault)
  {
    ReachableInv(su, s);
    RunKeepsInv(su, s, later);
  }
}
