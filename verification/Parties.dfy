/** Published parties and stored parties.  The vault never compares the terms with what it stores,
so they may name different people: who is paid, and who can make the vault pay. */
module Parties {
  import opened Options
  import opened Abi
  import opened Protocol
  import opened Tokens
  import opened Vault
  import opened Books
  import opened Guarantees
  import opened Enclave
  import opened System
  import opened Theorems
  import opened Replay

  // ---------------------------------------------------------------- who is paid

  /** A payout that left the vault for one holder is a payout to no other, in no other token. */
  lemma MovedToOne(l: Ledger, m: Ledger, token: nat, vault: nat, to: nat, token': nat, to': nat, amount: nat)
    requires Moved(l, m, token, vault, to, amount) && amount > 0
    ensures Moved(l, m, token', vault, to', amount)
            <==> (token' == token && to' == to)
                 || (to == vault && to' == vault && l.Bal(token', vault) >= amount)
  {
    if to != vault {
      assert m.Bal(token, vault) == l.Bal(token, vault) - amount;
      assert m.Bal(token, to) == l.Bal(token, to) + amount;
    } else {
      assert m.Bal(token', vault) == l.Bal(token', vault);
    }
  }

  /** A withdrawal pays what was published if and only if token and recipient of the terms are the
      stored ones (or both recipients are the vault itself, and nothing leaves it). */
  lemma PublishedPartiesPaid(su: Setup, s: Sys, c: Call, blob: seq<Octet>)
    requires Reachable(su, s) && c.Withdraw? && Exec(su.chain, s.now, s.world, c).Done?
    requires Opens(blob, s.world.vault.At(c.id)) && s.world.vault.At(c.id).token in su.chain.standard
    ensures var x, t := s.world.vault.At(c.id), DecodeTerms(blob).value;
            var l, l' := s.world.ledger, Exec(su.chain, s.now, s.world, c).world.ledger;
            var payout := Min(c.figure, x.funded) - x.withdrawn;
            && payout > 0
            && Moved(l, l', x.token, su.chain.vault, x.recipient, payout)
            && (Moved(l, l', t.token, su.chain.vault, t.recipient, payout)
                <==> (t.token == x.token && t.recipient == x.recipient)
                     || (x.recipient == t.recipient == su.chain.vault && l.Bal(t.token, su.chain.vault) >= payout))
  {
    ReachableInv(su, s);
    WithdrawalPays(su.chain, su.base, s.now, s.world, c);
    var x, t := s.world.vault.At(c.id), DecodeTerms(blob).value;
    MovedToOne(s.world.ledger, Exec(su.chain, s.now, s.world, c).world.ledger, x.token, su.chain.vault, x.recipient,
               t.token, t.recipient, Min(c.figure, x.funded) - x.withdrawn);
  }

  /** The same for both transfers of a settlement, between which the ledger is `mid`: what is still
      owed goes to the published recipient if and only if recipient and token are the stored ones (or
      nothing leaves the vault), and the rest is refunded to the published employer if and only if
      employer and token are. */
  lemma PublishedPartiesSettled(su: Setup, s: Sys, c: Call, blob: seq<Octet>) returns (mid: Ledger)
    requires Reachable(su, s) && c.CancelStream? && Legit(su.chain, c) && Exec(su.chain, s.now, s.world, c).Done?
    requires Opens(blob, s.world.vault.At(c.id)) && s.world.vault.At(c.id).token in su.chain.standard
    ensures var x, t := s.world.vault.At(c.id), DecodeTerms(blob).value;
            var l, l' := s.world.ledger, Exec(su.chain, s.now, s.world, c).world.ledger;
            var owed, refund := OwedOnCancel(x, c.figure), RefundOnCancel(x, c.figure);
            && owed + refund == x.funded - x.withdrawn && refund >= 0
            && Moved(l, mid, x.token, su.chain.vault, x.recipient, owed)
            && Moved(mid, l', x.token, su.chain.vault, x.employer, refund)
            && (owed > 0 ==>
                  (Moved(l, mid, t.token, su.chain.vault, t.recipient, owed)
                   <==> (t.token == x.token && t.recipient == x.recipient)
                        || (x.recipient == t.recipient == su.chain.vault && l.Bal(t.token, su.chain.vault) >= owed)))
            && (refund > 0 ==>
                  (Moved(mid, l', t.token, su.chain.vault, t.employer, refund)
                   <==> t.token == x.token && t.employer == x.employer))
  {
    ReachableInv(su, s);
    GuardedCompletes(su.chain, su.base, s.now, s.world, c);
    var x, t := s.world.vault.At(c.id), DecodeTerms(blob).value;
    assert StreamOk(su.chain, s.world.vault.streams[c.id]);
    mid := SettlementMoves(su.chain, su.base, s.now, s.world, c);
    var owed, refund := OwedOnCancel(x, c.figure), RefundOnCancel(x, c.figure);
    if owed > 0 {
      MovedToOne(s.world.ledger, mid, x.token, su.chain.vault, x.recipient, t.token, t.recipient, owed);
    }
    if refund > 0 {
      MovedToOne(mid, Exec(su.chain, s.now, s.world, c).world.ledger, x.token, su.chain.vault, x.employer,
                 t.token, t.employer, refund);
    }
  }

  // ---------------------------------------------------------------- a run that pays somebody else

  /** A blob whose terms name employer 3, recipient 4 and token 10, and have accrued 1000 at time
      1000; the stream below stores 1, 2 and 9. */
  predicate NamesOthers(blob: seq<Octet>) {
    && DecodeTerms(blob).Some?
    && var t := DecodeTerms(blob).value;
       t.employer == 3 && t.recipient == 4 && t.token == 10 && AccruedAt(t, 1000) == 1000
  }

  lemma OtherTermsExist() returns (blob: seq<Octet>)
    ensures NamesOthers(blob)
  {
    var t := Terms(3, 4, 10, RATE_SCALE, 1000, 0, seq(32, _ => 0));
    TermsRoundTrip(t);
    blob := EncodeTerms(t);
  }

  /** Account 1 starts with 100 of token 9 and lets the vault, account 100, take them. */
  function ExampleSetup(): Setup {
    Setup(Chain(1, 100, {9, 10}), {50}, ExampleLedger(100, 0))
  }

  function ExampleLedger(left: nat, held: nat): Ledger {
    Ledger(map[(9, 1) := left, (9, 100) := held], map[(9, 1) := left], map[9 := 100])
  }

  function ExampleStart(): Sys {
    Sys(World(Storage(1, 50, 1, map[], 1), ExampleLedger(100, 0), []), 1000, {}, [], [])
  }

  function ExampleStream(blob: seq<Octet>, funded: Uint128): Stream {
    Stream(1, 2, 9, CommitTo(blob), funded, 0, 0, false)
  }

  function ExampleCreated(blob: seq<Octet>): Sys {
    Sys(World(Storage(1, 50, 2, map[1 := ExampleStream(blob, 0)], 1), ExampleLedger(100, 0), []), 1000, {}, [], [])
  }

  function ExampleFunded(blob: seq<Octet>): Sys {
    Sys(World(Storage(1, 50, 2, map[1 := ExampleStream(blob, 100)], 1), ExampleLedger(0, 100), [Deposited(1, 100)]),
        1000, {}, [], [])
  }

  lemma ReachableStep(su: Setup, s: Sys, a: Action)
    requires Reachable(su, s) && Enabled(su, s, a)
    ensures Reachable(su, Step(su, s, a))
  {
    assert [a][..0] == [];
    assert Run(su, s, []) == s;
    assert Run(su, s, [a]) == Step(su, s, a);
    ReachableExtends(su, s, [a]);
  }

  lemma {:induction false} ExampleSupply(token: nat, n: nat)
    ensures Supply(ExampleLedger(100, 0), token, n) == if token == 9 && n > 1 then 100 else 0
  {
    if n > 0 {
      ExampleSupply(token, n - 1);
    }
  }

  lemma ExampleStarts()
    ensures Reachable(ExampleSetup(), ExampleStart())
  {
    var su, s := ExampleSetup(), ExampleStart();
    forall token: nat, n: nat ensures Supply(su.base, token, n) <= su.base.TotalSupply(token) {
      ExampleSupply(token, n);
    }
    assert Init(su, s) && ValidRun(su, s, []) && s == Run(su, s, []);
  }

  lemma ExampleCreates(blob: seq<Octet>)
    ensures var a := Transaction(CreateStream(1, 2, 9, CommitTo(blob), 0));
            && Enabled(ExampleSetup(), ExampleStart(), a)
            && Step(ExampleSetup(), ExampleStart(), a) == ExampleCreated(blob)
  {
    assert CommitTo(blob)[0].HashOf? && ZeroWord()[0].Lit?;
  }

  lemma ExampleTransfers()
    ensures TransferFrom(ExampleLedger(100, 0), 9, 1, 100, 100) == Some(ExampleLedger(0, 100))
  {
    var spent := ExampleLedger(100, 0).(allowances := map[(9, 1) := 0]);
    assert ExampleLedger(100, 0).allowances[(9, 1) := 0] == spent.allowances;
    var debited := spent.Put(9, 1, 0);
    assert debited.balances == map[(9, 1) := 0, (9, 100) := 0];
    assert debited.Put(9, 100, 100) == ExampleLedger(0, 100);
  }

  lemma ExampleFundEnabled(blob: seq<Octet>)
    ensures Enabled(ExampleSetup(), ExampleCreated(blob), Transaction(Fund(1, 1, 100, Reply([], true))))
  {
  }

  lemma ExampleFunds(blob: seq<Octet>)
    ensures var a := Transaction(Fund(1, 1, 100, Reply([], true)));
            Step(ExampleSetup(), ExampleCreated(blob), a) == ExampleFunded(blob)
  {
    ExampleTransfers();
    var w := ExampleCreated(blob).world;
    assert Entered(w, 1, ExampleStream(blob, 100)).vault.streams == map[1 := ExampleStream(blob, 100)];
  }

  lemma ExampleIsFunded(blob: seq<Octet>)
    ensures Reachable(ExampleSetup(), ExampleFunded(blob))
  {
    ExampleStarts();
    ExampleCreates(blob);
    ReachableStep(ExampleSetup(), ExampleStart(), Transaction(CreateStream(1, 2, 9, CommitTo(blob), 0)));
    ExampleFundEnabled(blob);
    ExampleFunds(blob);
    ReachableStep(ExampleSetup(), ExampleCreated(blob), Transaction(Fund(1, 1, 100, Reply([], true))));
  }

  /** An honest withdrawal carried to its end. */
  lemma PaidState(su: Setup, s: Sys, key: Address, caller: Address, id: Uint256, blob: seq<Octet>) returns (paid: Sys)
    requires Reachable(su, s) && id in s.world.vault.streams && Opens(blob, s.world.vault.streams[id])
    requires s.now + AUTH_TTL_SECONDS < TWO256
    requires key == s.world.vault.teeSigner && key != 0 && caller !in su.enclaveKeys && Outsider(su.chain, caller)
    requires Permitted(WITHDRAW_TAG, DecodeTerms(blob).value, caller)
    requires !s.world.vault.streams[id].cancelled && s.world.vault.streams[id].token in su.chain.standard
    requires var x := s.world.vault.streams[id];
             Protocol.Available(DecodeTerms(blob).value, x.funded, x.withdrawn, s.now) > 0
    ensures Reachable(su, paid) && id in paid.world.vault.streams
    ensures var x, t := s.world.vault.streams[id], DecodeTerms(blob).value;
            && paid.world.vault.streams[id] == AfterWithdraw(x, AccruedAt(t, s.now))
            && Moved(s.world.ledger, paid.world.ledger, x.token, su.chain.vault, x.recipient,
                     Protocol.Available(t, x.funded, x.withdrawn, s.now))
  {
    StoredStream(su, s, id);
    DashboardIsPaid(su, s, key, caller, id, blob, s.now, caller);
    HonestRequestSucceeds(su, s, key, WITHDRAW_TAG, caller, id, blob, s.now);
    var steps := HonestSteps(su, key, caller, HonestChallenge(su, WITHDRAW_TAG, id, blob, s.now), blob);
    var s1 := Run(su, s, steps);
    ReachableExtends(su, s, steps);
    var submit := Submission(key, HonestAuth(su, WITHDRAW_TAG, id, blob, s.now), caller);
    paid := Step(su, s1, Transaction(submit));
    ReachableInv(su, s1);
    AcceptedReceipts(su, s1, submit);
    ReachableStep(su, s1, Transaction(submit));
  }

  /** Anyone can publish what opens a stream's commitment, and that changes nothing else. */
  lemma Published(su: Setup, s: Sys, id: Uint256, blob: seq<Octet>, sender: Address) returns (shown: Sys)
    requires Reachable(su, s) && id in s.world.vault.streams && Opens(blob, s.world.vault.streams[id])
    requires Outsider(su.chain, sender)
    ensures Reachable(su, shown) && Revealed(id, blob) in shown.world.trail
    ensures shown.world.vault == s.world.vault && shown.world.ledger == s.world.ledger
  {
    StoredStream(su, s, id);
    ReachableStep(su, s, Transaction(RevealTerms(sender, id, blob)));
    shown := Step(su, s, Transaction(RevealTerms(sender, id, blob)));
    assert shown.world.trail == s.world.trail + [Revealed(id, blob)];
  }

  /** The terms' recipient asks, and the stored recipient is paid. */
  lemma ExamplePays(blob: seq<Octet>) returns (paid: Sys)
    requires NamesOthers(blob)
    ensures Reachable(ExampleSetup(), paid) && 1 in paid.world.vault.streams
    ensures paid.world.vault.streams[1] == ExampleStream(blob, 100).(withdrawn := 100)
    ensures Moved(ExampleLedger(0, 100), paid.world.ledger, 9, 100, 2, 100)
  {
    ExampleIsFunded(blob);
    TagsDistinct();
    paid := PaidState(ExampleSetup(), ExampleFunded(blob), 50, 4, 1, blob);
  }

  /** Published terms that are not paid: a reachable state in which the terms revealed for a stream
      name another employer, another recipient and another token than the stream, and everything
      was paid to the stored recipient in the stored token and nothing to the published one. */
  lemma PublishedPartiesNeedNotBePaid() returns (su: Setup, s: Sys, blob: seq<Octet>, t: Terms)
    ensures Reachable(su, s) && Revealed(1, blob) in s.world.trail && 1 in s.world.vault.streams
    ensures Opens(blob, s.world.vault.streams[1]) && DecodeTerms(blob) == Some(t)
    ensures var x := s.world.vault.streams[1];
            && t.employer != x.employer && t.recipient != x.recipient && t.token != x.token
            && x.withdrawn == x.funded == s.world.ledger.Bal(x.token, x.recipient) == 100
            && s.world.ledger.Bal(x.token, t.recipient) == s.world.ledger.Bal(t.token, t.recipient) == 0
  {
    su := ExampleSetup();
    blob := OtherTermsExist();
    t := DecodeTerms(blob).value;
    var paid := ExamplePays(blob);
    s := Published(su, paid, 1, blob, 3);
  }

  // ---------------------------------------------------------------- who can settle

  /** What the terms' employer signs to have a stream settled. */
  function SettleMessage(su: Setup, id: Uint256, blob: seq<Octet>, issuedAt: Uint256): Word {
    ChallengeMessage(HonestChallenge(su, SETTLE_TAG, id, blob, issuedAt))
  }

  predicate SignedSettlement(su: Setup, s: Sys, id: Uint256, blob: seq<Octet>, issuedAt: Uint256)
    requires DecodeTerms(blob).Some?
  {
    Ecdsa(DecodeTerms(blob).value.employer, SettleMessage(su, id, blob, issuedAt)) in s.issued
  }

  /** The grant behind an accepted settlement. */
  lemma SettlingGrant(su: Setup, s: Sys, id: Uint256) returns (g: Grant)
    requires Inv(su, s) && id in s.world.vault.streams && s.world.vault.streams[id].cancelled
    ensures g in s.grants
    ensures g.auth == Authorization(SETTLE_TAG, su.chain.chainId, su.chain.vault, id,
                                    s.world.vault.streams[id].commitment, g.auth.figure, g.auth.deadline)
  {
    var a :| a in s.accepted && a.settle && a.id == id;
    assert AcceptOk(su, s, a);
    g :| g in s.grants && DecodeTerms(g.blob).Some? && Justifies(su, g, s.world.vault.streams[id], a);
  }

  lemma GrantWasSigned(su: Setup, s: Sys, id: Uint256, blob: seq<Octet>, g: Grant)
    requires GrantsOk(s) && g in s.grants && DecodeTerms(blob).Some?
    requires g.auth == Authorization(SETTLE_TAG, su.chain.chainId, su.chain.vault, id, CommitTo(blob),
                                     g.auth.figure, g.auth.deadline)
    ensures g.caller == DecodeTerms(blob).value.employer
    ensures SignedSettlement(su, s, id, blob, g.challenge.issuedAt)
  {
    SameBlob(g.blob, blob);
    assert g.challenge == HonestChallenge(su, SETTLE_TAG, id, blob, g.challenge.issuedAt);
  }

  /** No stream is ever settled without a challenge for this very settlement, signed by the
      employer that the terms name. */
  lemma SettledWasSigned(su: Setup, s: Sys, id: Uint256, blob: seq<Octet>)
    requires Reachable(su, s) && id in s.world.vault.streams && s.world.vault.streams[id].cancelled
    requires Opens(blob, s.world.vault.streams[id])
    ensures DecodeTerms(blob).value.employer !in su.enclaveKeys
    ensures exists issuedAt: Uint256 :: SignedSettlement(su, s, id, blob, issuedAt)
  {
    ReachableInv(su, s);
    var g := SettlingGrant(su, s, id);
    GrantWasSigned(su, s, id, blob, g);
    CallerIsNoEnclave(su, s, g);
  }

  /** Nobody but `who` makes a signature of their own in this run. */
  predicate OnlySigner(acts: seq<Action>, who: Address) {
    forall a | a in acts && a.PartySigns? :: a.who == who
  }

  lemma {:induction false} NewSignatures(su: Setup, s: Sys, acts: seq<Action>, who: Address, sig: Signature)
    requires ValidRun(su, s, acts) && OnlySigner(acts, who)
    requires sig in Run(su, s, acts).issued && sig.Ecdsa?
    ensures sig in s.issued || sig.signer == who || sig.signer in su.enclaveKeys
  {
    if acts != [] {
      var front, a := acts[..|acts| - 1], acts[|acts| - 1];
      if sig in Run(su, s, front).issued {
        NewSignatures(su, s, front, who, sig);
      } else if a.EnclaveRequest? {
        GrantsAreOk(Some(a.key), a.tag, a.req, Run(su, s, front).now);
      }
    }
  }

  /** Without the terms' employer nobody settles: in any run where another party alone signs, and
      no such challenge was signed before, the stream stays open. */
  lemma OthersCannotSettle(su: Setup, s: Sys, id: Uint256, blob: seq<Octet>, who: Address, acts: seq<Action>)
    requires Reachable(su, s) && id in s.world.vault.streams && Opens(blob, s.world.vault.streams[id])
    requires DecodeTerms(blob).value.employer != who
    requires forall issuedAt: Uint256 :: !SignedSettlement(su, s, id, blob, issuedAt)
    requires ValidRun(su, s, acts) && OnlySigner(acts, who)
    ensures !Run(su, s, acts).world.vault.At(id).cancelled
  {
    var s' := Run(su, s, acts);
    ReachableExtends(su, s, acts);
    StreamsEvolve(su, s, acts);
    if s'.world.vault.At(id).cancelled {
      SettledWasSigned(su, s', id, blob);
      var issuedAt: Uint256 :| SignedSettlement(su, s', id, blob, issuedAt);
      NewSignatures(su, s, acts, who, Ecdsa(DecodeTerms(blob).value.employer, SettleMessage(su, id, blob, issuedAt)));
      assert SignedSettlement(su, s, id, blob, issuedAt);
      assert false;
    }
  }

  /** Adding an enabled settlement to a run that ends where it is payable cancels the stream. */
  lemma SettlementEndsRun(su: Setup, s: Sys, steps: seq<Action>, key: Address, auth: Authorization)
    requires ValidRun(su, s, steps) && SettlesFully(su, Run(su, s, steps), key, auth)
    ensures var acts := steps + [Transaction(Settlement(Run(su, s, steps), key, auth))];
            ValidRun(su, s, acts) && Run(su, s, acts).world.vault.At(auth.streamId).cancelled
  {
    var acts := steps + [Transaction(Settlement(Run(su, s, steps), key, auth))];
    assert acts[..|acts| - 1] == steps;
  }

  /** What the stored employer does when the terms name them: sign the challenge, ask the enclave. */
  function EmployerSteps(su: Setup, s: Sys, key: Address, id: Uint256, blob: seq<Octet>): seq<Action>
    requires s.now < TWO256 && DecodeTerms(blob).Some?
  {
    HonestSteps(su, key, DecodeTerms(blob).value.employer, HonestChallenge(su, SETTLE_TAG, id, blob, s.now), blob)
  }

  /** An open stream of a standard token whose stored employer could settle it, were the terms to
      name them. */
  ghost predicate EmployerReady(su: Setup, s: Sys, key: Address, id: Uint256, blob: seq<Octet>) {
    && Reachable(su, s) && id in s.world.vault.streams && Opens(blob, s.world.vault.streams[id])
    && key == s.world.vault.teeSigner && key != 0 && s.now + AUTH_TTL_SECONDS < TWO256
    && !s.world.vault.streams[id].cancelled && s.world.vault.streams[id].token in su.chain.standard
    && s.world.vault.streams[id].employer !in su.enclaveKeys
  }

  lemma EmployerIsGranted(su: Setup, s: Sys, key: Address, id: Uint256, blob: seq<Octet>)
    requires EmployerReady(su, s, key, id, blob)
    requires DecodeTerms(blob).value.employer == s.world.vault.streams[id].employer
    ensures var steps := EmployerSteps(su, s, key, id, blob);
            && ValidRun(su, s, steps)
            && SettlesFully(su, Run(su, s, steps), key, HonestAuth(su, SETTLE_TAG, id, blob, s.now))
  {
    StoredStream(su, s, id);
    HonestSettlementCompletes(su, s, key, id, blob, s.now, []);
  }

  /** The terms' employer, when stored as the stream's employer, settles alone and at once. */
  lemma EmployerSettles(su: Setup, s: Sys, key: Address, id: Uint256, blob: seq<Octet>) returns (acts: seq<Action>)
    requires EmployerReady(su, s, key, id, blob)
    requires DecodeTerms(blob).value.employer == s.world.vault.streams[id].employer
    ensures ValidRun(su, s, acts) && OnlySigner(acts, s.world.vault.streams[id].employer)
    ensures Run(su, s, acts).world.vault.At(id).cancelled
  {
    var steps, auth := EmployerSteps(su, s, key, id, blob), HonestAuth(su, SETTLE_TAG, id, blob, s.now);
    EmployerIsGranted(su, s, key, id, blob);
    SettlementEndsRun(su, s, steps, key, auth);
    acts := steps + [Transaction(Settlement(Run(su, s, steps), key, auth))];
  }

  /** Who can settle: where nobody has yet signed a challenge for it, the stored employer can have
      an open stream settled without anyone else's signature if and only if the terms name them. */
  lemma EmployerAloneSettles(su: Setup, s: Sys, key: Address, id: Uint256, blob: seq<Octet>)
    requires EmployerReady(su, s, key, id, blob)
    requires forall issuedAt: Uint256 :: !SignedSettlement(su, s, id, blob, issuedAt)
    ensures (exists acts :: ValidRun(su, s, acts) && OnlySigner(acts, s.world.vault.streams[id].employer)
                            && Run(su, s, acts).world.vault.At(id).cancelled)
            <==> DecodeTerms(blob).value.employer == s.world.vault.streams[id].employer
  {
    var employer := s.world.vault.streams[id].employer;
    if DecodeTerms(blob).value.employer == employer {
      var acts := EmployerSettles(su, s, key, id, blob);
      assert ValidRun(su, s, acts) && OnlySigner(acts, employer) && Run(su, s, acts).world.vault.At(id).cancelled;
    } else {
      forall acts | ValidRun(su, s, acts) && OnlySigner(acts, employer)
        ensures !Run(su, s, acts).world.vault.At(id).cancelled
      {
        OthersCannotSettle(su, s, id, blob, employer, acts);
      }
    }
  }
}
