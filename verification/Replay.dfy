/** Replay and confluence over whole runs: what repeated, reordered and late authorizations do
between any other actions of the system. */
module Replay {
  import opened Abi
  import opened Protocol
  import opened Tokens
  import opened Vault
  import opened Books
  import opened Accounting
  import opened Guarantees
  import opened System
  import opened Theorems

  /** The largest figure the vault accepted for a stream, withdrawals and settlement alike. */
  function LargestAccepted(accepts: seq<Accept>, id: nat): nat {
    if accepts == [] then 0
    else
      var a := accepts[|accepts| - 1];
      Max(LargestAccepted(accepts[..|accepts| - 1], id), if a.id == id then a.figure else 0)
  }

  lemma {:induction false} LargestOfBoth(a: seq<Accept>, b: seq<Accept>, id: nat)
    ensures LargestAccepted(a + b, id) == Max(LargestAccepted(a, id), LargestAccepted(b, id))
  {
    if b == [] {
      assert a + b == a;
    } else {
      assert (a + b)[..|a + b| - 1] == a + b[..|b| - 1];
      LargestOfBoth(a, b[..|b| - 1], id);
    }
  }

  /** What the vault accepts in one action. */
  function AcceptedBy(su: Setup, s: Sys, a: Action): seq<Accept> {
    if a.Transaction? && Exec(su.chain, s.now, s.world, a.call).Done? then AcceptOf(a.call, s.now) else []
  }

  /** What the vault accepts along a run. */
  function AcceptedIn(su: Setup, s: Sys, acts: seq<Action>): seq<Accept> {
    if acts == [] then []
    else
      var front := acts[..|acts| - 1];
      AcceptedIn(su, s, front) + AcceptedBy(su, Run(su, s, front), acts[|acts| - 1])
  }

  lemma {:induction false} AcceptedGrows(su: Setup, s: Sys, acts: seq<Action>)
    ensures Run(su, s, acts).accepted == s.accepted + AcceptedIn(su, s, acts)
  {
    if acts != [] {
      AcceptedGrows(su, s, acts[..|acts| - 1]);
    }
  }

  /** What one action does to a stream's receipts, given the largest figure accepted in it. */
  predicate ReceiptsStep(x: Stream, x': Stream, largest: nat) {
    x'.funded >= x.funded && x'.withdrawn == Max(x.withdrawn, Min(largest, x.funded))
  }

  /** What a run does to them. */
  predicate ReceiptsRun(x: Stream, x': Stream, largest: nat) {
    && x'.funded >= x.funded
    && Max(x.withdrawn, Min(largest, x.funded)) <= x'.withdrawn
    && x'.withdrawn <= Max(x.withdrawn, Min(largest, x'.funded))
  }

  lemma ReceiptsThen(x: Stream, mid: Stream, x': Stream, a: nat, b: nat)
    requires ReceiptsRun(x, mid, a) && ReceiptsStep(mid, x', b)
    ensures ReceiptsRun(x, x', Max(a, b))
  {
  }

  lemma CountersReceipts(x: Stream, c: Call)
    requires Guarded(c) && x.withdrawn <= x.funded && (c.Fund? ==> x.funded + c.amount < TWO128)
    requires c.Withdraw? ==> Min(c.figure, x.funded) > x.withdrawn
    ensures ReceiptsStep(x, Counters(x, c), if c.Fund? then 0 else c.figure)
  {
  }

  lemma StepReceipts(su: Setup, s: Sys, a: Action, id: nat)
    requires Inv(su, s) && Enabled(su, s, a) && id in s.world.vault.streams
    ensures ReceiptsStep(s.world.vault.At(id), Step(su, s, a).world.vault.At(id),
                         LargestAccepted(AcceptedBy(su, s, a), id))
  {
    var x := s.world.vault.At(id);
    assert StreamOk(su.chain, s.world.vault.streams[id]);
    if a.Transaction? && Exec(su.chain, s.now, s.world, a.call).Done? {
      OuterCallDecides(su.chain, su.base, s.now, s.world, a.call, id);
      if Guarded(a.call) && a.call.id == id {
        CountersReceipts(x, a.call);
      }
    }
  }

  lemma {:induction false} RunReceipts(su: Setup, s: Sys, acts: seq<Action>, id: nat)
    requires Inv(su, s) && ValidRun(su, s, acts) && id in s.world.vault.streams
    ensures ReceiptsRun(s.world.vault.At(id), Run(su, s, acts).world.vault.At(id),
                        LargestAccepted(AcceptedIn(su, s, acts), id))
  {
    if acts == [] {
      assert StreamOk(su.chain, s.world.vault.streams[id]);
    } else {
      var front, a := acts[..|acts| - 1], acts[|acts| - 1];
      var mid := Run(su, s, front);
      RunReceipts(su, s, front, id);
      RunKeepsInv(su, s, front);
      StepReceipts(su, mid, a, id);
      LargestOfBoth(AcceptedIn(su, s, front), AcceptedBy(su, mid, a), id);
      ReceiptsThen(s.world.vault.At(id), mid.world.vault.At(id), Run(su, s, acts).world.vault.At(id),
                   LargestAccepted(AcceptedIn(su, s, front), id), LargestAccepted(AcceptedBy(su, mid, a), id));
    }
  }

  /** Confluence over whole runs: whatever else happens in between, and whatever the order and
      repetition of what is presented, receipts depend on the largest figure accepted alone.
      Without a top-up they end at max(w0, min(funded, largest)); with top-ups anywhere they lie
      between that bound for the funding at the start and the one for the funding at the end. */
  lemma ReceiptsAreMaximum(su: Setup, s: Sys, acts: seq<Action>, id: nat)
    requires Reachable(su, s) && ValidRun(su, s, acts) && id in s.world.vault.streams
    ensures var x, x' := s.world.vault.At(id), Run(su, s, acts).world.vault.At(id);
            var largest := LargestAccepted(AcceptedIn(su, s, acts), id);
            && Run(su, s, acts).accepted == s.accepted + AcceptedIn(su, s, acts)
            && x.funded <= x'.funded
            && Max(x.withdrawn, Min(largest, x.funded)) <= x'.withdrawn
            && x'.withdrawn <= Max(x.withdrawn, Min(largest, x'.funded))
            && (x'.funded == x.funded ==> x'.withdrawn == Max(x.withdrawn, Min(largest, x.funded)))
  {
    ReachableInv(su, s);
    AcceptedGrows(su, s, acts);
    RunReceipts(su, s, acts, id);
  }

  // ---------------------------------------------------------------- replay

  /** The authorization still passes every check except that something is left to pay. */
  predicate Presentable(su: Setup, s: Sys, c: Call)
    requires c.Withdraw?
  {
    PresentChecks(su.chain, s.now, s.world.vault, c.id, c.figure, c.deadline, c.sig).None?
  }

  lemma AcceptedReceipts(su: Setup, s: Sys, c: Call)
    requires Inv(su, s) && Enabled(su, s, Transaction(c)) && c.Withdraw?
    requires Exec(su.chain, s.now, s.world, c).Done?
    ensures c.id in s.world.vault.streams && c.id in Step(su, s, Transaction(c)).world.vault.streams
    ensures Step(su, s, Transaction(c)).world.vault.At(c.id) == AfterWithdraw(s.world.vault.At(c.id), c.figure)
  {
    GuardedCompletes(su.chain, su.base, s.now, s.world, c);
    OuterCallDecides(su.chain, su.base, s.now, s.world, c, c.id);
  }

  /** The stream after an accepted withdrawal and any further run. */
  lemma LaterReceipts(su: Setup, s: Sys, c: Call, later: seq<Action>)
    requires Reachable(su, s) && Enabled(su, s, Transaction(c)) && c.Withdraw?
    requires Exec(su.chain, s.now, s.world, c).Done? && ValidRun(su, Step(su, s, Transaction(c)), later)
    ensures var s1 := Step(su, s, Transaction(c));
            var s' := Run(su, s1, later);
            && WorldOk(su.chain, su.base, s'.world)
            && c.id in s'.world.vault.streams && SameIdentity(s.world.vault.At(c.id), s'.world.vault.At(c.id))
            && ReceiptsRun(AfterWithdraw(s.world.vault.At(c.id), c.figure), s'.world.vault.At(c.id),
                           LargestAccepted(AcceptedIn(su, s1, later), c.id))
  {
    ReachableInv(su, s);
    var s1 := Step(su, s, Transaction(c));
    AcceptedReceipts(su, s, c);
    StepKeepsInv(su, s, Transaction(c));
    RunReceipts(su, s1, later, c.id);
    RunKeepsInv(su, s1, later);
  }

  lemma NothingLeftReverts(ch: Chain, now: nat, w: World, c: Call)
    requires c.Withdraw? && Min(c.figure, w.vault.At(c.id).funded) <= w.vault.At(c.id).withdrawn
    ensures Exec(ch, now, w, c).Revert?
  {
  }

  /** Replay over whole runs: after a withdrawal has been accepted and anything at all has happened
      since, presenting the same or a smaller figure, with whatever signature, deadline and token
      behaviour, reverts unless the stream has been topped up. */
  lemma ReplayReverts(su: Setup, s: Sys, c: Call, later: seq<Action>, again: Call)
    requires Reachable(su, s) && Enabled(su, s, Transaction(c)) && c.Withdraw?
    requires Exec(su.chain, s.now, s.world, c).Done? && ValidRun(su, Step(su, s, Transaction(c)), later)
    requires again.Withdraw? && again.id == c.id && again.figure <= c.figure
    ensures var s' := Run(su, Step(su, s, Transaction(c)), later);
            s'.world.vault.At(c.id).funded == s.world.vault.At(c.id).funded
            ==> Exec(su.chain, s'.now, s'.world, again).Revert?
  {
    var s' := Run(su, Step(su, s, Transaction(c)), later);
    LaterReceipts(su, s, c, later);
    if s'.world.vault.At(c.id).funded == s.world.vault.At(c.id).funded {
      NothingLeftReverts(su.chain, s'.now, s'.world, again);
    }
  }

  /** A withdrawal of a standard token pays exactly when it is presentable and something is left. */
  lemma PresentedPays(su: Setup, s: Sys, c: Call)
    requires WorldOk(su.chain, su.base, s.world) && c.Withdraw? && s.world.vault.At(c.id).token in su.chain.standard
    ensures var x := s.world.vault.At(c.id);
            var o := Exec(su.chain, s.now, s.world, c);
            && (o.Done? <==> Presentable(su, s, c) && Min(c.figure, x.funded) > x.withdrawn)
            && (o.Done? ==> Moved(s.world.ledger, o.world.ledger, x.token, su.chain.vault, x.recipient,
                                  Min(c.figure, x.funded) - x.withdrawn))
  {
    WithdrawalPays(su.chain, su.base, s.now, s.world, c);
  }

  /** The exact condition with top-ups: an authorization presented again pays if and only if it is
      still presentable and more than the receipts is now funded; if nothing else was accepted for
      the stream in between, if and only if the funding at the first payment fell short of the
      figure and has grown since. */
  lemma ReplayPaysTopUps(su: Setup, s: Sys, c: Call, later: seq<Action>, again: Call)
    requires Reachable(su, s) && Enabled(su, s, Transaction(c)) && c.Withdraw?
    requires Exec(su.chain, s.now, s.world, c).Done? && ValidRun(su, Step(su, s, Transaction(c)), later)
    requires again.Withdraw? && again.id == c.id && again.figure == c.figure
    requires s.world.vault.At(c.id).token in su.chain.standard
    ensures var s1 := Step(su, s, Transaction(c));
            var s' := Run(su, s1, later);
            var x, x' := s.world.vault.At(c.id), s'.world.vault.At(c.id);
            var o := Exec(su.chain, s'.now, s'.world, again);
            && (o.Done? <==> Presentable(su, s', again) && Min(c.figure, x'.funded) > x'.withdrawn)
            && (LargestAccepted(AcceptedIn(su, s1, later), c.id) == 0 ==>
                  (o.Done? <==> Presentable(su, s', again) && x.funded < c.figure && x.funded < x'.funded))
            && (o.Done? ==> Moved(s'.world.ledger, o.world.ledger, x.token, su.chain.vault, x.recipient,
                                  Min(c.figure, x'.funded) - x'.withdrawn))
  {
    LaterReceipts(su, s, c, later);
    PresentedPays(su, Run(su, Step(su, s, Transaction(c)), later), again);
  }
}
