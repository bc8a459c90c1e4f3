/** What can change a stream in a run of the whole system, and who can do it. */
module Changes {
  import opened Protocol
  import opened Vault
  import opened Books
  import opened Guarantees
  import opened Operations
  import opened System
  import opened Theorems

  lemma ReachableOrderly(su: Setup, s: Sys)
    requires Reachable(su, s)
    ensures Orderly(su.chain, su.base, s.world) && s.world.vault.entered == 1
  {
    ReachableInv(su, s);
    assert s.world.(vault := s.world.vault.(entered := 1)) == s.world;
  }

  /** A funding by its sender: the funding grows by the amount. */
  predicate FundedBy(c: Call, x: Stream, x': Stream) {
    c.Fund? && c.amount > 0 && x'.funded == x.funded + c.amount && x'.withdrawn == x.withdrawn && !x'.cancelled
  }

  /** A withdrawal signed by the installed signer: the receipts grow to min(figure, funded). */
  predicate WithdrawnBy(ch: Chain, v: Storage, c: Call, x: Stream, x': Stream) {
    && c.Withdraw? && SignedBySigner(ch, v, WITHDRAW_TAG, c.id, c.figure, c.deadline, c.sig)
    && x'.funded == x.funded && x'.withdrawn == (if c.figure < x.funded then c.figure else x.funded) > x.withdrawn
    && !x'.cancelled
  }

  /** A settlement signed by the installed signer and sent by the stored employer. */
  predicate SettledBy(ch: Chain, v: Storage, c: Call, x: Stream, x': Stream) {
    && c.CancelStream? && c.sender == x.employer
    && SignedBySigner(ch, v, SETTLE_TAG, c.id, c.figure, c.deadline, c.sig)
    && x'.funded == x.funded && x'.withdrawn == SettledReceipts(x, c.figure) && x'.cancelled
  }

  lemma GuardedChange(su: Setup, s: Sys, c: Call)
    requires Reachable(su, s) && Enabled(su, s, Transaction(c)) && Guarded(c)
    requires Exec(su.chain, s.now, s.world, c).Done?
    ensures var x, x' := s.world.vault.At(c.id), Exec(su.chain, s.now, s.world, c).world.vault.At(c.id);
            && !x.cancelled
            && (FundedBy(c, x, x') || WithdrawnBy(su.chain, s.world.vault, c, x, x')
                || SettledBy(su.chain, s.world.vault, c, x, x'))
  {
    ReachableOrderly(su, s);
    match c
    case Fund(_, _, _, _) => FundExactly(su.chain, su.base, s.now, s.world, c);
    case Withdraw(_, _, _, _, _, _) => WithdrawExactly(su.chain, su.base, s.now, s.world, c);
    case CancelStream(_, _, _, _, _, _, _) => CancelExactly(su.chain, su.base, s.now, s.world, c);
  }

  /** Whatever happens in a step, callbacks included, an existing stream changes only by a completed
      transaction of its own: a funding, a signed withdrawal, or a signed settlement that its stored
      employer sends.  A cancelled stream does not change at all. */
  lemma StepChanges(su: Setup, s: Sys, a: Action, id: nat)
    requires Reachable(su, s) && Enabled(su, s, a) && id in s.world.vault.streams
    ensures var x, x' := s.world.vault.At(id), Step(su, s, a).world.vault.At(id);
            x' == x
            || (&& a.Transaction? && Guarded(a.call) && a.call.id == id && !x.cancelled
                && (FundedBy(a.call, x, x') || WithdrawnBy(su.chain, s.world.vault, a.call, x, x')
                    || SettledBy(su.chain, s.world.vault, a.call, x, x')))
  {
    if a.Transaction? && Exec(su.chain, s.now, s.world, a.call).Done? {
      ReachableInv(su, s);
      OuterCallDecides(su.chain, su.base, s.now, s.world, a.call, id);
      if Guarded(a.call) && a.call.id == id {
        GuardedChange(su, s, a.call);
      }
    }
  }

  /** Only the stored employer settles: wherever a run turns an open stream into a cancelled one, one
      of its actions is a settlement that the stored employer sent. */
  lemma {:induction false} OnlyEmployerCancels(su: Setup, s: Sys, acts: seq<Action>, id: nat)
    requires Reachable(su, s) && ValidRun(su, s, acts) && id in s.world.vault.streams
    requires !s.world.vault.At(id).cancelled && Run(su, s, acts).world.vault.At(id).cancelled
    ensures exists a :: && a in acts && a.Transaction? && a.call.CancelStream? && a.call.id == id
                        && a.call.sender == s.world.vault.At(id).employer
  {
    var front, last := acts[..|acts| - 1], acts[|acts| - 1];
    var mid := Run(su, s, front);
    if mid.world.vault.At(id).cancelled {
      OnlyEmployerCancels(su, s, front, id);
    } else {
      ReachableExtends(su, s, front);
      StreamsEvolve(su, s, front);
      StepChanges(su, mid, last, id);
      assert last in acts;
    }
  }

  /** The clock moves by exactly what passes, and nothing else does. */
  lemma TimePasses(su: Setup, s: Sys, seconds: nat)
    ensures Step(su, s, Tick(seconds)).now == s.now + seconds
    ensures Step(su, s, Tick(seconds)).world == s.world && Step(su, s, Tick(seconds)).issued == s.issued
  {
  }
}
