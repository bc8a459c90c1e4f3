/** What single top-level calls of the vault guarantee, callbacks included. */
module Guarantees {
  import opened Abi
  import opened Protocol
  import opened Tokens
  import opened Vault
  import opened Books
  import opened Accounting

  lemma ShiftedWorldOk(ch: Chain, base: Ledger, w: World, w': World, token: nat)
    requires WorldOk(ch, base, w) && Shifted(ch, w, w', token, 0)
    ensures WorldOk(ch, base, w')
  {
    forall id: nat ensures StreamBooks(w', id) {
      assert StreamBooks(w, id);
      assert w'.vault.At(id).funded == w.vault.At(id).funded
             && w'.vault.At(id).withdrawn == w.vault.At(id).withdrawn
             && w'.vault.At(id).cancelled == w.vault.At(id).cancelled;
    }
    forall t: nat ensures Owed(w'.vault, t, w'.vault.nextStreamId) == Owed(w.vault, t, w.vault.nextStreamId) {
      ShiftedOwed(ch, w, w', token, 0, t);
    }
  }

  /** Ids, bounds, per-stream books, solvency, supply, published terms and the free lock survive
      every top-level call, completed or reverted, with any behaviour of non-standard tokens. */
  lemma EveryCallKeepsWorld(ch: Chain, base: Ledger, now: nat, w: World, c: Call)
    requires WorldOk(ch, base, w) && Legit(ch, c)
    ensures WorldOk(ch, base, Settle(w, Exec(ch, now, w, c)))
  {
    var o := Exec(ch, now, w, c);
    if o.Done? {
      match c
      case Fund(_, _, _, _) => FundCompletes(ch, base, now, w, c);
      case Withdraw(_, _, _, _, _, _) => WithdrawCompletes(ch, base, now, w, c);
      case CancelStream(_, _, _, _, _, _, _) => CancelCompletes(ch, base, now, w, c);
      case _ =>
        UnguardedShifts(ch, now, w, c, 0);
        ShiftedWorldOk(ch, base, w, o.world, 0);
    }
  }

  lemma GuardedCompletes(ch: Chain, base: Ledger, now: nat, w: World, c: Call)
    requires WorldOk(ch, base, w) && Legit(ch, c) && Guarded(c)
    requires Exec(ch, now, w, c).Done?
    ensures c.Fund? ==> w.vault.At(c.id).funded + c.amount < TWO128
    ensures Completed(ch, base, w, c, Exec(ch, now, w, c).world)
  {
    match c
    case Fund(_, _, _, _) => FundCompletes(ch, base, now, w, c);
    case Withdraw(_, _, _, _, _, _) => WithdrawCompletes(ch, base, now, w, c);
    case CancelStream(_, _, _, _, _, _, _) => CancelCompletes(ch, base, now, w, c);
  }

  /** Reentrancy: whatever the tokens call back, the lock ends free, and each stream that existed
      before is changed by the outer call alone. */
  lemma OuterCallDecides(ch: Chain, base: Ledger, now: nat, w: World, c: Call, id: nat)
    requires WorldOk(ch, base, w) && Legit(ch, c) && id in w.vault.streams
    requires Exec(ch, now, w, c).Done?
    ensures var w' := Exec(ch, now, w, c).world;
            && w'.vault.entered == 1
            && (Guarded(c) && c.id == id && c.Fund? ==> w.vault.At(id).funded + c.amount < TWO128)
            && w'.vault.At(id)
               == if Guarded(c) && c.id == id then Counters(w.vault.At(id), c) else w.vault.At(id)
  {
    if Guarded(c) {
      GuardedCompletes(ch, base, now, w, c);
    } else {
      UnguardedShifts(ch, now, w, c, 0);
    }
  }

  lemma ExistingStays(ch: Chain, base: Ledger, now: nat, w: World, c: Call, id: nat)
    requires WorldOk(ch, base, w) && Legit(ch, c) && id in w.vault.streams && Exec(ch, now, w, c).Done?
    ensures id in Exec(ch, now, w, c).world.vault.streams
  {
    if Guarded(c) {
      GuardedCompletes(ch, base, now, w, c);
    } else {
      UnguardedShifts(ch, now, w, c, 0);
    }
  }

  /** The vault always holds what an open stream still reserves. */
  lemma HoldsReserve(ch: Chain, base: Ledger, w: World, id: nat)
    requires WorldOk(ch, base, w) && id in w.vault.streams
    ensures var s := w.vault.At(id);
            s.token in ch.standard && !s.cancelled
            ==> w.ledger.Bal(s.token, ch.vault) >= s.funded - s.withdrawn
  {
    OpenWithinOwed(ch, w.vault, id, w.vault.At(id).token, w.vault.nextStreamId);
  }

  /** A payout of a standard token within the stream's reserve always goes through. */
  lemma PayoutSucceeds(ch: Chain, now: nat, w: World, token: nat, to: nat, amount: nat, reply: Reply)
    requires SupplyFits(w.ledger) && token in ch.standard && amount <= w.ledger.Bal(token, ch.vault)
    ensures var r := TokenOut(ch, now, w, token, to, amount, reply);
            && r.Some?
            && r.value == w.(ledger := r.value.ledger)
            && Moved(w.ledger, r.value.ledger, token, ch.vault, to, amount)
            && SupplyFits(r.value.ledger)
  {
    TransferSucceeds(w.ledger, token, ch.vault, to, amount);
    TransferMoves(w.ledger, token, ch.vault, to, amount);
    var r := Transfer(w.ledger, token, ch.vault, to, amount);
    MovedKeepsSupply(w.ledger, r.value, token, ch.vault, to, amount);
  }

  /** For standard tokens a withdrawal succeeds exactly when its checks do, and then moves
      exactly min(figure, funded) - withdrawn from the vault to the recipient. */
  lemma WithdrawalPays(ch: Chain, base: Ledger, now: nat, w: World, c: Call)
    requires WorldOk(ch, base, w) && c.Withdraw?
    requires w.vault.At(c.id).token in ch.standard
    ensures Exec(ch, now, w, c).Done?
            <==> WithdrawChecks(ch, now, w.vault, c.id, c.figure, c.deadline, c.sig).None?
    ensures Exec(ch, now, w, c).Done? ==>
              var s := w.vault.At(c.id);
              Moved(w.ledger, Exec(ch, now, w, c).world.ledger, s.token, ch.vault, s.recipient,
                    Min(c.figure, s.funded) - s.withdrawn)
  {
    if WithdrawChecks(ch, now, w.vault, c.id, c.figure, c.deadline, c.sig).None? {
      var s := w.vault.At(c.id);
      HoldsReserve(ch, base, w, c.id);
      PayoutSucceeds(ch, now, Entered(w, c.id, AfterWithdraw(s, c.figure)), s.token, s.recipient,
                     Min(c.figure, s.funded) - s.withdrawn, c.reply);
    }
  }

  /** For standard tokens a settlement succeeds exactly when its checks do: neither leg fails and
      the refund never underflows. */
  lemma SettlementPays(ch: Chain, base: Ledger, now: nat, w: World, c: Call)
    requires WorldOk(ch, base, w) && Legit(ch, c) && c.CancelStream?
    requires w.vault.At(c.id).token in ch.standard
    ensures Exec(ch, now, w, c).Done?
            <==> CancelChecks(ch, now, w.vault, c.sender, c.id, c.figure, c.deadline, c.sig).None?
  {
    if CancelChecks(ch, now, w.vault, c.sender, c.id, c.figure, c.deadline, c.sig).None? {
      var s := w.vault.At(c.id);
      var owed, refund := OwedOnCancel(s, c.figure), RefundOnCancel(s, c.figure);
      HoldsReserve(ch, base, w, c.id);
      var w0 := Entered(w, c.id, AfterCancel(s, c.figure));
      PayoutSucceeds(ch, now, w0, s.token, s.recipient, owed, c.payReply);
      var w1 := PayLeg(ch, now, w0, c.id, owed, c.payReply).value;
      PayoutSucceeds(ch, now, w1, s.token, s.employer, refund, c.refundReply);
      assert RefundLeg(ch, now, w1, c.id, refund, c.refundReply).Some?;
      assert ExecCancel(ch, now, w, c).Done?;
    }
  }

  /** Where a completed settlement's money goes: first what is owed to the recipient, then the
      refund to the employer, and nowhere else. */
  lemma SettlementMoves(ch: Chain, base: Ledger, now: nat, w: World, c: Call) returns (mid: Ledger)
    requires WorldOk(ch, base, w) && Legit(ch, c) && c.CancelStream?
    requires w.vault.At(c.id).token in ch.standard && ExecCancel(ch, now, w, c).Done?
    ensures var s := w.vault.At(c.id);
            && Moved(w.ledger, mid, s.token, ch.vault, s.recipient, OwedOnCancel(s, c.figure))
            && RefundOnCancel(s, c.figure) >= 0
            && Moved(mid, ExecCancel(ch, now, w, c).world.ledger, s.token, ch.vault, s.employer,
                     RefundOnCancel(s, c.figure))
  {
    var s := w.vault.At(c.id);
    var owed, refund := OwedOnCancel(s, c.figure), RefundOnCancel(s, c.figure);
    HoldsReserve(ch, base, w, c.id);
    var w0 := Entered(w, c.id, AfterCancel(s, c.figure));
    PayoutSucceeds(ch, now, w0, s.token, s.recipient, owed, c.payReply);
    var w1 := PayLeg(ch, now, w0, c.id, owed, c.payReply).value;
    mid := w1.ledger;
    PayoutSucceeds(ch, now, w1, s.token, s.employer, refund, c.refundReply);
    assert RefundLeg(ch, now, w1, c.id, refund, c.refundReply).Some?;
  }

  /** Funding with a standard token succeeds exactly when its checks pass and the sender has both
      the balance and the allowance; the amount then moves from the sender to the vault. */
  lemma FundingMoves(ch: Chain, base: Ledger, now: nat, w: World, c: Call)
    requires WorldOk(ch, base, w) && Legit(ch, c) && c.Fund? && w.vault.At(c.id).token in ch.standard
    ensures var token := w.vault.At(c.id).token;
            && (ExecFund(ch, now, w, c).Done?
                <==> FundChecks(w.vault, c.id, c.amount).None? && w.ledger.Bal(token, c.sender) >= c.amount
                     && w.ledger.Allowed(token, c.sender) >= c.amount)
            && (ExecFund(ch, now, w, c).Done? ==>
                  Moved(w.ledger, ExecFund(ch, now, w, c).world.ledger, token, c.sender, ch.vault, c.amount))
  {
    var token := w.vault.At(c.id).token;
    TransferFromMoves(w.ledger, token, c.sender, ch.vault, c.amount);
    if w.ledger.Allowed(token, c.sender) >= c.amount {
      var left := w.ledger.Allowed(token, c.sender) - c.amount;
      var spent := w.ledger.(allowances := w.ledger.allowances[(token, c.sender) := left]);
      forall t: nat ensures spent.TotalSupply(t) < TWO256 {
        assert spent.TotalSupply(t) == w.ledger.TotalSupply(t);
      }
      forall t: nat, n: nat ensures Supply(spent, t, n) <= spent.TotalSupply(t) {
        SupplySame(w.ledger, spent, t, n);
        assert Supply(w.ledger, t, n) <= w.ledger.TotalSupply(t);
      }
      TransferSucceeds(spent, token, c.sender, ch.vault, c.amount);
    }
  }

  /** A created stream gets the next id, the sender as employer and exactly the given data, and
      starts empty and open; every other stream stays. */
  lemma CreatedStream(ch: Chain, now: nat, w: World, c: Call, id: nat)
    requires IdsOk(w.vault) && c.CreateStream? && Exec(ch, now, w, c).Done?
    ensures var w' := Exec(ch, now, w, c).world;
            && IdsOk(w'.vault) && w.vault.nextStreamId !in w.vault.streams
            && w'.vault.At(id) == if id == w.vault.nextStreamId
                                  then Stream(c.sender, c.recipient, c.token, c.commitment, 0, 0, c.startTime, false)
                                  else w.vault.At(id)
  {
  }

  /** The refund subtraction never underflows, and a settlement splits the rest of the funding
      between recipient and employer to the raw unit, for every token. */
  lemma SettlementSplits(ch: Chain, base: Ledger, w: World, id: nat, figure: nat)
    requires WorldOk(ch, base, w)
    ensures var s := w.vault.At(id);
            && RefundOnCancel(s, figure) >= 0
            && OwedOnCancel(s, figure) + RefundOnCancel(s, figure) == s.funded - s.withdrawn
            && AfterCancel(s, figure).withdrawn == Max(s.withdrawn, Min(figure, s.funded))
            && AfterCancel(s, figure).withdrawn + RefundOnCancel(s, figure) == s.funded
  {
  }
}
