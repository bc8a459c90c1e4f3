/** Every top-level call keeps the accounts, and the outer call alone decides the counters. */
module Accounting {
  import opened Abi
  import opened Protocol
  import opened Tokens
  import opened Vault
  import opened Books

  // ---------------------------------------------------------------- reserved sums

  lemma {:induction false} OwedChange(v: Storage, v': Storage, id: nat, token: nat, n: nat)
    requires forall j: nat | j < n && j != id :: v'.At(j) == v.At(j)
    ensures Owed(v', token, n) - Owed(v, token, n)
            == if id < n then Open(v'.At(id), token) - Open(v.At(id), token) else 0
  {
    if n > 0 {
      OwedChange(v, v', id, token, n - 1);
    }
  }

  lemma {:induction false} OwedGrown(v: Storage, v': Storage, token: nat, n: nat)
    requires v.nextStreamId <= n
    requires forall j: nat | j < v.nextStreamId :: v'.At(j) == v.At(j)
    requires forall j: nat | v.nextStreamId <= j < n :: Open(v'.At(j), token) == 0
    ensures Owed(v', token, n) == Owed(v, token, v.nextStreamId)
  {
    if n > v.nextStreamId {
      OwedGrown(v, v', token, n - 1);
    } else {
      OwedSame(v, v', token, n);
    }
  }

  lemma {:induction false} OwedSame(v: Storage, v': Storage, token: nat, n: nat)
    requires forall j: nat | j < n :: v'.At(j) == v.At(j)
    ensures Owed(v', token, n) == Owed(v, token, n)
  {
    if n > 0 {
      OwedSame(v, v', token, n - 1);
    }
  }

  lemma {:induction false} OpenWithinOwed(ch: Chain, v: Storage, id: nat, token: nat, n: nat)
    requires StreamsOk(ch, v)
    ensures Owed(v, token, n) >= 0
    ensures id < n ==> Owed(v, token, n) >= Open(v.At(id), token)
  {
    if n > 0 {
      OpenWithinOwed(ch, v, id, token, n - 1);
    }
  }

  lemma ShiftedOwed(ch: Chain, w: World, w': World, token: nat, delta: int, t: nat)
    requires IdsOk(w.vault) && Shifted(ch, w, w', token, delta)
    ensures Owed(w'.vault, t, w'.vault.nextStreamId) == Owed(w.vault, t, w.vault.nextStreamId)
  {
    OwedGrown(w.vault, w'.vault, t, w'.vault.nextStreamId);
  }

  // ---------------------------------------------------------------- between the legs

  /** The accounts of a guarded call in progress on stream `id`: `dueIn` is still to come in,
      `dueOut` and `dueBack` still to be paid out and refunded. */
  ghost predicate Midway(ch: Chain, base: Ledger, w: World, id: nat, dueIn: nat, dueOut: nat, dueBack: nat) {
    && Shape(ch, w)
    && id in w.vault.streams
    && (forall j: nat | j != id :: StreamBooks(w, j))
    && Total(w.trail, In(id)) + dueIn == w.vault.At(id).funded
    && Total(w.trail, Out(id)) + dueOut == w.vault.At(id).withdrawn
    && Total(w.trail, Back(id)) + dueBack
       == (if w.vault.At(id).cancelled then w.vault.At(id).funded - w.vault.At(id).withdrawn else 0)
    && (forall t: nat | t in ch.standard ::
          Net(ch, w, t) == base.Bal(t, ch.vault) + Owed(w.vault, t, w.vault.nextStreamId)
                           + (if t == w.vault.At(id).token then dueOut + dueBack - dueIn else 0))
  }

  /** Same parties, token, commitment and start time. */
  predicate SameIdentity(s: Stream, s': Stream) {
    && s'.employer == s.employer && s'.recipient == s.recipient && s'.token == s.token
    && s'.commitment == s.commitment && s'.startTime == s.startTime
  }

  lemma EnterMidway(ch: Chain, base: Ledger, w: World, id: nat, s': Stream,
                    dueIn: nat, dueOut: nat, dueBack: nat)
    requires WorldOk(ch, base, w) && id in w.vault.streams && !w.vault.At(id).cancelled
    requires SameIdentity(w.vault.At(id), s') && s'.withdrawn <= s'.funded
    requires s'.funded == w.vault.At(id).funded + dueIn
    requires s'.withdrawn == w.vault.At(id).withdrawn + dueOut
    requires dueBack == if s'.cancelled then s'.funded - s'.withdrawn else 0
    requires s'.cancelled ==> dueIn == 0
    ensures Midway(ch, base, Entered(w, id, s'), id, dueIn, dueOut, dueBack)
  {
    var w' := Entered(w, id, s');
    assert StreamBooks(w, id);
    forall j: nat | j != id ensures StreamBooks(w', j) {
      assert StreamBooks(w, j);
    }
    forall t: nat | t in ch.standard
      ensures Net(ch, w', t) == base.Bal(t, ch.vault) + Owed(w'.vault, t, w'.vault.nextStreamId)
                                + (if t == s'.token then dueOut + dueBack - dueIn else 0)
    {
      OwedChange(w.vault, w'.vault, id, t, w.vault.nextStreamId);
    }
  }

  /** A token call on `token` moved `delta`, and recording it with `e` turns the amounts still
      due into those left. */
  ghost predicate Balances(e: Event, id: nat, token: nat, delta: int, due: (nat, nat, nat), left: (nat, nat, nat)) {
    && !e.Revealed?
    && left.0 + Amount(e, In(id)) == due.0
    && left.1 + Amount(e, Out(id)) == due.1
    && left.2 + Amount(e, Back(id)) == due.2
    && (forall k: Account | !k.Gift? && k != In(id) && k != Out(id) && k != Back(id) :: Amount(e, k) == 0)
    && (forall t: nat :: Amount(e, Gift(t))
          == if t == token then delta + (due.1 + due.2 - due.0) - (left.1 + left.2 - left.0) else 0)
  }

  lemma LegShape(ch: Chain, w: World, w': World, e: Event, token: nat, delta: int)
    requires Shape(ch, w) && Shifted(ch, w, w', token, delta) && !e.Revealed?
    ensures Shape(ch, Record(w', e))
  {
    RecordKeepsReveals(w', e);
  }

  lemma UntouchedBooks(ch: Chain, w: World, w': World, e: Event, j: nat, token: nat, delta: int)
    requires Stable(w) && Shifted(ch, w, w', token, delta) && StreamBooks(w, j)
    requires Amount(e, In(j)) == 0 && Amount(e, Out(j)) == 0 && Amount(e, Back(j)) == 0
    ensures StreamBooks(Record(w', e), j)
  {
    TotalRecord(w', e, In(j));
    TotalRecord(w', e, Out(j));
    TotalRecord(w', e, Back(j));
    var s, s' := w.vault.At(j), w'.vault.At(j);
    assert s'.funded == s.funded && s'.withdrawn == s.withdrawn && s'.cancelled == s.cancelled;
  }

  /** The accounts in progress after a token call and the entry it is recorded with. */
  lemma LegMidway(ch: Chain, base: Ledger, w: World, w': World, e: Event, id: nat, delta: int,
                  due: (nat, nat, nat), left: (nat, nat, nat))
    requires Midway(ch, base, w, id, due.0, due.1, due.2)
    requires Shifted(ch, w, w', w.vault.At(id).token, delta)
    requires Balances(e, id, w.vault.At(id).token, delta, due, left)
    ensures Midway(ch, base, Record(w', e), id, left.0, left.1, left.2)
  {
    var f := Record(w', e);
    var token := w.vault.At(id).token;
    LegShape(ch, w, w', e, token, delta);
    forall j: nat | j != id ensures StreamBooks(f, j) {
      UntouchedBooks(ch, w, w', e, j, token, delta);
    }
    RecordTotals(ch, w', e);
    assert f.vault.At(id) == w.vault.At(id);
    forall t: nat | t in ch.standard
      ensures Net(ch, f, t) == base.Bal(t, ch.vault) + Owed(f.vault, t, f.vault.nextStreamId)
                               + (if t == token then left.1 + left.2 - left.0 else 0)
    {
      ShiftedOwed(ch, w, w', token, delta, t);
    }
  }

  lemma LeaveMidway(ch: Chain, base: Ledger, w: World, id: nat)
    requires Midway(ch, base, w, id, 0, 0, 0)
    ensures WorldOk(ch, base, Left(w))
  {
    var f := Left(w);
    forall j: nat ensures StreamBooks(f, j) {
      assert j != id ==> StreamBooks(w, j);
    }
    forall t: nat ensures Owed(f.vault, t, f.vault.nextStreamId) == Owed(w.vault, t, w.vault.nextStreamId) {
      OwedSame(w.vault, f.vault, t, w.vault.nextStreamId);
    }
  }

  // ---------------------------------------------------------------- token calls

  /** Net change of the vault's holding when it sends or receives a standard token. */
  lemma MovedShifts(ch: Chain, w: World, l: Ledger, token: nat, from: nat, to: nat, amount: nat)
    requires Stable(w) && Moved(w.ledger, l, token, from, to, amount)
    requires from == ch.vault || to == ch.vault
    ensures Shifted(ch, w, w.(ledger := l), token,
                    if from == to then 0 else if from == ch.vault then 0 - amount else amount)
  {
    MovedKeepsSupply(w.ledger, l, token, from, to, amount);
  }

  lemma TokenOutShifts(ch: Chain, now: nat, w: World, token: nat, to: nat, amount: nat, reply: Reply)
    requires Stable(w) && w.vault.entered == 2 && AllLegit(ch, reply.callbacks)
    ensures var r := TokenOut(ch, now, w, token, to, amount, reply);
            r.Some? ==> Shifted(ch, w, r.value, token, if to == ch.vault then 0 else 0 - amount)
  {
    if token in ch.standard {
      var r := Transfer(w.ledger, token, ch.vault, to, amount);
      TransferMoves(w.ledger, token, ch.vault, to, amount);
      if r.Some? {
        MovedShifts(ch, w, r.value, token, ch.vault, to, amount);
      }
    } else {
      CallbacksShift(ch, now, w, reply.callbacks, token);
    }
  }

  lemma TokenInShifts(ch: Chain, now: nat, w: World, token: nat, from: nat, amount: nat, reply: Reply)
    requires Stable(w) && w.vault.entered == 2 && AllLegit(ch, reply.callbacks) && from != ch.vault
    ensures var r := TokenIn(ch, now, w, token, from, amount, reply);
            r.Some? ==> Shifted(ch, w, r.value, token, amount)
  {
    if token in ch.standard {
      var r := TransferFrom(w.ledger, token, from, ch.vault, amount);
      TransferFromMoves(w.ledger, token, from, ch.vault, amount);
      if r.Some? {
        MovedShifts(ch, w, r.value, token, from, ch.vault, amount);
      }
    } else {
      CallbacksShift(ch, now, w, reply.callbacks, token);
    }
  }

  // ---------------------------------------------------------------- guarded calls

  /** The stream a guarded call leaves behind, decided by the outer call alone. */
  function Counters(s: Stream, c: Call): Stream
    requires Guarded(c)
    requires c.Fund? ==> s.funded + c.amount < TWO128
  {
    match c
    case Fund(_, _, amount, _) => AfterFund(s, amount)
    case Withdraw(_, _, figure, _, _, _) => AfterWithdraw(s, figure)
    case CancelStream(_, _, figure, _, _, _, _) => AfterCancel(s, figure)
  }

  /** A completed guarded call: its stream becomes Counters, other existing streams stay, new
      ones are empty, and the accounts hold with the lock free again. */
  ghost predicate Completed(ch: Chain, base: Ledger, w: World, c: Call, w': World)
    requires Guarded(c)
    requires c.Fund? ==> w.vault.At(c.id).funded + c.amount < TWO128
  {
    && WorldOk(ch, base, w')
    && c.id in w.vault.streams
    && Kept(ch, Left(Entered(w, c.id, Counters(w.vault.At(c.id), c))).vault, w'.vault)
  }

  lemma DepositedMidway(ch: Chain, base: Ledger, now: nat, w: World, id: nat, from: nat, amount: nat, reply: Reply)
    requires Midway(ch, base, w, id, amount, 0, 0) && from != ch.vault
    requires w.vault.entered == 2 && AllLegit(ch, reply.callbacks)
    ensures var r := TokenIn(ch, now, w, w.vault.At(id).token, from, amount, reply);
            r.Some? ==> Midway(ch, base, Record(r.value, Deposited(id, amount)), id, 0, 0, 0)
                        && Kept(ch, w.vault, r.value.vault)
  {
    var r := TokenIn(ch, now, w, w.vault.At(id).token, from, amount, reply);
    TokenInShifts(ch, now, w, w.vault.At(id).token, from, amount, reply);
    if r.Some? {
      LegMidway(ch, base, w, r.value, Deposited(id, amount), id, amount, (amount, 0, 0), (0, 0, 0));
    }
  }

  lemma FundCompletes(ch: Chain, base: Ledger, now: nat, w: World, c: Call)
    requires WorldOk(ch, base, w) && Legit(ch, c) && c.Fund?
    requires ExecFund(ch, now, w, c).Done?
    ensures w.vault.At(c.id).funded + c.amount < TWO128
    ensures Completed(ch, base, w, c, ExecFund(ch, now, w, c).world)
  {
    var s := w.vault.At(c.id);
    var w0 := Entered(w, c.id, AfterFund(s, c.amount));
    EnterMidway(ch, base, w, c.id, AfterFund(s, c.amount), c.amount, 0, 0);
    DepositedMidway(ch, base, now, w0, c.id, c.sender, c.amount, c.reply);
    var w1 := TokenIn(ch, now, w0, s.token, c.sender, c.amount, c.reply).value;
    LeaveMidway(ch, base, Record(w1, Deposited(c.id, c.amount)), c.id);
  }

  lemma PaidMidway(ch: Chain, base: Ledger, now: nat, w: World, id: nat, amount: nat, dueBack: nat, reply: Reply)
    requires Midway(ch, base, w, id, 0, amount, dueBack)
    requires w.vault.entered == 2 && AllLegit(ch, reply.callbacks)
    ensures var s := w.vault.At(id);
            var r := TokenOut(ch, now, w, s.token, s.recipient, amount, reply);
            r.Some? ==>
              && Midway(ch, base, Record(r.value, Paid(id, s.token, amount, s.recipient == ch.vault)), id, 0, 0,
                         dueBack)
              && Kept(ch, w.vault, r.value.vault)
  {
    var s := w.vault.At(id);
    var r := TokenOut(ch, now, w, s.token, s.recipient, amount, reply);
    TokenOutShifts(ch, now, w, s.token, s.recipient, amount, reply);
    if r.Some? {
      var delta := if s.recipient == ch.vault then 0 else 0 - amount;
      LegMidway(ch, base, w, r.value, Paid(id, s.token, amount, s.recipient == ch.vault), id, delta,
                (0, amount, dueBack), (0, 0, dueBack));
    }
  }

  lemma RefundedMidway(ch: Chain, base: Ledger, now: nat, w: World, id: nat, amount: nat, reply: Reply)
    requires Midway(ch, base, w, id, 0, 0, amount)
    requires w.vault.entered == 2 && AllLegit(ch, reply.callbacks)
    ensures var s := w.vault.At(id);
            var r := TokenOut(ch, now, w, s.token, s.employer, amount, reply);
            r.Some? ==>
              && Midway(ch, base, Record(r.value, Refunded(id, amount)), id, 0, 0, 0)
              && Kept(ch, w.vault, r.value.vault)
  {
    var s := w.vault.At(id);
    var r := TokenOut(ch, now, w, s.token, s.employer, amount, reply);
    TokenOutShifts(ch, now, w, s.token, s.employer, amount, reply);
    if r.Some? {
      LegMidway(ch, base, w, r.value, Refunded(id, amount), id, 0 - amount, (0, 0, amount), (0, 0, 0));
    }
  }

  lemma WithdrawCompletes(ch: Chain, base: Ledger, now: nat, w: World, c: Call)
    requires WorldOk(ch, base, w) && Legit(ch, c) && c.Withdraw?
    requires ExecWithdraw(ch, now, w, c).Done?
    ensures Completed(ch, base, w, c, ExecWithdraw(ch, now, w, c).world)
  {
    var s := w.vault.At(c.id);
    var s' := AfterWithdraw(s, c.figure);
    var payout := Min(c.figure, s.funded) - s.withdrawn;
    var w0 := Entered(w, c.id, s');
    EnterMidway(ch, base, w, c.id, s', 0, payout, 0);
    PaidMidway(ch, base, now, w0, c.id, payout, 0, c.reply);
    var w1 := TokenOut(ch, now, w0, s.token, s.recipient, payout, c.reply).value;
    LeaveMidway(ch, base, Record(w1, Paid(c.id, s.token, payout, s.recipient == ch.vault)), c.id);
  }

  /** Both legs of a settlement, skipped or not. */
  lemma LegsMidway(ch: Chain, base: Ledger, now: nat, w: World, id: nat, owed: nat, refund: nat,
                   payReply: Reply, refundReply: Reply)
    requires Midway(ch, base, w, id, 0, owed, refund)
    requires w.vault.entered == 2 && AllLegit(ch, payReply.callbacks) && AllLegit(ch, refundReply.callbacks)
    ensures var r := PayLeg(ch, now, w, id, owed, payReply);
            r.Some? ==>
              var r2 := RefundLeg(ch, now, r.value, id, refund, refundReply);
              r2.Some? ==> Midway(ch, base, r2.value, id, 0, 0, 0) && Kept(ch, w.vault, r2.value.vault)
  {
    PaidMidway(ch, base, now, w, id, owed, refund, payReply);
    var r := PayLeg(ch, now, w, id, owed, payReply);
    if r.Some? {
      RefundedMidway(ch, base, now, r.value, id, refund, refundReply);
      var r2 := RefundLeg(ch, now, r.value, id, refund, refundReply);
      if r2.Some? {
        KeptThen(ch, w.vault, r.value.vault, r2.value.vault);
      }
    }
  }

  lemma CancelCompletes(ch: Chain, base: Ledger, now: nat, w: World, c: Call)
    requires WorldOk(ch, base, w) && Legit(ch, c) && c.CancelStream?
    requires ExecCancel(ch, now, w, c).Done?
    ensures Completed(ch, base, w, c, ExecCancel(ch, now, w, c).world)
  {
    var s := w.vault.At(c.id);
    var s' := AfterCancel(s, c.figure);
    var owed, refund := OwedOnCancel(s, c.figure), RefundOnCancel(s, c.figure);
    var w0 := Entered(w, c.id, s');
    EnterMidway(ch, base, w, c.id, s', 0, owed, refund);
    LegsMidway(ch, base, now, w0, c.id, owed, refund, c.payReply, c.refundReply);
    var w1 := PayLeg(ch, now, w0, c.id, owed, c.payReply).value;
    var w2 := RefundLeg(ch, now, w1, c.id, refund, c.refundReply).value;
    LeaveMidway(ch, base, w2, c.id);
  }
}
