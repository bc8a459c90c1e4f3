/** Cumulative accounting: order, repetition and timing of authorizations do not matter. */
module Confluence {
  import opened Protocol
  import opened Tokens
  import opened Vault
  import opened Books
  import opened Accounting
  import opened Guarantees

  /** A call submitted at a block time. */
  datatype Attempt = Attempt(now: nat, call: Call)

  /** Calls in order, each from what the previous one left; a reverted call changes nothing. */
  function Submit(ch: Chain, w: World, xs: seq<Attempt>): World
    decreases |xs|
  {
    if xs == [] then w
    else Submit(ch, Settle(w, Exec(ch, xs[0].now, w, xs[0].call)), xs[1..])
  }

  /** A withdrawal of stream `id` that passes every check except that something is left to pay. */
  predicate Authorized(ch: Chain, v: Storage, id: nat, x: Attempt) {
    && x.call.Withdraw? && x.call.id == id && Legit(ch, x.call)
    && PresentChecks(ch, x.now, v, x.call.id, x.call.figure, x.call.deadline, x.call.sig).None?
  }

  predicate TopUp(ch: Chain, id: nat, x: Attempt) {
    x.call.Fund? && x.call.id == id && Legit(ch, x.call)
  }

  /** An open stream of a standard token in a sound world. */
  ghost predicate Live(ch: Chain, base: Ledger, w: World, id: nat) {
    && WorldOk(ch, base, w) && id in w.vault.streams
    && !w.vault.At(id).cancelled && w.vault.At(id).token in ch.standard
  }

  function Figure(x: Attempt): nat {
    if x.call.Withdraw? then x.call.figure else 0
  }

  /** The largest figure among the withdrawals. */
  function Largest(xs: seq<Attempt>): nat {
    if xs == [] then 0 else Max(Figure(xs[0]), Largest(xs[1..]))
  }

  /** Same signer and same lasting stream data. */
  predicate SameTerms(v: Storage, v': Storage, id: nat) {
    && v'.teeSigner == v.teeSigner && v'.entered == v.entered
    && SameIdentity(v.At(id), v'.At(id)) && !v'.At(id).cancelled
  }

  /** A standard token changes nothing but its own ledger. */
  lemma StandardKeepsVault(ch: Chain, now: nat, w: World, token: nat, other: nat, amount: nat, reply: Reply)
    requires token in ch.standard
    ensures var r := TokenOut(ch, now, w, token, other, amount, reply); r.Some? ==> r.value.vault == w.vault
    ensures var r := TokenIn(ch, now, w, token, other, amount, reply); r.Some? ==> r.value.vault == w.vault
  {
  }

  lemma SignerStays(ch: Chain, w: World, id: nat, x: Attempt)
    requires w.vault.At(id).token in ch.standard && Guarded(x.call) && x.call.id == id && !x.call.CancelStream?
    ensures Settle(w, Exec(ch, x.now, w, x.call)).vault.teeSigner == w.vault.teeSigner
  {
    var c, s := x.call, w.vault.At(id);
    if c.Fund? && ExecFund(ch, x.now, w, c).Done? {
      StandardKeepsVault(ch, x.now, Entered(w, id, AfterFund(s, c.amount)), s.token, c.sender, c.amount, c.reply);
    }
    if c.Withdraw? && ExecWithdraw(ch, x.now, w, c).Done? {
      StandardKeepsVault(ch, x.now, Entered(w, id, AfterWithdraw(s, c.figure)), s.token, s.recipient,
                         Min(c.figure, s.funded) - s.withdrawn, c.reply);
    }
  }

  lemma OneWithdrawal(ch: Chain, base: Ledger, w: World, id: nat, x: Attempt)
    requires Live(ch, base, w, id) && Authorized(ch, w.vault, id, x)
    ensures var w' := Settle(w, Exec(ch, x.now, w, x.call));
            var s := w.vault.At(id);
            && Live(ch, base, w', id) && SameTerms(w.vault, w'.vault, id)
            && w'.vault.At(id) == s.(withdrawn := Max(s.withdrawn, Min(x.call.figure, s.funded)))
  {
    EveryCallKeepsWorld(ch, base, x.now, w, x.call);
    SignerStays(ch, w, id, x);
    WithdrawalPays(ch, base, x.now, w, x.call);
    assert StreamOk(ch, w.vault.streams[id]);
    if Exec(ch, x.now, w, x.call).Done? {
      ExistingStays(ch, base, x.now, w, x.call, id);
      OuterCallDecides(ch, base, x.now, w, x.call, id);
    }
  }

  lemma OneTopUp(ch: Chain, base: Ledger, w: World, id: nat, x: Attempt)
    requires Live(ch, base, w, id) && TopUp(ch, id, x)
    ensures var w' := Settle(w, Exec(ch, x.now, w, x.call));
            var s, s' := w.vault.At(id), w'.vault.At(id);
            && Live(ch, base, w', id) && SameTerms(w.vault, w'.vault, id)
            && s'.withdrawn == s.withdrawn && s'.funded >= s.funded
  {
    EveryCallKeepsWorld(ch, base, x.now, w, x.call);
    SignerStays(ch, w, id, x);
    if Exec(ch, x.now, w, x.call).Done? {
      ExistingStays(ch, base, x.now, w, x.call, id);
      OuterCallDecides(ch, base, x.now, w, x.call, id);
    }
  }

  lemma StillAuthorized(ch: Chain, v: Storage, v': Storage, id: nat, x: Attempt)
    requires SameTerms(v, v', id) && Authorized(ch, v, id, x)
    ensures Authorized(ch, v', id, x)
  {
  }

  /** Any sequence of valid authorizations without funding in between ends at
      max(w0, min(funded, largest figure)). */
  lemma {:induction false} WithdrawalsReachMaximum(ch: Chain, base: Ledger, w: World, id: nat, xs: seq<Attempt>)
    requires Live(ch, base, w, id)
    requires forall x | x in xs :: Authorized(ch, w.vault, id, x)
    ensures var s := w.vault.At(id);
            && Live(ch, base, Submit(ch, w, xs), id)
            && Submit(ch, w, xs).vault.At(id) == s.(withdrawn := Max(s.withdrawn, Min(Largest(xs), s.funded)))
    decreases |xs|
  {
    if xs == [] {
      assert StreamOk(ch, w.vault.streams[id]);
    } else {
      var w' := Settle(w, Exec(ch, xs[0].now, w, xs[0].call));
      OneWithdrawal(ch, base, w, id, xs[0]);
      forall x | x in xs[1..] ensures Authorized(ch, w'.vault, id, x) {
        StillAuthorized(ch, w.vault, w'.vault, id, x);
      }
      WithdrawalsReachMaximum(ch, base, w', id, xs[1..]);
    }
  }

  lemma {:induction false} LargestBounds(xs: seq<Attempt>, x: Attempt)
    requires x in xs
    ensures Figure(x) <= Largest(xs)
  {
    if x != xs[0] {
      LargestBounds(xs[1..], x);
    }
  }

  lemma {:induction false} LargestAtMost(xs: seq<Attempt>, ys: seq<Attempt>)
    requires forall x | x in xs :: exists y :: y in ys && Figure(y) == Figure(x)
    ensures Largest(xs) <= Largest(ys)
  {
    if xs != [] {
      assert xs[0] in xs;
      var y :| y in ys && Figure(y) == Figure(xs[0]);
      LargestBounds(ys, y);
      LargestAtMost(xs[1..], ys);
    }
  }

  /** The same figures, in any order and with any repetition. */
  predicate SameFigures(xs: seq<Attempt>, ys: seq<Attempt>) {
    && (forall x | x in xs :: exists y :: y in ys && Figure(y) == Figure(x))
    && (forall y | y in ys :: exists x :: x in xs && Figure(x) == Figure(y))
  }

  lemma SameLargest(xs: seq<Attempt>, ys: seq<Attempt>)
    requires SameFigures(xs, ys)
    ensures Largest(xs) == Largest(ys)
  {
    LargestAtMost(xs, ys);
    LargestAtMost(ys, xs);
  }

  /** Confluence: two sequences presenting the same figures, in any order, with any repetition and
      at any times before their deadlines, leave the stream the same, receipts included. */
  lemma WithdrawalsCommute(ch: Chain, base: Ledger, w: World, id: nat, xs: seq<Attempt>, ys: seq<Attempt>)
    requires Live(ch, base, w, id)
    requires forall x | x in xs :: Authorized(ch, w.vault, id, x)
    requires forall y | y in ys :: Authorized(ch, w.vault, id, y)
    requires SameFigures(xs, ys)
    ensures var a, b := Submit(ch, w, xs), Submit(ch, w, ys);
            a.vault.At(id) == b.vault.At(id) && Total(a.trail, Out(id)) == Total(b.trail, Out(id))
  {
    WithdrawalsReachMaximum(ch, base, w, id, xs);
    WithdrawalsReachMaximum(ch, base, w, id, ys);
    SameLargest(xs, ys);
    assert StreamBooks(Submit(ch, w, xs), id) && StreamBooks(Submit(ch, w, ys), id);
  }

  /** With top-ups interleaved anywhere, receipts never pass min(funded, largest figure) unless
      they already had. */
  lemma {:induction false} ToppedUpBound(ch: Chain, base: Ledger, w: World, id: nat, xs: seq<Attempt>)
    requires Live(ch, base, w, id)
    requires forall x | x in xs :: Authorized(ch, w.vault, id, x) || TopUp(ch, id, x)
    ensures var s, s' := w.vault.At(id), Submit(ch, w, xs).vault.At(id);
            && Live(ch, base, Submit(ch, w, xs), id) && SameTerms(w.vault, Submit(ch, w, xs).vault, id)
            && s'.funded >= s.funded
            && s.withdrawn <= s'.withdrawn <= Max(s.withdrawn, Min(Largest(xs), s'.funded))
    decreases |xs|
  {
    if xs != [] {
      var w' := Settle(w, Exec(ch, xs[0].now, w, xs[0].call));
      if TopUp(ch, id, xs[0]) {
        OneTopUp(ch, base, w, id, xs[0]);
      } else {
        OneWithdrawal(ch, base, w, id, xs[0]);
      }
      forall x | x in xs[1..] ensures Authorized(ch, w'.vault, id, x) || TopUp(ch, id, x) {
        if !TopUp(ch, id, x) {
          StillAuthorized(ch, w.vault, w'.vault, id, x);
        }
      }
      ToppedUpBound(ch, base, w', id, xs[1..]);
    }
  }

  /** Resubmitting the largest figure after the last top-up reaches that bound exactly, as if
      nothing had been withdrawn before: early withdrawals cost nothing. */
  lemma LargestLastCatchesUp(ch: Chain, base: Ledger, w: World, id: nat, xs: seq<Attempt>, y: Attempt)
    requires Live(ch, base, w, id)
    requires forall x | x in xs :: Authorized(ch, w.vault, id, x) || TopUp(ch, id, x)
    requires Authorized(ch, w.vault, id, y) && y.call.figure == Largest(xs)
    ensures var mid := Submit(ch, w, xs);
            var final := Settle(mid, Exec(ch, y.now, mid, y.call));
            && final.vault.At(id).funded == mid.vault.At(id).funded
            && final.vault.At(id).withdrawn
               == Max(w.vault.At(id).withdrawn, Min(y.call.figure, mid.vault.At(id).funded))
            && Total(final.trail, Out(id)) == final.vault.At(id).withdrawn
  {
    ToppedUpBound(ch, base, w, id, xs);
    var mid := Submit(ch, w, xs);
    StillAuthorized(ch, w.vault, mid.vault, id, y);
    OneWithdrawal(ch, base, mid, id, y);
    assert StreamBooks(Settle(mid, Exec(ch, y.now, mid, y.call)), id);
  }
}
