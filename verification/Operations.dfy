/** Each call of the vault in plain conditions: exactly when it completes, with which reason it
reverts otherwise, and exactly what it leaves behind.  Nothing here is said through the vault's own
check and effect functions. */
module Operations {
  import opened Options
  import opened Abi
  import opened Protocol
  import opened Tokens
  import opened Vault
  import opened Books
  import opened Guarantees

  /** The accounts are in order, whether or not the lock is free. */
  ghost predicate Orderly(ch: Chain, base: Ledger, w: World) {
    WorldOk(ch, base, w.(vault := w.vault.(entered := 1)))
  }

  lemma OrderlyFree(ch: Chain, base: Ledger, w: World)
    requires Orderly(ch, base, w) && w.vault.entered == 1
    ensures WorldOk(ch, base, w)
  {
    assert w.(vault := w.vault.(entered := 1)) == w;
  }

  lemma OrderlyStream(ch: Chain, base: Ledger, w: World, id: nat)
    requires Orderly(ch, base, w)
    ensures id in w.vault.streams <==> w.vault.At(id).employer != 0
    ensures w.vault.At(id).withdrawn <= w.vault.At(id).funded
  {
    if id in w.vault.streams {
      assert StreamOk(ch, w.vault.streams[id]);
    }
  }

  // ---------------------------------------------------------------- signatures

  /** The seven words a withdrawal or settlement signature covers, in ABI order. */
  function SignedWords(ch: Chain, v: Storage, tag: Word, id: Uint256, figure: Uint256, deadline: Uint256): seq<Word> {
    [tag, UintWord(ch.chainId), UintWord(ch.vault), UintWord(id), v.At(id).commitment, UintWord(figure),
     UintWord(deadline)]
  }

  /** The installed signer's signature over the prefixed hash of those words. */
  predicate SignedBySigner(ch: Chain, v: Storage, tag: Word, id: Uint256, figure: Uint256, deadline: Uint256,
                           sig: Signature) {
    && v.teeSigner != 0
    && sig == Ecdsa(v.teeSigner,
                    Keccak(Ascii("\U{19}Ethereum Signed Message:\n32")
                           + Keccak(Tuple(SignedWords(ch, v, tag, id, figure, deadline)))))
  }

  predicate Recovers(sig: Signature) { sig.Ecdsa? && sig.signer != 0 }

  /** The signature check passes exactly for that signature and names what is wrong with others. */
  lemma SignatureReason(ch: Chain, v: Storage, tag: Word, id: Uint256, figure: Uint256, deadline: Uint256,
                        sig: Signature)
    ensures var r := CheckSignature(v.teeSigner, AuthMessage(AuthorizationFor(ch, v, tag, id, figure, deadline)), sig);
            && (r.None? <==> SignedBySigner(ch, v, tag, id, figure, deadline, sig))
            && (r == Some(BadSignatureLength) <==> sig.WrongLength?)
            && (r == Some(InvalidSignature) <==> !sig.WrongLength? && !Recovers(sig))
            && (r == Some(BadTeeSignature)
                <==> Recovers(sig) && !SignedBySigner(ch, v, tag, id, figure, deadline, sig))
  {
    assert AuthWords(AuthorizationFor(ch, v, tag, id, figure, deadline))
           == SignedWords(ch, v, tag, id, figure, deadline);
  }

  // ---------------------------------------------------------------- fund

  /** A token other than the standard ones takes the money when it says so. */
  predicate TokenTakes(ch: Chain, l: Ledger, token: nat, from: nat, amount: nat, reply: Reply) {
    if token in ch.standard then l.Bal(token, from) >= amount && l.Allowed(token, from) >= amount else reply.success
  }

  lemma TokenInExactly(ch: Chain, now: nat, w: World, token: nat, from: nat, amount: nat, reply: Reply)
    requires SupplyFits(w.ledger)
    ensures TokenIn(ch, now, w, token, from, amount, reply).Some?
            <==> TokenTakes(ch, w.ledger, token, from, amount, reply)
  {
    if token in ch.standard && w.ledger.Allowed(token, from) >= amount {
      var left := w.ledger.Allowed(token, from) - amount;
      var spent := w.ledger.(allowances := w.ledger.allowances[(token, from) := left]);
      forall t: nat ensures spent.TotalSupply(t) < TWO256 {
        assert spent.TotalSupply(t) == w.ledger.TotalSupply(t);
      }
      forall t: nat, n: nat ensures Supply(spent, t, n) <= spent.TotalSupply(t) {
        SupplySame(w.ledger, spent, t, n);
        assert Supply(w.ledger, t, n) <= w.ledger.TotalSupply(t);
      }
      TransferSucceeds(spent, token, from, ch.vault, amount);
    }
  }

  /** fund completes if and only if the lock is free, the stream exists and is open, the amount is
      positive, the funding stays below 2^128 and the token takes the money.  Then the funding grows
      by exactly the amount, and no other stream changes. */
  lemma FundExactly(ch: Chain, base: Ledger, now: nat, w: World, c: Call)
    requires Orderly(ch, base, w) && Legit(ch, c) && c.Fund?
    ensures var x, o := w.vault.At(c.id), Exec(ch, now, w, c);
            && (o.Done? <==>
                  && w.vault.entered == 1 && c.id in w.vault.streams && !x.cancelled
                  && c.amount > 0 && x.funded + c.amount < 0x1_0000_0000_0000_0000_0000_0000_0000_0000
                  && TokenTakes(ch, w.ledger, x.token, c.sender, c.amount, c.reply))
            && (o.Done? ==>
                  && o.world.vault.At(c.id) == Stream(x.employer, x.recipient, x.token, x.commitment,
                                                      x.funded + c.amount, x.withdrawn, x.startTime, false)
                  && forall id | id in w.vault.streams && id != c.id :: o.world.vault.At(id) == w.vault.At(id))
  {
    OrderlyStream(ch, base, w, c.id);
    if w.vault.entered == 1 {
      OrderlyFree(ch, base, w);
      var x := w.vault.At(c.id);
      TokenInExactly(ch, now, w, x.token, c.sender, c.amount, c.reply);
      FundPasses(ch, now, w, c);
      if Exec(ch, now, w, c).Done? {
        forall id | id in w.vault.streams
          ensures id == c.id || Exec(ch, now, w, c).world.vault.At(id) == w.vault.At(id)
        {
          OuterCallDecides(ch, base, now, w, c, id);
        }
        GuardedCompletes(ch, base, now, w, c);
        OuterCallDecides(ch, base, now, w, c, c.id);
      }
    }
  }

  lemma FundPasses(ch: Chain, now: nat, w: World, c: Call)
    requires c.Fund? && SupplyFits(w.ledger)
    ensures Exec(ch, now, w, c).Done? <==>
            && FundChecks(w.vault, c.id, c.amount).None?
            && TokenTakes(ch, w.ledger, w.vault.At(c.id).token, c.sender, c.amount, c.reply)
  {
    if FundChecks(w.vault, c.id, c.amount).None? {
      var s := w.vault.At(c.id);
      TokenInExactly(ch, now, Entered(w, c.id, AfterFund(s, c.amount)), s.token, c.sender, c.amount, c.reply);
    }
  }

  /** With which reason fund reverts. */
  lemma FundReason(ch: Chain, now: nat, w: World, c: Call)
    requires c.Fund?
    ensures var x, o := w.vault.At(c.id), Exec(ch, now, w, c);
            var free := w.vault.entered == 1;
            var found := free && x.employer != 0;
            var open := found && !x.cancelled;
            var positive := open && c.amount > 0;
            && (o == Revert(Reentrancy) <==> !free)
            && (o == Revert(NoStream) <==> free && !found)
            && (o == Revert(StreamIsCancelled) <==> found && !open)
            && (o == Revert(ZeroAmount) <==> open && !positive)
            && (o == Revert(FundOverflow)
                <==> positive && x.funded + c.amount >= 0x1_0000_0000_0000_0000_0000_0000_0000_0000)
            && (o.Revert? ==> o.why in {Reentrancy, NoStream, StreamIsCancelled, ZeroAmount, FundOverflow,
                                     TransferFailed})
  {
  }

  // ---------------------------------------------------------------- withdraw

  /** withdraw completes if and only if the lock is free, the stream exists and is open, the deadline
      has not passed, the installed signer signed exactly this withdrawal, more than the receipts is
      both signed and funded, and the token, unless standard, reports success.  Then the receipts
      are min(figure, funded), and no other stream changes. */
  lemma WithdrawExactly(ch: Chain, base: Ledger, now: nat, w: World, c: Call)
    requires Orderly(ch, base, w) && Legit(ch, c) && c.Withdraw?
    ensures var x, o := w.vault.At(c.id), Exec(ch, now, w, c);
            && (o.Done? <==>
                  && w.vault.entered == 1 && c.id in w.vault.streams && !x.cancelled && now <= c.deadline
                  && SignedBySigner(ch, w.vault, Keccak(Ascii("SW_WITHDRAW_V1")), c.id, c.figure, c.deadline, c.sig)
                  && c.figure > x.withdrawn && x.funded > x.withdrawn
                  && (x.token in ch.standard || c.reply.success))
            && (o.Done? ==>
                  && o.world.vault.At(c.id) == Stream(x.employer, x.recipient, x.token, x.commitment, x.funded,
                                                      if c.figure < x.funded then c.figure else x.funded,
                                                      x.startTime, false)
                  && forall id | id in w.vault.streams && id != c.id :: o.world.vault.At(id) == w.vault.At(id))
  {
    OrderlyStream(ch, base, w, c.id);
    SignatureReason(ch, w.vault, WITHDRAW_TAG, c.id, c.figure, c.deadline, c.sig);
    if w.vault.entered == 1 {
      OrderlyFree(ch, base, w);
      WithdrawPasses(ch, base, now, w, c);
      if Exec(ch, now, w, c).Done? {
        forall id | id in w.vault.streams
          ensures id == c.id || Exec(ch, now, w, c).world.vault.At(id) == w.vault.At(id)
        {
          OuterCallDecides(ch, base, now, w, c, id);
        }
        OuterCallDecides(ch, base, now, w, c, c.id);
      }
    }
  }

  lemma WithdrawPasses(ch: Chain, base: Ledger, now: nat, w: World, c: Call)
    requires WorldOk(ch, base, w) && c.Withdraw?
    ensures Exec(ch, now, w, c).Done? <==>
            && WithdrawChecks(ch, now, w.vault, c.id, c.figure, c.deadline, c.sig).None?
            && (w.vault.At(c.id).token in ch.standard || c.reply.success)
  {
    var x := w.vault.At(c.id);
    if x.token in ch.standard {
      WithdrawalPays(ch, base, now, w, c);
    } else if WithdrawChecks(ch, now, w.vault, c.id, c.figure, c.deadline, c.sig).None? {
      var w0 := Entered(w, c.id, AfterWithdraw(x, c.figure));
      ForeignTransfer(ch, now, w0, x.token, x.recipient, Min(c.figure, x.funded) - x.withdrawn, c.reply);
    }
  }

  lemma WithdrawReason(ch: Chain, now: nat, w: World, c: Call)
    requires c.Withdraw?
    ensures var x, o := w.vault.At(c.id), Exec(ch, now, w, c);
            var free := w.vault.entered == 1;
            var found := free && x.employer != 0;
            var open := found && !x.cancelled;
            var inTime := open && now <= c.deadline;
            var tag := Keccak(Ascii("SW_WITHDRAW_V1"));
            var signed := inTime && SignedBySigner(ch, w.vault, tag, c.id, c.figure, c.deadline, c.sig);
            && (o == Revert(Reentrancy) <==> !free)
            && (o == Revert(NoStream) <==> free && !found)
            && (o == Revert(StreamIsCancelled) <==> found && !open)
            && (o == Revert(Expired) <==> open && !inTime)
            && (o == Revert(BadSignatureLength) <==> inTime && c.sig.WrongLength?)
            && (o == Revert(InvalidSignature) <==> inTime && !c.sig.WrongLength? && !Recovers(c.sig))
            && (o == Revert(BadTeeSignature) <==> inTime && Recovers(c.sig) && !signed)
            && (o == Revert(NothingAccrued) <==> signed && (c.figure <= x.withdrawn || x.funded <= x.withdrawn))
  {
    SignatureReason(ch, w.vault, WITHDRAW_TAG, c.id, c.figure, c.deadline, c.sig);
  }

  // ---------------------------------------------------------------- cancelStream

  /** What the recipient has received once the stream is settled at this figure. */
  function SettledReceipts(x: Stream, figure: nat): nat {
    if figure <= x.withdrawn || x.funded <= x.withdrawn then x.withdrawn
    else if figure < x.funded then figure
    else x.funded
  }

  /** cancelStream completes if and only if the lock is free, the sender is the stream's stored
      employer, the stream exists and is open, the deadline has not passed, the installed signer
      signed exactly this settlement, and the token, unless standard, reports success for each of the
      transfers there is something to make.  Then the stream is cancelled with the receipts the
      figure gives, and no other stream changes. */
  lemma CancelExactly(ch: Chain, base: Ledger, now: nat, w: World, c: Call)
    requires Orderly(ch, base, w) && Legit(ch, c) && c.CancelStream?
    ensures var x, o := w.vault.At(c.id), Exec(ch, now, w, c);
            var received := SettledReceipts(x, c.figure);
            && (o.Done? <==>
                  && w.vault.entered == 1 && c.id in w.vault.streams && c.sender == x.employer && !x.cancelled
                  && now <= c.deadline
                  && SignedBySigner(ch, w.vault, Keccak(Ascii("SW_SETTLE_V1")), c.id, c.figure, c.deadline, c.sig)
                  && (x.token in ch.standard
                      || ((received > x.withdrawn ==> c.payReply.success)
                          && (x.funded > received ==> c.refundReply.success))))
            && (o.Done? ==>
                  && o.world.vault.At(c.id) == Stream(x.employer, x.recipient, x.token, x.commitment, x.funded,
                                                      received, x.startTime, true)
                  && forall id | id in w.vault.streams && id != c.id :: o.world.vault.At(id) == w.vault.At(id))
  {
    OrderlyStream(ch, base, w, c.id);
    SignatureReason(ch, w.vault, SETTLE_TAG, c.id, c.figure, c.deadline, c.sig);
    if w.vault.entered == 1 {
      OrderlyFree(ch, base, w);
      CancelPasses(ch, base, now, w, c);
      if Exec(ch, now, w, c).Done? {
        forall id | id in w.vault.streams
          ensures id == c.id || Exec(ch, now, w, c).world.vault.At(id) == w.vault.At(id)
        {
          OuterCallDecides(ch, base, now, w, c, id);
        }
        OuterCallDecides(ch, base, now, w, c, c.id);
      }
    }
  }

  lemma ForeignLegs(ch: Chain, now: nat, w: World, id: nat, owed: nat, refund: nat, payReply: Reply, refundReply: Reply)
    requires Stable(w) && w.vault.entered == 2 && id in w.vault.streams && AllLegit(ch, payReply.callbacks)
    requires w.vault.At(id).token !in ch.standard
    ensures var r := PayLeg(ch, now, w, id, owed, payReply);
            && (r.Some? <==> owed > 0 ==> payReply.success)
            && (r.Some? ==> (RefundLeg(ch, now, r.value, id, refund, refundReply).Some?
                             <==> refund > 0 ==> refundReply.success))
  {
    CallbacksShift(ch, now, w, payReply.callbacks, 0);
  }

  lemma CancelPasses(ch: Chain, base: Ledger, now: nat, w: World, c: Call)
    requires WorldOk(ch, base, w) && Legit(ch, c) && c.CancelStream?
    ensures var x := w.vault.At(c.id);
            Exec(ch, now, w, c).Done? <==>
            && CancelChecks(ch, now, w.vault, c.sender, c.id, c.figure, c.deadline, c.sig).None?
            && (x.token in ch.standard
                || ((OwedOnCancel(x, c.figure) > 0 ==> c.payReply.success)
                    && (RefundOnCancel(x, c.figure) > 0 ==> c.refundReply.success)))
  {
    var x := w.vault.At(c.id);
    SettlementSplits(ch, base, w, c.id, c.figure);
    if x.token in ch.standard {
      SettlementPays(ch, base, now, w, c);
    } else if CancelChecks(ch, now, w.vault, c.sender, c.id, c.figure, c.deadline, c.sig).None? {
      assert c.id in w.vault.streams by {
        assert c.sender != 0;
      }
      var w0 := Entered(w, c.id, AfterCancel(x, c.figure));
      ForeignLegs(ch, now, w0, c.id, OwedOnCancel(x, c.figure), RefundOnCancel(x, c.figure), c.payReply, c.refundReply);
    }
  }

  lemma CancelReason(ch: Chain, now: nat, w: World, c: Call)
    requires c.CancelStream?
    ensures var x, o := w.vault.At(c.id), Exec(ch, now, w, c);
            var free := w.vault.entered == 1;
            var theirs := free && c.sender == x.employer;
            var open := theirs && !x.cancelled;
            var inTime := open && now <= c.deadline;
            && (o == Revert(Reentrancy) <==> !free)
            && (o == Revert(NotEmployer) <==> free && !theirs)
            && (o == Revert(StreamIsCancelled) <==> theirs && !open)
            && (o == Revert(Expired) <==> open && !inTime)
            && (o == Revert(BadSignatureLength) <==> inTime && c.sig.WrongLength?)
            && (o == Revert(InvalidSignature) <==> inTime && !c.sig.WrongLength? && !Recovers(c.sig))
            && (o == Revert(BadTeeSignature)
                <==> inTime && Recovers(c.sig)
                     && !SignedBySigner(ch, w.vault, Keccak(Ascii("SW_SETTLE_V1")), c.id, c.figure, c.deadline, c.sig))
  {
    SignatureReason(ch, w.vault, SETTLE_TAG, c.id, c.figure, c.deadline, c.sig);
  }

  // ---------------------------------------------------------------- unguarded calls

  /** createStream completes if and only if recipient, token and commitment are not zero and an id is
      left; it needs no lock, stores exactly what it was given under the next id and moves nothing. */
  lemma CreateExactly(ch: Chain, now: nat, w: World, c: Call)
    requires c.CreateStream?
    ensures var o, v := Exec(ch, now, w, c), w.vault;
            && (o.Done? <==> c.recipient != 0 && c.token != 0 && c.commitment != ZeroWord()
                             && v.nextStreamId + 1 < TWO256)
            && (o == Revert(ZeroRecipient) <==> c.recipient == 0)
            && (o == Revert(ZeroToken) <==> c.recipient != 0 && c.token == 0)
            && (o == Revert(ZeroCommitment) <==> c.recipient != 0 && c.token != 0 && c.commitment == ZeroWord())
            && (o.Done? ==>
                  var x := Stream(c.sender, c.recipient, c.token, c.commitment, 0, 0, c.startTime, false);
                  o.world == World(Storage(v.owner, v.teeSigner, v.nextStreamId + 1, v.streams[v.nextStreamId := x],
                                           v.entered), w.ledger, w.trail))
  {
  }

  /** setTeeSigner completes if and only if the owner sends it with a signer that is not zero, and
      then that signer, and nothing else, is installed. */
  lemma RotateExactly(ch: Chain, now: nat, w: World, c: Call)
    requires c.SetTeeSigner?
    ensures var o, v := Exec(ch, now, w, c), w.vault;
            && (o.Done? <==> c.sender == v.owner && c.signer != 0)
            && (o == Revert(NotOwner) <==> c.sender != v.owner)
            && (o == Revert(ZeroSigner) <==> c.sender == v.owner && c.signer == 0)
            && (o.Done? ==>
                  o.world == World(Storage(v.owner, c.signer, v.nextStreamId, v.streams, v.entered), w.ledger, w.trail))
  {
  }

  /** revealTerms completes if and only if the stream exists and the blob hashes to its commitment; it
      publishes exactly that blob and changes nothing else. */
  lemma RevealExactly(ch: Chain, now: nat, w: World, c: Call)
    requires c.RevealTerms?
    ensures var x, o := w.vault.At(c.id), Exec(ch, now, w, c);
            && (o.Done? <==> x.employer != 0 && Keccak(Lift(c.blob)) == x.commitment)
            && (o == Revert(NoStream) <==> x.employer == 0)
            && (o == Revert(TermsMismatch) <==> x.employer != 0 && Keccak(Lift(c.blob)) != x.commitment)
            && (o.Done? ==> o.world == World(w.vault, w.ledger, w.trail + [Revealed(c.id, c.blob)]))
  {
  }

  // ---------------------------------------------------------------- tokens

  /** Approving sets the allowance given to the vault, and fund spends exactly what it takes of it. */
  lemma AllowanceExactly(ch: Chain, now: nat, w: World, c: Call, token: nat, who: nat)
    requires c.Approve?
    ensures var o := Exec(ch, now, w, c);
            && o.Done? && o.world.vault == w.vault && o.world.trail == w.trail
            && o.world.ledger.balances == w.ledger.balances && o.world.ledger.supplies == w.ledger.supplies
            && o.world.ledger.Allowed(token, who)
               == if token == c.token && who == c.sender then c.value else w.ledger.Allowed(token, who)
  {
  }

  lemma AllowanceSpent(l: Ledger, asset: nat, from: nat, to: nat, amount: nat, token: nat, who: nat)
    ensures var r := TransferFrom(l, asset, from, to, amount);
            r.Some? ==>
              r.value.Allowed(token, who) == l.Allowed(token, who) - if token == asset && who == from then amount else 0
  {
  }

  lemma FundSpendsAllowance(ch: Chain, now: nat, w: World, c: Call, token: nat, who: nat)
    requires c.Fund? && Exec(ch, now, w, c).Done? && w.vault.At(c.id).token in ch.standard
    ensures Exec(ch, now, w, c).world.ledger.Allowed(token, who)
            == w.ledger.Allowed(token, who)
               - if token == w.vault.At(c.id).token && who == c.sender then c.amount else 0
  {
    var x := w.vault.At(c.id);
    AllowanceSpent(w.ledger, x.token, c.sender, ch.vault, c.amount, token, who);
    var w0 := Entered(w, c.id, AfterFund(x, c.amount));
    var taken := TokenIn(ch, now, w0, x.token, c.sender, c.amount, c.reply);
    assert Exec(ch, now, w, c) == Done(Left(Record(taken.value, Deposited(c.id, c.amount))));
    assert taken.value.ledger == TransferFrom(w.ledger, x.token, c.sender, ch.vault, c.amount).value;
  }

  /** Outside transfers and mints of standard tokens: when they go through, and what they move. */
  lemma OutsideTransfer(ch: Chain, now: nat, w: World, c: Call)
    requires c.TokenMove? && SupplyFits(w.ledger)
    ensures var o := Exec(ch, now, w, c);
            && (o.Done? <==> c.token in ch.standard && w.ledger.Bal(c.token, c.sender) >= c.value)
            && (o.Done? ==>
                  o.world.vault == w.vault && Moved(w.ledger, o.world.ledger, c.token, c.sender, c.to, c.value))
  {
    TransferSucceeds(w.ledger, c.token, c.sender, c.to, c.value);
    TransferMoves(w.ledger, c.token, c.sender, c.to, c.value);
  }

  lemma OutsideMint(ch: Chain, now: nat, w: World, c: Call, token: nat, who: nat)
    requires c.TokenMint?
    ensures var o := Exec(ch, now, w, c);
            && (o.Done? <==> c.token in ch.standard && w.ledger.TotalSupply(c.token) + c.value < TWO256)
            && (o.Done? ==>
                  && o.world.vault == w.vault
                  && o.world.ledger.TotalSupply(token)
                     == w.ledger.TotalSupply(token) + (if token == c.token then c.value else 0)
                  && o.world.ledger.Bal(token, who)
                     == w.ledger.Bal(token, who) + (if token == c.token && who == c.to then c.value else 0))
  {
  }

  /** A token that is not standard runs its callbacks, and answering false makes the vault's transfer
      fail; a false answer therefore reverts fund, withdraw and either leg of a settlement. */
  lemma FalseReverts(ch: Chain, base: Ledger, now: nat, w: World, c: Call)
    requires Orderly(ch, base, w) && Legit(ch, c) && Guarded(c) && w.vault.At(c.id).token !in ch.standard
    requires || (c.Fund? && !c.reply.success) || (c.Withdraw? && !c.reply.success)
             || (c.CancelStream? && SettledReceipts(w.vault.At(c.id), c.figure) > w.vault.At(c.id).withdrawn
                 && !c.payReply.success)
             || (c.CancelStream? && w.vault.At(c.id).funded > SettledReceipts(w.vault.At(c.id), c.figure)
                 && !c.refundReply.success)
    ensures Exec(ch, now, w, c).Revert?
  {
    if c.Fund? {
      FundExactly(ch, base, now, w, c);
    } else if c.Withdraw? {
      WithdrawExactly(ch, base, now, w, c);
    } else {
      CancelExactly(ch, base, now, w, c);
    }
  }

  /** Callbacks are full calls of their own, one after the other, each reverted one leaving no
      trace. */
  lemma {:induction false} CallbacksInOrder(ch: Chain, now: nat, w: World, cs: seq<Call>, last: Call)
    ensures ExecAll(ch, now, w, []) == w
    ensures var mid := ExecAll(ch, now, w, cs);
            ExecAll(ch, now, w, cs + [last])
            == match Exec(ch, now, mid, last) case Done(x) => x case Revert(_) => mid
    decreases |cs|
  {
    if cs == [] {
      assert [last][1..] == [] && cs + [last] == [last];
      assert ExecAll(ch, now, w, [last])
             == ExecAll(ch, now, match Exec(ch, now, w, last) case Done(x) => x case Revert(_) => w, []);
    } else {
      assert (cs + [last])[1..] == cs[1..] + [last];
      CallbacksInOrder(ch, now, Settle(w, Exec(ch, now, w, cs[0])), cs[1..], last);
    }
  }

  /** What the vault's transfer through a foreign token does: its callbacks, then its answer. */
  lemma ForeignTransfer(ch: Chain, now: nat, w: World, token: nat, other: nat, amount: nat, reply: Reply)
    requires token !in ch.standard
    ensures TokenOut(ch, now, w, token, other, amount, reply)
            == if reply.success then Some(ExecAll(ch, now, w, reply.callbacks)) else None
    ensures TokenIn(ch, now, w, token, other, amount, reply)
            == if reply.success then Some(ExecAll(ch, now, w, reply.callbacks)) else None
  {
  }
}
