/** contracts/StreamVault.sol as a contract object: the methods below change storage in the
order the source does, and each is proved equal to the step function Vault.Exec. */
module StreamVaultContract {
  import opened Options
  import opened Abi
  import opened Protocol
  import opened Tokens
  import opened Vault
  import opened Books
  import opened Guarantees

  class StreamVault {
    const chain: Chain

    // The contract's storage.
    var owner: Address
    var teeSigner: Address
    var nextStreamId: Uint256
    var streams: map<nat, Stream>
    var entered: nat

    // Outside storage a transaction also rolls back: token balances and the event log.
    var ledger: Ledger
    var log: seq<Event>

    function World(): World
      reads this
    {
      Vault.World(Storage(owner, teeSigner, nextStreamId, streams, entered), ledger, log)
    }

    constructor (chain: Chain, sender: Address, teeSigner: Address, ledger: Ledger)
      ensures this.chain == chain
      ensures World() == Vault.World(Storage(sender, teeSigner, 1, map[], 1), ledger, [])
    {
      this.chain := chain;
      owner := sender;
      this.teeSigner := teeSigner;
      nextStreamId := 1;
      streams := map[];
      entered := 1;
      this.ledger := ledger;
      log := [];
    }

    /** The result of a call: None when it completed, otherwise why it reverted. */
    ghost predicate Agrees(before: World, expected: Outcome, r: Option<Reason>)
      reads this
    {
      && World() == Settle(before, expected)
      && (r.None? <==> expected.Done?)
      && (r.Some? ==> expected == Revert(r.value))
    }

    function Read(id: nat): Stream
      reads this
    {
      if id in streams then streams[id] else AbsentStream()
    }

    method Rollback(before: World)
      modifies this
      ensures World() == before
    {
      owner := before.vault.owner;
      teeSigner := before.vault.teeSigner;
      nextStreamId := before.vault.nextStreamId;
      streams := before.vault.streams;
      entered := before.vault.entered;
      ledger := before.ledger;
      log := before.trail;
    }

    method SetTeeSigner(now: nat, sender: Address, signer: Address) returns (r: Option<Reason>)
      modifies this
      ensures Agrees(old(World()), Exec(chain, now, old(World()), Call.SetTeeSigner(sender, signer)), r)
    {
      if sender != owner { return Some(NotOwner); }
      if signer == 0 { return Some(ZeroSigner); }
      teeSigner := signer;
      return None;
    }

    method CreateStream(now: nat, sender: Address, recipient: Address, token: Address, commitment: Word,
                        startTime: Uint64)
      returns (r: Option<Reason>, streamId: nat)
      modifies this
      ensures Agrees(old(World()),
                     Exec(chain, now, old(World()),
                          Call.CreateStream(sender, recipient, token, commitment, startTime)), r)
      ensures r.None? ==> streamId == old(nextStreamId)
    {
      streamId := 0;
      if recipient == 0 { return Some(ZeroRecipient), 0; }
      if token == 0 { return Some(ZeroToken), 0; }
      if commitment == ZeroWord() { return Some(ZeroCommitment), 0; }
      streamId := nextStreamId;
      if nextStreamId + 1 >= TWO256 { return Some(IdsExhausted), 0; }
      nextStreamId := nextStreamId + 1;
      streams := streams[streamId := Stream(sender, recipient, token, commitment, 0, 0, startTime, false)];
      r := None;
    }

    method Fund(now: nat, sender: Address, id: Uint256, amount: Uint128, reply: Reply) returns (r: Option<Reason>)
      modifies this
      ensures Agrees(old(World()), Exec(chain, now, old(World()), Call.Fund(sender, id, amount, reply)), r)
      decreases Call.Fund(sender, id, amount, reply), 0
    {
      var before := World();
      if entered != 1 { return Some(Reentrancy); }
      entered := 2;
      var s := Read(id);
      var why: Option<Reason> := None;
      if s.employer == 0 { why := Some(NoStream); }
      else if s.cancelled { why := Some(StreamIsCancelled); }
      else if amount == 0 { why := Some(ZeroAmount); }
      else if s.funded + amount >= TWO128 { why := Some(FundOverflow); }
      else {
        streams := streams[id := s.(funded := s.funded + amount)];
        assert World() == Entered(before, id, AfterFund(s, amount));
        var ok := CallTransferFrom(now, s.token, sender, amount, reply);
        if !ok { why := Some(TransferFailed); }
      }
      if why.Some? {
        Rollback(before);
        return why;
      }
      log := log + [Deposited(id, amount)];
      entered := 1;
      return None;
    }

    method Withdraw(now: nat, sender: Address, id: Uint256, figure: Uint256, deadline: Uint256, sig: Signature,
                    reply: Reply)
      returns (r: Option<Reason>)
      modifies this
      ensures Agrees(old(World()),
                     Exec(chain, now, old(World()), Call.Withdraw(sender, id, figure, deadline, sig, reply)), r)
      decreases Call.Withdraw(sender, id, figure, deadline, sig, reply), 0
    {
      var before := World();
      if entered != 1 { return Some(Reentrancy); }
      entered := 2;
      var s := Read(id);
      var why: Option<Reason> := None;
      if s.employer == 0 { why := Some(NoStream); }
      else if s.cancelled { why := Some(StreamIsCancelled); }
      else if now > deadline { why := Some(Expired); }
      else {
        var auth := Authorization(WITHDRAW_TAG, chain.chainId, chain.vault, id, s.commitment, figure, deadline);
        why := CheckSignature(teeSigner, AuthMessage(auth), sig);
        if why.None? {
          var cap := if figure < s.funded then figure else s.funded;
          if cap <= s.withdrawn { why := Some(NothingAccrued); }
          else {
            var payout := cap - s.withdrawn;
            streams := streams[id := s.(withdrawn := cap)];
            assert World() == Entered(before, id, AfterWithdraw(s, figure));
            var ok := CallTransfer(now, s.token, s.recipient, payout, reply);
            if !ok { why := Some(TransferFailed); }
            else { log := log + [Paid(id, s.token, payout, s.recipient == chain.vault)]; }
          }
        }
      }
      if why.Some? {
        Rollback(before);
        return why;
      }
      entered := 1;
      return None;
    }

    method CancelStream(now: nat, sender: Address, id: Uint256, figure: Uint256, deadline: Uint256, sig: Signature,
                        payReply: Reply, refundReply: Reply)
      returns (r: Option<Reason>)
      modifies this
      ensures Agrees(old(World()),
                     Exec(chain, now, old(World()),
                          Call.CancelStream(sender, id, figure, deadline, sig, payReply, refundReply)), r)
      decreases Call.CancelStream(sender, id, figure, deadline, sig, payReply, refundReply), 1
    {
      var before := World();
      if entered != 1 { return Some(Reentrancy); }
      entered := 2;
      var why := RefuseSettlement(now, sender, id, figure, deadline, sig);
      if why.Some? { Rollback(before); return why; }

      var s := Read(id);
      var owed := if figure < s.funded then figure else s.funded;
      var toRecipient := if owed > s.withdrawn then owed - s.withdrawn else 0;
      var refund := s.funded - s.withdrawn - toRecipient;
      if refund < 0 { Rollback(before); return Some(Underflow); }
      streams := streams[id := s.(cancelled := true, withdrawn := if owed > s.withdrawn then owed else s.withdrawn)];
      assert World() == Entered(before, id, AfterCancel(s, figure));

      ghost var call := Call.CancelStream(sender, id, figure, deadline, sig, payReply, refundReply);
      why := PayBoth(now, id, toRecipient, refund, payReply, refundReply, call);
      if why.Some? { Rollback(before); return why; }
      entered := 1;
      return None;
    }

    /** The checks a settlement makes once it holds the lock. */
    method RefuseSettlement(now: nat, sender: Address, id: Uint256, figure: Uint256, deadline: Uint256, sig: Signature)
      returns (why: Option<Reason>)
      ensures why == CancelChecks(chain, now, World().vault.(entered := 1), sender, id, figure, deadline, sig)
    {
      var s := Read(id);
      if sender != s.employer { return Some(NotEmployer); }
      if s.cancelled { return Some(StreamIsCancelled); }
      if now > deadline { return Some(Expired); }
      var auth := Authorization(SETTLE_TAG, chain.chainId, chain.vault, id, s.commitment, figure, deadline);
      why := CheckSignature(teeSigner, AuthMessage(auth), sig);
    }

    /** Both transfers of a settlement. */
    method PayBoth(now: nat, id: nat, owed: nat, refund: nat, payReply: Reply, refundReply: Reply, ghost c: Call)
      returns (why: Option<Reason>)
      requires c.CancelStream? && c.payReply == payReply && c.refundReply == refundReply
      modifies this
      ensures match PayLeg(chain, now, old(World()), id, owed, payReply)
              case None => why == Some(TransferFailed)
              case Some(mid) =>
                match RefundLeg(chain, now, mid, id, refund, refundReply)
                case None => why == Some(RefundFailed)
                case Some(final) => why.None? && World() == final
      decreases c, 0
    {
      var paid := PayRecipient(now, id, owed, payReply);
      if !paid { return Some(TransferFailed); }
      var refunded := RefundEmployer(now, id, refund, refundReply);
      return if refunded then None else Some(RefundFailed);
    }

    /** The first transfer of a settlement, made only when something is owed. */
    method PayRecipient(now: nat, id: nat, amount: nat, reply: Reply) returns (ok: bool)
      modifies this
      ensures var expected := PayLeg(chain, now, old(World()), id, amount, reply);
              ok == expected.Some? && (ok ==> World() == expected.value)
      decreases reply, 1
    {
      if amount == 0 { return true; }
      var s := Read(id);
      ok := CallTransfer(now, s.token, s.recipient, amount, reply);
      if ok { log := log + [Paid(id, s.token, amount, s.recipient == chain.vault)]; }
    }

    /** The second transfer, to the employer read from storage after the first. */
    method RefundEmployer(now: nat, id: nat, amount: nat, reply: Reply) returns (ok: bool)
      modifies this
      ensures var expected := RefundLeg(chain, now, old(World()), id, amount, reply);
              ok == expected.Some? && (ok ==> World() == expected.value)
      decreases reply, 1
    {
      if amount == 0 { return true; }
      var s := Read(id);
      ok := CallTransfer(now, s.token, s.employer, amount, reply);
      if ok { log := log + [Refunded(id, amount)]; }
    }

    method RevealTerms(now: nat, sender: Address, id: Uint256, blob: seq<Octet>) returns (r: Option<Reason>)
      modifies this
      ensures Agrees(old(World()), Exec(chain, now, old(World()), Call.RevealTerms(sender, id, blob)), r)
    {
      var s := Read(id);
      if s.employer == 0 { return Some(NoStream); }
      if CommitTo(blob) != s.commitment { return Some(TermsMismatch); }
      log := log + [Revealed(id, blob)];
      return None;
    }

    // -------------------------------------------------------------- the outside world

    /** IERC20(token).transfer(to, amount) */
    method CallTransfer(now: nat, token: Address, to: Address, amount: nat, reply: Reply) returns (ok: bool)
      modifies this
      ensures var expected := TokenOut(chain, now, old(World()), token, to, amount, reply);
              ok == expected.Some? && (ok ==> World() == expected.value)
      decreases reply, 0
    {
      if token in chain.standard {
        match Transfer(ledger, token, chain.vault, to, amount)
        case None => return false;
        case Some(l) => ledger := l; return true;
      }
      RunCallbacks(now, reply.callbacks);
      return reply.success;
    }

    /** IERC20(token).transferFrom(from, address(this), amount) */
    method CallTransferFrom(now: nat, token: Address, from: Address, amount: nat, reply: Reply) returns (ok: bool)
      modifies this
      ensures var expected := TokenIn(chain, now, old(World()), token, from, amount, reply);
              ok == expected.Some? && (ok ==> World() == expected.value)
      decreases reply, 0
    {
      if token in chain.standard {
        match TransferFrom(ledger, token, from, chain.vault, amount)
        case None => return false;
        case Some(l) => ledger := l; return true;
      }
      RunCallbacks(now, reply.callbacks);
      return reply.success;
    }

    method RunCallbacks(now: nat, cs: seq<Call>)
      modifies this
      ensures World() == ExecAll(chain, now, old(World()), cs)
      decreases cs, 0
    {
      var i := 0;
      while i < |cs|
        invariant 0 <= i <= |cs|
        invariant ExecAll(chain, now, old(World()), cs) == ExecAll(chain, now, World(), cs[i..])
      {
        var r := Dispatch(now, cs[i]);
        assert cs[i..][1..] == cs[i + 1..];
        i := i + 1;
      }
    }

    method Dispatch(now: nat, c: Call) returns (r: Option<Reason>)
      modifies this
      ensures Agrees(old(World()), Exec(chain, now, old(World()), c), r)
      decreases c, 2
    {
      match c
      case CreateStream(sender, recipient, token, commitment, startTime) =>
        var id;
        r, id := CreateStream(now, sender, recipient, token, commitment, startTime);
      case Fund(sender, id, amount, reply) => r := Fund(now, sender, id, amount, reply);
      case Withdraw(sender, id, figure, deadline, sig, reply) =>
        r := Withdraw(now, sender, id, figure, deadline, sig, reply);
      case CancelStream(sender, id, figure, deadline, sig, payReply, refundReply) =>
        r := CancelStream(now, sender, id, figure, deadline, sig, payReply, refundReply);
      case RevealTerms(sender, id, blob) => r := RevealTerms(now, sender, id, blob);
      case SetTeeSigner(sender, signer) => r := SetTeeSigner(now, sender, signer);
      case Approve(sender, token, value) =>
        ledger := ledger.(allowances := ledger.allowances[(token, sender) := value]);
        r := None;
      case TokenMove(sender, token, to, value) =>
        r := MoveOrMint(Transfer(ledger, token, sender, to, value), token, to, value);
      case TokenMint(token, to, value) => r := MoveOrMint(Mint(ledger, token, to, value), token, to, value);
    }

    /** A transaction: a top-level call of an outside account keeps every account invariant. */
    method Transact(now: nat, c: Call, ghost base: Ledger) returns (r: Option<Reason>)
      requires WorldOk(chain, base, World()) && Legit(chain, c)
      modifies this
      ensures WorldOk(chain, base, World())
      ensures Agrees(old(World()), Exec(chain, now, old(World()), c), r)
    {
      EveryCallKeepsWorld(chain, base, now, World(), c);
      r := Dispatch(now, c);
    }

    /** A third party's step on a standard token; gifts to the vault are logged. */
    method MoveOrMint(l: Option<Ledger>, token: Address, to: Address, value: nat) returns (r: Option<Reason>)
      modifies this
      ensures var before := old(World());
              Agrees(before,
                     if token !in chain.standard || l.None? then Revert(TokenRefused)
                     else Done(GiftTo(chain, before.(ledger := l.value), token, to, value)), r)
    {
      if token !in chain.standard || l.None? { return Some(TokenRefused); }
      ledger := l.value;
      if to == chain.vault { log := log + [Donated(token, value)]; }
      return None;
    }
  }
}
