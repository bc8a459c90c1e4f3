/** contracts/StreamVault.sol as a step function on values, with its token ledger and the
outside world's callbacks.  Class StreamVault is proved equal to it in StreamVault.dfy. */
module Vault {
  import opened Options
  import opened Abi
  import opened Protocol
  import opened Tokens

  datatype Stream = Stream(
    employer: Address,
    recipient: Address,
    token: Address,
    commitment: Word,
    funded: Uint128,
    withdrawn: Uint128,
    startTime: Uint64,
    cancelled: bool)

  /** What reading an absent mapping entry gives. */
  function AbsentStream(): Stream { Stream(0, 0, 0, ZeroWord(), 0, 0, 0, false) }

  datatype Storage = Storage(
    owner: Address,
    teeSigner: Address,
    nextStreamId: Uint256,
    streams: map<nat, Stream>,
    entered: nat)
  {
    function At(id: nat): Stream {
      if id in streams then streams[id] else AbsentStream()
    }
  }

  /** History: money the vault moved or was given, and the terms it emitted. */
  datatype Event =
    | Deposited(id: nat, amount: nat)
    | Paid(id: nat, token: nat, amount: nat, toVault: bool)
    | Refunded(id: nat, amount: nat)
    | Donated(token: nat, amount: nat)
    | Revealed(id: nat, blob: seq<Octet>)

  datatype World = World(vault: Storage, ledger: Ledger, trail: seq<Event>)

  /** The fixed surroundings.  Tokens outside `standard` answer and call back as they like. */
  datatype Chain = Chain(chainId: Uint256, vault: Address, standard: set<nat>)

  /** ECDSA: a signature recovers its signer over the message it was made for, and somebody
      unrelated over any other. */
  datatype Signature =
    | Ecdsa(signer: Address, message: Word)
    | WrongLength
    | Unrecoverable

  datatype Call =
    | CreateStream(sender: Address, recipient: Address, token: Address, commitment: Word, startTime: Uint64)
    | Fund(sender: Address, id: Uint256, amount: Uint128, reply: Reply)
    | Withdraw(sender: Address, id: Uint256, figure: Uint256, deadline: Uint256, sig: Signature, reply: Reply)
    | CancelStream(sender: Address, id: Uint256, figure: Uint256, deadline: Uint256, sig: Signature,
                   payReply: Reply, refundReply: Reply)
    | RevealTerms(sender: Address, id: Uint256, blob: seq<Octet>)
    | SetTeeSigner(sender: Address, signer: Address)
    | Approve(sender: Address, token: Address, value: Uint256)
    | TokenMove(sender: Address, token: Address, to: Address, value: Uint256)
    | TokenMint(token: Address, to: Address, value: Uint256)

  /** How a non-standard token answers one transfer: calls it makes first, then its result
      (false also stands for reverting). */
  datatype Reply = Reply(callbacks: seq<Call>, success: bool)

  datatype Reason =
    | Reentrancy | NoStream | StreamIsCancelled | ZeroAmount | FundOverflow | Expired
    | BadSignatureLength | InvalidSignature | BadTeeSignature | NothingAccrued | NotEmployer
    | TransferFailed | RefundFailed | NotOwner | ZeroSigner | ZeroRecipient | ZeroToken
    | ZeroCommitment | IdsExhausted | Underflow | TermsMismatch | TokenRefused

  datatype Outcome = Done(world: World) | Revert(why: Reason)

  // ---------------------------------------------------------------- checks

  function CheckSignature(teeSigner: Address, message: Word, sig: Signature): Option<Reason> {
    match sig
    case WrongLength => Some(BadSignatureLength)
    case Unrecoverable => Some(InvalidSignature)
    case Ecdsa(k, m) =>
      if k == 0 then Some(InvalidSignature)
      else if m == message && k == teeSigner then None
      else Some(BadTeeSignature)
  }

  function AuthorizationFor(ch: Chain, v: Storage, tag: Word, id: Uint256, figure: Uint256,
                            deadline: Uint256): Authorization {
    Authorization(tag, ch.chainId, ch.vault, id, v.At(id).commitment, figure, deadline)
  }

  function FundChecks(v: Storage, id: nat, amount: nat): Option<Reason> {
    var s := v.At(id);
    if v.entered != 1 then Some(Reentrancy)
    else if s.employer == 0 then Some(NoStream)
    else if s.cancelled then Some(StreamIsCancelled)
    else if amount == 0 then Some(ZeroAmount)
    else if s.funded + amount >= TWO128 then Some(FundOverflow)
    else None
  }

  /** Everything `withdraw` asks of an authorization except that something is left to pay. */
  function PresentChecks(ch: Chain, now: nat, v: Storage, id: Uint256, figure: Uint256,
                         deadline: Uint256, sig: Signature): Option<Reason> {
    var s := v.At(id);
    if v.entered != 1 then Some(Reentrancy)
    else if s.employer == 0 then Some(NoStream)
    else if s.cancelled then Some(StreamIsCancelled)
    else if now > deadline then Some(Expired)
    else CheckSignature(v.teeSigner, AuthMessage(AuthorizationFor(ch, v, WITHDRAW_TAG, id, figure, deadline)), sig)
  }

  function WithdrawChecks(ch: Chain, now: nat, v: Storage, id: Uint256, figure: Uint256,
                          deadline: Uint256, sig: Signature): Option<Reason> {
    match PresentChecks(ch, now, v, id, figure, deadline, sig)
    case Some(why) => Some(why)
    case None => if Min(figure, v.At(id).funded) > v.At(id).withdrawn then None else Some(NothingAccrued)
  }

  function CancelChecks(ch: Chain, now: nat, v: Storage, sender: Address, id: Uint256,
                        figure: Uint256, deadline: Uint256, sig: Signature): Option<Reason> {
    var s := v.At(id);
    if v.entered != 1 then Some(Reentrancy)
    else if sender != s.employer then Some(NotEmployer)
    else if s.cancelled then Some(StreamIsCancelled)
    else if now > deadline then Some(Expired)
    else CheckSignature(v.teeSigner, AuthMessage(AuthorizationFor(ch, v, SETTLE_TAG, id, figure, deadline)), sig)
  }

  // ---------------------------------------------------------------- storage effects

  /** A guarded call's storage just before its first token call: lock taken, stream updated. */
  function Entered(w: World, id: nat, s: Stream): World {
    w.(vault := w.vault.(entered := 2, streams := w.vault.streams[id := s]))
  }

  function Record(w: World, e: Event): World {
    w.(trail := w.trail + [e])
  }

  function Left(w: World): World {
    w.(vault := w.vault.(entered := 1))
  }

  function AfterFund(s: Stream, amount: nat): Stream
    requires s.funded + amount < TWO128
  {
    s.(funded := s.funded + amount)
  }

  function AfterWithdraw(s: Stream, figure: nat): Stream {
    s.(withdrawn := Min(figure, s.funded))
  }

  /** What a settlement owes the recipient now, given the signed figure. */
  function OwedOnCancel(s: Stream, figure: nat): nat {
    var owed := Min(figure, s.funded);
    if owed > s.withdrawn then owed - s.withdrawn else 0
  }

  /** The refund; an int, because only an invariant keeps the subtraction from underflowing. */
  function RefundOnCancel(s: Stream, figure: nat): int {
    s.funded - s.withdrawn - OwedOnCancel(s, figure)
  }

  function AfterCancel(s: Stream, figure: nat): Stream {
    var owed := Min(figure, s.funded);
    s.(cancelled := true, withdrawn := if owed > s.withdrawn then owed else s.withdrawn)
  }

  function Create(w: World, sender: Address, recipient: Address, token: Address,
                  commitment: Word, startTime: Uint64): Outcome {
    if recipient == 0 then Revert(ZeroRecipient)
    else if token == 0 then Revert(ZeroToken)
    else if commitment == ZeroWord() then Revert(ZeroCommitment)
    else if w.vault.nextStreamId + 1 >= TWO256 then Revert(IdsExhausted)
    else
      var id := w.vault.nextStreamId;
      var s := Stream(sender, recipient, token, commitment, 0, 0, startTime, false);
      Done(w.(vault := w.vault.(nextStreamId := id + 1, streams := w.vault.streams[id := s])))
  }

  function Reveal(w: World, id: nat, blob: seq<Octet>): Outcome {
    var s := w.vault.At(id);
    if s.employer == 0 then Revert(NoStream)
    else if CommitTo(blob) != s.commitment then Revert(TermsMismatch)
    else Done(Record(w, Revealed(id, blob)))
  }

  function Rotate(w: World, sender: Address, signer: Address): Outcome {
    if sender != w.vault.owner then Revert(NotOwner)
    else if signer == 0 then Revert(ZeroSigner)
    else Done(w.(vault := w.vault.(teeSigner := signer)))
  }

  // ---------------------------------------------------------------- third-party token steps

  function GiftTo(ch: Chain, w: World, token: nat, to: nat, amount: nat): World {
    if to == ch.vault then Record(w, Donated(token, amount)) else w
  }

  function MoveTokens(ch: Chain, w: World, sender: nat, token: nat, to: nat, amount: nat): Outcome {
    if token !in ch.standard then Revert(TokenRefused)
    else
      match Transfer(w.ledger, token, sender, to, amount)
      case None => Revert(TokenRefused)
      case Some(l) => Done(GiftTo(ch, w.(ledger := l), token, to, amount))
  }

  function MintTokens(ch: Chain, w: World, token: nat, to: nat, amount: nat): Outcome {
    if token !in ch.standard then Revert(TokenRefused)
    else
      match Mint(w.ledger, token, to, amount)
      case None => Revert(TokenRefused)
      case Some(l) => Done(GiftTo(ch, w.(ledger := l), token, to, amount))
  }

  function ApproveVault(w: World, sender: nat, token: nat, amount: nat): World {
    w.(ledger := w.ledger.(allowances := w.ledger.allowances[(token, sender) := amount]))
  }

  // ---------------------------------------------------------------- execution

  /** token.transfer(to, amount) called by the vault. */
  function TokenOut(ch: Chain, now: nat, w: World, token: nat, to: nat, amount: nat, reply: Reply): Option<World>
    decreases reply, 0
  {
    if token in ch.standard then
      match Transfer(w.ledger, token, ch.vault, to, amount)
      case None => None
      case Some(l) => Some(w.(ledger := l))
    else
      var w' := ExecAll(ch, now, w, reply.callbacks);
      if reply.success then Some(w') else None
  }

  /** token.transferFrom(from, vault, amount) called by the vault. */
  function TokenIn(ch: Chain, now: nat, w: World, token: nat, from: nat, amount: nat, reply: Reply): Option<World>
    decreases reply, 0
  {
    if token in ch.standard then
      match TransferFrom(w.ledger, token, from, ch.vault, amount)
      case None => None
      case Some(l) => Some(w.(ledger := l))
    else
      var w' := ExecAll(ch, now, w, reply.callbacks);
      if reply.success then Some(w') else None
  }

  /** One call of the vault or of a standard token, callbacks included. */
  function Exec(ch: Chain, now: nat, w: World, c: Call): Outcome
    decreases c, 1
  {
    match c
    case CreateStream(sender, recipient, token, commitment, startTime) =>
      Create(w, sender, recipient, token, commitment, startTime)
    case Fund(_, _, _, _) => ExecFund(ch, now, w, c)
    case Withdraw(_, _, _, _, _, _) => ExecWithdraw(ch, now, w, c)
    case CancelStream(_, _, _, _, _, _, _) => ExecCancel(ch, now, w, c)
    case RevealTerms(_, id, blob) => Reveal(w, id, blob)
    case SetTeeSigner(sender, signer) => Rotate(w, sender, signer)
    case Approve(sender, token, amount) => Done(ApproveVault(w, sender, token, amount))
    case TokenMove(sender, token, to, amount) => MoveTokens(ch, w, sender, token, to, amount)
    case TokenMint(token, to, amount) => MintTokens(ch, w, token, to, amount)
  }

  function ExecFund(ch: Chain, now: nat, w: World, c: Call): Outcome
    requires c.Fund?
    decreases c, 0
  {
    match FundChecks(w.vault, c.id, c.amount)
    case Some(why) => Revert(why)
    case None =>
      var s := w.vault.At(c.id);
      match TokenIn(ch, now, Entered(w, c.id, AfterFund(s, c.amount)), s.token, c.sender, c.amount, c.reply)
      case None => Revert(TransferFailed)
      case Some(w') => Done(Left(Record(w', Deposited(c.id, c.amount))))
  }

  function ExecWithdraw(ch: Chain, now: nat, w: World, c: Call): Outcome
    requires c.Withdraw?
    decreases c, 0
  {
    match WithdrawChecks(ch, now, w.vault, c.id, c.figure, c.deadline, c.sig)
    case Some(why) => Revert(why)
    case None =>
      var s := w.vault.At(c.id);
      var payout := Min(c.figure, s.funded) - s.withdrawn;
      match TokenOut(ch, now, Entered(w, c.id, AfterWithdraw(s, c.figure)), s.token, s.recipient, payout, c.reply)
      case None => Revert(TransferFailed)
      case Some(w') => Done(Left(Record(w', Paid(c.id, s.token, payout, s.recipient == ch.vault))))
  }

  function ExecCancel(ch: Chain, now: nat, w: World, c: Call): Outcome
    requires c.CancelStream?
    decreases c, 0
  {
    match CancelChecks(ch, now, w.vault, c.sender, c.id, c.figure, c.deadline, c.sig)
    case Some(why) => Revert(why)
    case None =>
      var s := w.vault.At(c.id);
      var refund := RefundOnCancel(s, c.figure);
      if refund < 0 then Revert(Underflow)
      else
        match PayLeg(ch, now, Entered(w, c.id, AfterCancel(s, c.figure)), c.id, OwedOnCancel(s, c.figure), c.payReply)
        case None => Revert(TransferFailed)
        case Some(w1) =>
          match RefundLeg(ch, now, w1, c.id, refund, c.refundReply)
          case None => Revert(RefundFailed)
          case Some(w2) => Done(Left(w2))
  }

  /** The first leg of a settlement: nothing is sent when nothing is owed. */
  function PayLeg(ch: Chain, now: nat, w: World, id: nat, amount: nat, reply: Reply): Option<World>
    decreases reply, 1
  {
    if amount == 0 then Some(w)
    else
      var s := w.vault.At(id);
      match TokenOut(ch, now, w, s.token, s.recipient, amount, reply)
      case None => None
      case Some(w') => Some(Record(w', Paid(id, s.token, amount, s.recipient == ch.vault)))
  }

  /** The second leg; token and employer are read from storage after the first. */
  function RefundLeg(ch: Chain, now: nat, w: World, id: nat, amount: nat, reply: Reply): Option<World>
    decreases reply, 1
  {
    if amount == 0 then Some(w)
    else
      var s := w.vault.At(id);
      match TokenOut(ch, now, w, s.token, s.employer, amount, reply)
      case None => None
      case Some(w') => Some(Record(w', Refunded(id, amount)))
  }

  /** Calls in sequence; a reverted call leaves no trace. */
  function ExecAll(ch: Chain, now: nat, w: World, cs: seq<Call>): World
    decreases cs
  {
    if cs == [] then w
    else
      var w' := match Exec(ch, now, w, cs[0]) case Done(x) => x case Revert(_) => w;
      ExecAll(ch, now, w', cs[1..])
  }
}
