/** The accounts of the vault: what every call keeps, whatever non-standard tokens do. */
module Books {
  import opened Abi
  import opened Protocol
  import opened Tokens
  import opened Vault

  // ---------------------------------------------------------------- history totals

  /** Deposits, payouts and refunds of one stream; what the vault was given of one token
      outside funding, donations and payouts to itself. */
  datatype Account = In(id: nat) | Out(id: nat) | Back(id: nat) | Gift(token: nat)

  function Amount(e: Event, k: Account): nat {
    match e
    case Deposited(id, amount) => if k == In(id) then amount else 0
    case Paid(id, token, amount, toVault) =>
      if k == Out(id) || (toVault && k == Gift(token)) then amount else 0
    case Refunded(id, amount) => if k == Back(id) then amount else 0
    case Donated(token, amount) => if k == Gift(token) then amount else 0
    case Revealed(_, _) => 0
  }

  function Total(trail: seq<Event>, k: Account): nat {
    if trail == [] then 0 else Total(trail[..|trail| - 1], k) + Amount(trail[|trail| - 1], k)
  }

  lemma TotalRecord(w: World, e: Event, k: Account)
    ensures Total(Record(w, e).trail, k) == Total(w.trail, k) + Amount(e, k)
  {
    assert Record(w, e).trail[..|w.trail|] == w.trail;
  }

  // ---------------------------------------------------------------- invariants

  predicate StreamOk(ch: Chain, s: Stream) {
    && s.employer != 0 && s.employer != ch.vault
    && s.recipient != 0 && s.token != 0 && s.commitment != ZeroWord()
    && s.withdrawn <= s.funded
  }

  /** The existing streams are exactly 1 .. nextStreamId - 1. */
  ghost predicate IdsOk(v: Storage) {
    && v.nextStreamId >= 1
    && forall id: nat :: id in v.streams <==> 1 <= id < v.nextStreamId
  }

  predicate StreamsOk(ch: Chain, v: Storage) {
    forall id | id in v.streams :: StreamOk(ch, v.streams[id])
  }

  ghost predicate RevealsOk(w: World) {
    forall e | e in w.trail && e.Revealed? ::
      e.id in w.vault.streams && CommitTo(e.blob) == w.vault.streams[e.id].commitment
  }

  /** Per stream: deposits = funded, receipts = withdrawn, and the refund is the rest of the
      funding once the stream is cancelled and nothing before. */
  predicate StreamBooks(w: World, id: nat) {
    var s := w.vault.At(id);
    && Total(w.trail, In(id)) == s.funded
    && Total(w.trail, Out(id)) == s.withdrawn
    && Total(w.trail, Back(id)) == if s.cancelled then s.funded - s.withdrawn else 0
  }

  /** What a stream still reserves of a token. */
  function Open(s: Stream, token: nat): int {
    if s.token == token && !s.cancelled then s.funded - s.withdrawn else 0
  }

  function Owed(v: Storage, token: nat, n: nat): int {
    if n == 0 then 0 else Owed(v, token, n - 1) + Open(v.At(n - 1), token)
  }

  /** The vault's balance without gifts. */
  function Net(ch: Chain, w: World, token: nat): int {
    w.ledger.Bal(token, ch.vault) - Total(w.trail, Gift(token))
  }

  /** Balance = balance before the first call + open streams + gifts, for every standard token. */
  ghost predicate Solvent(ch: Chain, base: Ledger, w: World) {
    forall t: nat | t in ch.standard ::
      Net(ch, w, t) == base.Bal(t, ch.vault) + Owed(w.vault, t, w.vault.nextStreamId)
  }

  ghost predicate Shape(ch: Chain, w: World) {
    IdsOk(w.vault) && StreamsOk(ch, w.vault) && SupplyFits(w.ledger) && RevealsOk(w)
  }

  ghost predicate WorldOk(ch: Chain, base: Ledger, w: World) {
    && w.vault.entered == 1
    && Shape(ch, w)
    && (forall id: nat :: StreamBooks(w, id))
    && Solvent(ch, base, w)
  }

  // ---------------------------------------------------------------- legitimate callers

  predicate Guarded(c: Call) {
    c.Fund? || c.Withdraw? || c.CancelStream?
  }

  /** Neither the zero address nor the vault itself is ever the sender of a call. */
  predicate Legit(ch: Chain, c: Call)
    decreases c, 1
  {
    match c
    case TokenMint(_, _, _) => true
    case Fund(sender, _, _, r) => Outsider(ch, sender) && AllLegit(ch, r.callbacks)
    case Withdraw(sender, _, _, _, _, r) => Outsider(ch, sender) && AllLegit(ch, r.callbacks)
    case CancelStream(sender, _, _, _, _, p, r) =>
      Outsider(ch, sender) && AllLegit(ch, p.callbacks) && AllLegit(ch, r.callbacks)
    case _ => Outsider(ch, c.sender)
  }

  predicate Outsider(ch: Chain, sender: Address) {
    sender != 0 && sender != ch.vault
  }

  predicate AllLegit(ch: Chain, cs: seq<Call>)
    decreases cs, 0
  {
    forall c | c in cs :: Legit(ch, c)
  }

  // ---------------------------------------------------------------- frames

  ghost predicate SameStreams(v: Storage, v': Storage) {
    forall id | id in v.streams :: id in v'.streams && v'.streams[id] == v.streams[id]
  }

  ghost predicate NewAreEmpty(ch: Chain, v: Storage, v': Storage) {
    forall id | id in v'.streams && id !in v.streams ::
      var s := v'.streams[id];
      StreamOk(ch, s) && s.funded == 0 && s.withdrawn == 0 && !s.cancelled
  }

  /** Only gifts have been added to the history. */
  ghost predicate SameTotals(w: World, w': World) {
    forall k: Account | !k.Gift? :: Total(w'.trail, k) == Total(w.trail, k)
  }

  /** Existing streams, the lock and the owner are as they were, and new streams are empty. */
  ghost predicate Kept(ch: Chain, v: Storage, v': Storage) {
    && v'.entered == v.entered
    && v'.owner == v.owner
    && v'.nextStreamId >= v.nextStreamId
    && SameStreams(v, v')
    && NewAreEmpty(ch, v, v')
  }

  lemma KeptThen(ch: Chain, a: Storage, b: Storage, c: Storage)
    requires Kept(ch, a, b) && Kept(ch, b, c)
    ensures Kept(ch, a, c)
  {
  }

  /** The storage is kept, the history has only gained gifts, and the vault's net holding of
      `token` changed by `delta` and of no other standard token. */
  ghost predicate Shifted(ch: Chain, w: World, w': World, token: nat, delta: int) {
    && Kept(ch, w.vault, w'.vault)
    && IdsOk(w'.vault)
    && SameTotals(w, w')
    && SupplyFits(w'.ledger)
    && RevealsOk(w')
    && (forall t: nat | t in ch.standard ::
          Net(ch, w', t) == Net(ch, w, t) + if t == token then delta else 0)
  }

  ghost predicate Stable(w: World) {
    IdsOk(w.vault) && SupplyFits(w.ledger) && RevealsOk(w)
  }

  lemma ShiftedThen(ch: Chain, a: World, b: World, c: World, token: nat, delta: int)
    requires Stable(a) && Shifted(ch, a, b, token, 0) && Shifted(ch, b, c, token, delta)
    ensures Shifted(ch, a, c, token, delta)
  {
  }

  function Settle(w: World, o: Outcome): World {
    match o case Done(x) => x case Revert(_) => w
  }

  lemma RecordKeepsReveals(w: World, e: Event)
    requires RevealsOk(w)
    requires e.Revealed? ==> e.id in w.vault.streams && CommitTo(e.blob) == w.vault.streams[e.id].commitment
    ensures RevealsOk(Record(w, e))
  {
  }

  lemma RecordTotals(ch: Chain, w: World, e: Event)
    ensures forall k: Account :: Total(Record(w, e).trail, k) == Total(w.trail, k) + Amount(e, k)
    ensures forall t: nat :: Net(ch, Record(w, e), t) == Net(ch, w, t) - Amount(e, Gift(t))
  {
    forall k: Account ensures Total(Record(w, e).trail, k) == Total(w.trail, k) + Amount(e, k) {
      TotalRecord(w, e, k);
    }
  }

  lemma CreateShifts(ch: Chain, w: World, c: Call, token: nat)
    requires Stable(w) && c.CreateStream? && Legit(ch, c)
    ensures Shifted(ch, w, Settle(w, Create(w, c.sender, c.recipient, c.token, c.commitment, c.startTime)), token, 0)
  {
  }

  lemma RevealShifts(ch: Chain, w: World, id: nat, blob: seq<Octet>, token: nat)
    requires Stable(w)
    ensures Shifted(ch, w, Settle(w, Reveal(w, id, blob)), token, 0)
  {
    var e := Revealed(id, blob);
    RecordTotals(ch, w, e);
    if Reveal(w, id, blob).Done? {
      RecordKeepsReveals(w, e);
    }
  }

  lemma RotateShifts(ch: Chain, w: World, sender: Address, signer: Address, token: nat)
    requires Stable(w)
    ensures Shifted(ch, w, Settle(w, Rotate(w, sender, signer)), token, 0)
  {
  }

  lemma ApproveShifts(ch: Chain, w: World, sender: nat, asset: nat, amount: nat, token: nat)
    requires Stable(w)
    ensures Shifted(ch, w, ApproveVault(w, sender, asset, amount), token, 0)
  {
    var m := ApproveVault(w, sender, asset, amount).ledger;
    forall t: nat ensures m.TotalSupply(t) < TWO256 && m.Bal(t, ch.vault) == w.ledger.Bal(t, ch.vault) {
      assert m.TotalSupply(t) == w.ledger.TotalSupply(t);
    }
    forall t: nat, n: nat ensures Supply(m, t, n) <= m.TotalSupply(t) {
      SupplySame(w.ledger, m, t, n);
      assert Supply(w.ledger, t, n) <= w.ledger.TotalSupply(t);
    }
  }

  lemma GiftShifts(ch: Chain, w: World, l: Ledger, asset: nat, to: nat, amount: nat, token: nat)
    requires Stable(w) && SupplyFits(l)
    requires forall t: nat ::
               l.Bal(t, ch.vault) == w.ledger.Bal(t, ch.vault)
                                     + (if t == asset && to == ch.vault then amount else 0)
    ensures Shifted(ch, w, GiftTo(ch, w.(ledger := l), asset, to, amount), token, 0)
  {
    var mid := w.(ledger := l);
    var e := Donated(asset, amount);
    RecordTotals(ch, mid, e);
    RecordKeepsReveals(mid, e);
  }

  lemma MoveShifts(ch: Chain, w: World, sender: nat, asset: nat, to: nat, amount: nat, token: nat)
    requires Stable(w) && sender != ch.vault
    ensures Shifted(ch, w, Settle(w, MoveTokens(ch, w, sender, asset, to, amount)), token, 0)
  {
    var r := Transfer(w.ledger, asset, sender, to, amount);
    TransferMoves(w.ledger, asset, sender, to, amount);
    if r.Some? {
      MovedKeepsSupply(w.ledger, r.value, asset, sender, to, amount);
      GiftShifts(ch, w, r.value, asset, to, amount, token);
    }
  }

  lemma MintShifts(ch: Chain, w: World, asset: nat, to: nat, amount: nat, token: nat)
    requires Stable(w)
    ensures Shifted(ch, w, Settle(w, MintTokens(ch, w, asset, to, amount)), token, 0)
  {
    var r := Mint(w.ledger, asset, to, amount);
    MintKeepsSupply(w.ledger, asset, to, amount);
    if r.Some? {
      GiftShifts(ch, w, r.value, asset, to, amount, token);
    }
  }

  /** Every unguarded call leaves streams, lock and net holdings alone. */
  lemma UnguardedShifts(ch: Chain, now: nat, w: World, c: Call, token: nat)
    requires Stable(w) && Legit(ch, c) && !Guarded(c)
    ensures Shifted(ch, w, Settle(w, Exec(ch, now, w, c)), token, 0)
  {
    match c
    case CreateStream(_, _, _, _, _) => CreateShifts(ch, w, c, token);
    case RevealTerms(_, id, blob) => RevealShifts(ch, w, id, blob, token);
    case SetTeeSigner(sender, signer) => RotateShifts(ch, w, sender, signer, token);
    case Approve(sender, asset, amount) => ApproveShifts(ch, w, sender, asset, amount, token);
    case TokenMove(sender, asset, to, amount) => MoveShifts(ch, w, sender, asset, to, amount, token);
    case TokenMint(asset, to, amount) => MintShifts(ch, w, asset, to, amount, token);
  }

  /** While the lock is held, every guarded call reverts. */
  lemma LockedReverts(ch: Chain, now: nat, w: World, c: Call)
    requires w.vault.entered != 1 && Guarded(c)
    ensures Exec(ch, now, w, c) == Revert(Reentrancy)
  {
  }

  /** Any finite sequence of callbacks made under the lock. */
  lemma {:induction false} CallbacksShift(ch: Chain, now: nat, w: World, cs: seq<Call>, token: nat)
    requires Stable(w) && w.vault.entered == 2 && AllLegit(ch, cs)
    ensures Shifted(ch, w, ExecAll(ch, now, w, cs), token, 0)
    decreases |cs|
  {
    if cs == [] {
    } else {
      var w' := Settle(w, Exec(ch, now, w, cs[0]));
      if Guarded(cs[0]) {
        LockedReverts(ch, now, w, cs[0]);
      } else {
        UnguardedShifts(ch, now, w, cs[0], token);
      }
      CallbacksShift(ch, now, w', cs[1..], token);
      ShiftedThen(ch, w, w', ExecAll(ch, now, w', cs[1..]), token, 0);
    }
  }
}
