/** typescript/src/shared/protocol.ts: terms, accrual and the signed preimages. */
module Protocol {
  import opened Options
  import opened Abi

  const AUTH_TTL_SECONDS := 600
  const CALLER_AUTH_WINDOW_SECONDS := 300
  const RATE_SCALE := 1_000_000_000_000
  const TERMS_BYTES := 224

  // ---------------------------------------------------------------- terms

  datatype Terms = Terms(
    employer: Address,
    recipient: Address,
    token: Address,
    ratePerSecond: Uint256,
    total: Uint256,
    startTime: Uint256,
    salt: seq<Octet>)
  {
    /** What the ABI encoder accepts: a uint64 start time and a bytes32 salt. */
    predicate Encodable() {
      startTime < TWO64 && |salt| == 32
    }
  }

  function EncodeTerms(t: Terms): (blob: seq<Octet>)
    requires t.Encodable()
    ensures |blob| == TERMS_BYTES
  {
    BigEndian(t.employer, 32) + BigEndian(t.recipient, 32) + BigEndian(t.token, 32)
    + BigEndian(t.ratePerSecond, 32) + BigEndian(t.total, 32) + BigEndian(t.startTime, 32)
    + t.salt
  }

  function Slot(blob: seq<Octet>, i: nat): (s: seq<Octet>)
    requires 32 * i + 32 <= |blob|
    ensures |s| == 32
  {
    blob[32 * i..32 * i + 32]
  }

  function AddressIn(slot: seq<Octet>): (a: Address)
    requires |slot| == 32
  {
    Pow256Values();
    ValueOf(slot[12..])
  }

  function UintIn(slot: seq<Octet>): (n: Uint256)
    requires |slot| == 32
  {
    Pow256Values();
    ValueOf(slot)
  }

  /** The first seven words; an address is the low 20 octets of its word, trailing bytes are
      not looked at.  None stands for the decoder's exception. */
  function DecodeTerms(blob: seq<Octet>): Option<Terms> {
    if |blob| < TERMS_BYTES then None
    else Some(Terms(
      AddressIn(Slot(blob, 0)), AddressIn(Slot(blob, 1)), AddressIn(Slot(blob, 2)),
      UintIn(Slot(blob, 3)), UintIn(Slot(blob, 4)), UintIn(Slot(blob, 5)), Slot(blob, 6)))
  }

  lemma SlotBeforeTail(blob: seq<Octet>, tail: seq<Octet>, i: nat)
    requires 32 * i + 32 <= |blob|
    ensures Slot(blob + tail, i) == blob[32 * i..32 * i + 32]
    ensures Slot(blob + tail, i)[12..] == blob[32 * i + 12..32 * i + 32]
  {
  }

  /** A blob decodes exactly when it holds seven words; octets behind them and in front of an address
      are not looked at. */
  lemma DecodeReadsSevenWords(blob: seq<Octet>, tail: seq<Octet>)
    ensures DecodeTerms(blob).Some? <==> |blob| >= 224
    ensures |blob| == 224 ==>
              DecodeTerms(blob + tail)
              == Some(Terms(ValueOf(blob[12..32]), ValueOf(blob[44..64]), ValueOf(blob[76..96]), ValueOf(blob[96..128]),
                            ValueOf(blob[128..160]), ValueOf(blob[160..192]), blob[192..224]))
  {
    if |blob| == 224 {
      Pow256Values();
      SlotBeforeTail(blob, tail, 0);
      SlotBeforeTail(blob, tail, 1);
      SlotBeforeTail(blob, tail, 2);
      SlotBeforeTail(blob, tail, 3);
      SlotBeforeTail(blob, tail, 4);
      SlotBeforeTail(blob, tail, 5);
      SlotBeforeTail(blob, tail, 6);
    }
  }

  function CommitTo(blob: seq<Octet>): Word {
    Keccak(Lift(blob))
  }

  lemma AddressSlotRoundTrip(a: Address)
    ensures AddressIn(BigEndian(a, 32)) == a
  {
    BigEndianSuffix(a, 32, 20);
    Pow256Values();
    BigEndianRoundTrip(a, 20);
  }

  lemma UintSlotRoundTrip(n: Uint256)
    ensures UintIn(BigEndian(n, 32)) == n
  {
    Pow256Values();
    BigEndianRoundTrip(n, 32);
  }

  lemma EncodedSlots(t: Terms)
    requires t.Encodable()
    ensures var blob := EncodeTerms(t);
            && Slot(blob, 0) == BigEndian(t.employer, 32)
            && Slot(blob, 1) == BigEndian(t.recipient, 32)
            && Slot(blob, 2) == BigEndian(t.token, 32)
            && Slot(blob, 3) == BigEndian(t.ratePerSecond, 32)
            && Slot(blob, 4) == BigEndian(t.total, 32)
            && Slot(blob, 5) == BigEndian(t.startTime, 32)
            && Slot(blob, 6) == t.salt
  {
  }

  /** decodeTerms(encodeTerms(t)) = t. */
  lemma TermsRoundTrip(t: Terms)
    requires t.Encodable()
    ensures DecodeTerms(EncodeTerms(t)) == Some(t)
  {
    EncodedSlots(t);
    AddressSlotRoundTrip(t.employer);
    AddressSlotRoundTrip(t.recipient);
    AddressSlotRoundTrip(t.token);
    UintSlotRoundTrip(t.ratePerSecond);
    UintSlotRoundTrip(t.total);
    UintSlotRoundTrip(t.startTime);
  }

  predicate ZeroPadded(slot: seq<Octet>)
    requires |slot| == 32
  {
    forall j | 0 <= j < 12 :: slot[j] == 0
  }

  /** What re-encoding needs of a blob: its exact length, zero padding before each address and
      a start time in 64 bits. */
  predicate Canonical(blob: seq<Octet>) {
    && |blob| == TERMS_BYTES
    && ZeroPadded(Slot(blob, 0)) && ZeroPadded(Slot(blob, 1)) && ZeroPadded(Slot(blob, 2))
    && UintIn(Slot(blob, 5)) < TWO64
  }

  lemma {:induction false} LeadingZeros(bs: seq<Octet>, k: nat)
    requires k <= |bs|
    requires forall j | 0 <= j < k :: bs[j] == 0
    ensures ValueOf(bs) == ValueOf(bs[k..])
  {
    if k < |bs| {
      var init := bs[..|bs| - 1];
      LeadingZeros(init, k);
      assert bs[k..][..|bs[k..]| - 1] == init[k..];
    } else if bs != [] {
      LeadingZeros(bs[..|bs| - 1], k - 1);
    }
  }

  lemma PaddedAddress(slot: seq<Octet>)
    requires |slot| == 32
    ensures ZeroPadded(slot) <==> BigEndian(AddressIn(slot), 32) == slot
  {
    var a := AddressIn(slot);
    if ZeroPadded(slot) {
      LeadingZeros(slot, 12);
      ValueRoundTrip(slot);
    }
    if BigEndian(a, 32) == slot {
      SmallNumberZeros(a, 32, 20);
    }
  }

  lemma {:induction false} SmallNumberZeros(n: nat, width: nat, low: nat)
    requires low <= width && n < Pow256(low)
    ensures forall j | 0 <= j < width - low :: BigEndian(n, width)[j] == 0
  {
    if width > low {
      if low == 0 {
        SmallNumberZeros(0, width - 1, 0);
      } else {
        SmallNumberZeros(n / 256, width - 1, low - 1);
      }
    }
  }

  /** The decoded terms give the blob back exactly when the blob is canonical. */
  lemma BlobRoundTrip(blob: seq<Octet>)
    requires |blob| >= TERMS_BYTES
    ensures var t := DecodeTerms(blob).value;
            Canonical(blob) <==> t.Encodable() && EncodeTerms(t) == blob
  {
    PaddedAddress(Slot(blob, 0));
    PaddedAddress(Slot(blob, 1));
    PaddedAddress(Slot(blob, 2));
    ValueRoundTrip(Slot(blob, 3));
    ValueRoundTrip(Slot(blob, 4));
    ValueRoundTrip(Slot(blob, 5));
    var t := DecodeTerms(blob).value;
    if t.Encodable() {
      EncodedSlots(t);
      if |blob| == TERMS_BYTES {
        SameSlots(blob, EncodeTerms(t));
      }
    }
  }

  lemma SameSlots(a: seq<Octet>, b: seq<Octet>)
    requires |a| == |b| == TERMS_BYTES
    ensures (Slot(a, 0) == Slot(b, 0) && Slot(a, 1) == Slot(b, 1) && Slot(a, 2) == Slot(b, 2)
             && Slot(a, 3) == Slot(b, 3) && Slot(a, 4) == Slot(b, 4) && Slot(a, 5) == Slot(b, 5)
             && Slot(a, 6) == Slot(b, 6)) <==> a == b
  {
    SevenSlots(a);
    SevenSlots(b);
  }

  lemma SevenSlots(blob: seq<Octet>)
    requires |blob| == TERMS_BYTES
    ensures blob == Slot(blob, 0) + Slot(blob, 1) + Slot(blob, 2) + Slot(blob, 3)
                    + Slot(blob, 4) + Slot(blob, 5) + Slot(blob, 6)
  {
  }

  // ---------------------------------------------------------------- accrual

  function Min(a: int, b: int): int { if a < b then a else b }
  function Max(a: int, b: int): int { if a < b then b else a }

  function ElapsedAt(t: Terms, now: int): nat {
    if now > t.startTime then now - t.startTime else 0
  }

  function Accrue(rate: nat, elapsed: nat): nat {
    rate * elapsed / RATE_SCALE
  }

  function AccruedAt(t: Terms, now: int): (figure: Uint256) {
    var accrued := Accrue(t.ratePerSecond, ElapsedAt(t, now));
    if accrued < t.total then accrued else t.total
  }

  /** frontend/app/stream/[id]/page.tsx: what the dashboard offers to withdraw. */
  function Available(t: Terms, funded: nat, withdrawn: nat, now: int): int {
    var accrued := AccruedAt(t, now);
    (if accrued > funded then funded else accrued) - withdrawn
  }

  // ---------------------------------------------------------------- signed preimages

  const WITHDRAW_TAG: Word := Keccak(Ascii("SW_WITHDRAW_V1"))
  const SETTLE_TAG: Word := Keccak(Ascii("SW_SETTLE_V1"))
  const CALLER_AUTH_TAG: Word := Keccak(Ascii("SW_CALLER_AUTH_V1"))

  /** What the enclave signs for the vault. */
  datatype Authorization = Authorization(
    tag: Word,
    chainId: Uint256,
    vault: Address,
    streamId: Uint256,
    commitment: Word,
    figure: Uint256,
    deadline: Uint256)

  /** What a party signs for the enclave. */
  datatype Challenge = Challenge(
    chainId: Uint256,
    vault: Address,
    streamId: Uint256,
    commitment: Word,
    purpose: Word,
    issuedAt: Uint256)

  function AuthWords(a: Authorization): seq<Word> {
    [a.tag, UintWord(a.chainId), UintWord(a.vault), UintWord(a.streamId),
     a.commitment, UintWord(a.figure), UintWord(a.deadline)]
  }

  function ChallengeWords(c: Challenge): seq<Word> {
    [CALLER_AUTH_TAG, UintWord(c.chainId), UintWord(c.vault), UintWord(c.streamId),
     c.commitment, c.purpose, UintWord(c.issuedAt)]
  }

  function AuthPreimage(a: Authorization): seq<Cell> { Tuple(AuthWords(a)) }

  function ChallengePreimage(c: Challenge): seq<Cell> { Tuple(ChallengeWords(c)) }

  const ETH_SIGNED_PREFIX := "\U{19}Ethereum Signed Message:\n32"

  function EthSigned(digest: Word): Word {
    Keccak(Ascii(ETH_SIGNED_PREFIX) + digest)
  }

  /** The word a signature over an authorization covers, EIP-191 prefix included. */
  function AuthMessage(a: Authorization): Word { EthSigned(Keccak(AuthPreimage(a))) }

  function ChallengeMessage(c: Challenge): Word { EthSigned(Keccak(ChallengePreimage(c))) }

  /** Where each member of a signed authorization sits, 32 octets a member. */
  lemma AuthorizationSlots(a: Authorization)
    ensures var p := AuthPreimage(a);
            && |p| == 224
            && p[0..32] == a.tag && p[32..64] == Lift(BigEndian(a.chainId, 32))
            && p[64..96] == Lift(BigEndian(a.vault, 32)) && p[96..128] == Lift(BigEndian(a.streamId, 32))
            && p[128..160] == a.commitment && p[160..192] == Lift(BigEndian(a.figure, 32))
            && p[192..224] == Lift(BigEndian(a.deadline, 32))
  {
    var ws := AuthWords(a);
    TupleSlot(ws, 0);
    TupleSlot(ws, 1);
    TupleSlot(ws, 2);
    TupleSlot(ws, 3);
    TupleSlot(ws, 4);
    TupleSlot(ws, 5);
    TupleSlot(ws, 6);
  }

  /** And of a signed challenge. */
  lemma ChallengeSlots(c: Challenge)
    ensures var p := ChallengePreimage(c);
            && |p| == 224
            && p[0..32] == Keccak(Ascii("SW_CALLER_AUTH_V1")) && p[32..64] == Lift(BigEndian(c.chainId, 32))
            && p[64..96] == Lift(BigEndian(c.vault, 32)) && p[96..128] == Lift(BigEndian(c.streamId, 32))
            && p[128..160] == c.commitment && p[160..192] == c.purpose
            && p[192..224] == Lift(BigEndian(c.issuedAt, 32))
  {
    var ws := ChallengeWords(c);
    TupleSlot(ws, 0);
    TupleSlot(ws, 1);
    TupleSlot(ws, 2);
    TupleSlot(ws, 3);
    TupleSlot(ws, 4);
    TupleSlot(ws, 5);
    TupleSlot(ws, 6);
  }

  lemma TagsDistinct()
    ensures WITHDRAW_TAG != SETTLE_TAG
    ensures WITHDRAW_TAG != CALLER_AUTH_TAG
    ensures SETTLE_TAG != CALLER_AUTH_TAG
  {
    var w, s, c := Ascii("SW_WITHDRAW_V1"), Ascii("SW_SETTLE_V1"), Ascii("SW_CALLER_AUTH_V1");
    assert |w| == 14 && |s| == 12 && |c| == 17;
    if WITHDRAW_TAG == SETTLE_TAG { KeccakInjective(w, s); }
    if WITHDRAW_TAG == CALLER_AUTH_TAG { KeccakInjective(w, c); }
    if SETTLE_TAG == CALLER_AUTH_TAG { KeccakInjective(s, c); }
  }

  lemma EthSignedInjective(a: Word, b: Word)
    requires EthSigned(a) == EthSigned(b)
    ensures a == b
  {
    var prefix := Ascii(ETH_SIGNED_PREFIX);
    KeccakInjective(prefix + a, prefix + b);
    assert (prefix + a)[|prefix|..] == a;
    assert (prefix + b)[|prefix|..] == b;
  }

  /** A signed authorization fixes all seven of its members. */
  lemma AuthMessageInjective(a: Authorization, b: Authorization)
    requires AuthMessage(a) == AuthMessage(b)
    ensures a == b
  {
    EthSignedInjective(Keccak(AuthPreimage(a)), Keccak(AuthPreimage(b)));
    KeccakInjective(AuthPreimage(a), AuthPreimage(b));
    var x := AuthWords(a);
    var y := AuthWords(b);
    TupleInjective(x, y);
    assert x[0] == y[0] && x[1] == y[1] && x[2] == y[2] && x[3] == y[3] && x[4] == y[4]
           && x[5] == y[5] && x[6] == y[6];
    UintWordInjective(a.chainId, b.chainId);
    UintWordInjective(a.vault, b.vault);
    UintWordInjective(a.streamId, b.streamId);
    UintWordInjective(a.figure, b.figure);
    UintWordInjective(a.deadline, b.deadline);
  }

  lemma ChallengeMessageInjective(a: Challenge, b: Challenge)
    requires ChallengeMessage(a) == ChallengeMessage(b)
    ensures a == b
  {
    EthSignedInjective(Keccak(ChallengePreimage(a)), Keccak(ChallengePreimage(b)));
    KeccakInjective(ChallengePreimage(a), ChallengePreimage(b));
    var x := ChallengeWords(a);
    var y := ChallengeWords(b);
    TupleInjective(x, y);
    assert x[1] == y[1] && x[2] == y[2] && x[3] == y[3] && x[4] == y[4] && x[5] == y[5]
           && x[6] == y[6];
    UintWordInjective(a.chainId, b.chainId);
    UintWordInjective(a.vault, b.vault);
    UintWordInjective(a.streamId, b.streamId);
    UintWordInjective(a.issuedAt, b.issuedAt);
  }

  // ---------------------------------------------------------------- preimages of different kinds

  /** A word that does not fit in 160 bits, octet by octet; what a domain tag must be. */
  predicate WiderThanAddress(w: Word) {
    exists j | 0 <= j < 12 :: w[j] != Lit(0)
  }

  /** No encoded terms start with a word wider than an address: their first word is the
      employer's, which has twelve zero octets. */
  lemma TaggedIsNoTerms(ws: seq<Word>, t: Terms)
    requires ws != [] && WiderThanAddress(ws[0]) && t.Encodable()
    ensures Tuple(ws) != Lift(EncodeTerms(t))
  {
    var j :| 0 <= j < 12 && ws[0][j] != Lit(0);
    TupleSlot(ws, 0);
    assert Tuple(ws)[0..32][j] == ws[0][j];
    EncodedSlots(t);
    Pow256Values();
    SmallNumberZeros(t.employer, 32, 20);
    assert EncodeTerms(t)[j] == Slot(EncodeTerms(t), 0)[j] == 0;
    assert Lift(EncodeTerms(t))[j] == Lit(0);
  }

  lemma TagsAreWide()
    ensures WiderThanAddress(WITHDRAW_TAG) && WiderThanAddress(SETTLE_TAG) && WiderThanAddress(CALLER_AUTH_TAG)
  {
    assert WITHDRAW_TAG[0].HashOf? && SETTLE_TAG[0].HashOf? && CALLER_AUTH_TAG[0].HashOf?;
  }

  /** No preimage of one kind is a preimage of another: withdraw authorizations, settle
      authorizations, caller challenges and encoded terms never coincide. */
  lemma PreimagesDisjoint(a: Authorization, c: Challenge, t: Terms)
    requires a.tag == WITHDRAW_TAG || a.tag == SETTLE_TAG
    requires t.Encodable()
    ensures AuthPreimage(a) != ChallengePreimage(c)
    ensures AuthPreimage(a) != Lift(EncodeTerms(t))
    ensures ChallengePreimage(c) != Lift(EncodeTerms(t))
    ensures forall b: Authorization :: b.tag != a.tag ==> AuthPreimage(b) != AuthPreimage(a)
  {
    TagsDistinct();
    TagsAreWide();
    var x := AuthWords(a);
    var y := ChallengeWords(c);
    TupleSlot(x, 0);
    TupleSlot(y, 0);
    TaggedIsNoTerms(x, t);
    TaggedIsNoTerms(y, t);
    forall b: Authorization | b.tag != a.tag ensures AuthPreimage(b) != AuthPreimage(a) {
      TupleSlot(AuthWords(b), 0);
    }
  }

  // ---------------------------------------------------------------- blobs nobody encoded

  /** The octets of a word that is written out on the wire. */
  predicate Written(w: Word) {
    forall j | 0 <= j < 32 :: w[j].Lit?
  }

  predicate AllWritten(ws: seq<Word>) {
    forall i | 0 <= i < |ws| :: Written(ws[i])
  }

  function Octets(w: Word): (bs: seq<Octet>)
    requires Written(w)
    ensures |bs| == 32 && Lift(bs) == w
  {
    var bs := seq(32, j requires 0 <= j < 32 => w[j].value);
    assert Lift(bs) == w;
    bs
  }

  /** The blob that is octet for octet the encoding of these seven words. */
  function BlobOf(ws: seq<Word>): (blob: seq<Octet>)
    requires |ws| == 7 && AllWritten(ws)
    ensures |blob| == TERMS_BYTES
    ensures forall i | 0 <= i < 7 :: Slot(blob, i) == Octets(ws[i])
  {
    var blob := Octets(ws[0]) + Octets(ws[1]) + Octets(ws[2]) + Octets(ws[3])
                + Octets(ws[4]) + Octets(ws[5]) + Octets(ws[6]);
    assert Slot(blob, 0) == Octets(ws[0]) && Slot(blob, 1) == Octets(ws[1]) && Slot(blob, 2) == Octets(ws[2])
           && Slot(blob, 3) == Octets(ws[3]) && Slot(blob, 4) == Octets(ws[4]) && Slot(blob, 5) == Octets(ws[5])
           && Slot(blob, 6) == Octets(ws[6]);
    blob
  }

  lemma OctetInSlot(ws: seq<Word>, k: nat)
    requires k < 32 * |ws|
    ensures Tuple(ws)[k] == ws[k / 32][k % 32]
  {
    TupleSlot(ws, k / 32);
    assert Tuple(ws)[32 * (k / 32)..32 * (k / 32) + 32][k % 32] == Tuple(ws)[k];
  }

  /** Seven words are the octets of some blob exactly when they are written out.  `decodeTerms`
      decodes that blob whatever its first word says, so a preimage of an authorization or a
      challenge can be committed to and revealed as if it were terms. */
  lemma WordsAreABlob(ws: seq<Word>)
    requires |ws| == 7
    ensures (exists blob :: Tuple(ws) == Lift(blob)) <==> AllWritten(ws)
    ensures AllWritten(ws) ==> Tuple(ws) == Lift(BlobOf(ws)) && DecodeTerms(BlobOf(ws)).Some?
  {
    if blob :| Tuple(ws) == Lift(blob) {
      forall i, j | 0 <= i < 7 && 0 <= j < 32 ensures ws[i][j].Lit? {
        OctetInSlot(ws, 32 * i + j);
        assert Lift(blob)[32 * i + j].Lit?;
      }
    }
    if AllWritten(ws) {
      var blob := BlobOf(ws);
      forall k | 0 <= k < TERMS_BYTES ensures Tuple(ws)[k] == Lift(blob)[k] {
        OctetInSlot(ws, k);
        assert blob[k] == Slot(blob, k / 32)[k % 32] == Octets(ws[k / 32])[k % 32];
        assert Lift(Octets(ws[k / 32]))[k % 32] == ws[k / 32][k % 32];
      }
    }
  }

  /** The exact limit: seven words are an encoding of terms if and only if they are written out,
      the first three fit in 160 bits and the sixth in 64. */
  lemma CollidesWithTerms(ws: seq<Word>)
    requires |ws| == 7
    ensures (exists t: Terms :: t.Encodable() && Tuple(ws) == Lift(EncodeTerms(t)))
            <==> AllWritten(ws) && Canonical(BlobOf(ws))
  {
    WordsAreABlob(ws);
    if t: Terms :| t.Encodable() && Tuple(ws) == Lift(EncodeTerms(t)) {
      LiftInjective(EncodeTerms(t), BlobOf(ws));
      TermsRoundTrip(t);
      BlobRoundTrip(EncodeTerms(t));
    }
    if AllWritten(ws) && Canonical(BlobOf(ws)) {
      BlobRoundTrip(BlobOf(ws));
      var t := DecodeTerms(BlobOf(ws)).value;
      assert t.Encodable() && Tuple(ws) == Lift(EncodeTerms(t));
    }
  }

  /** An authorization's signature is never a valid challenge signature and conversely. */
  lemma MessagesDisjoint(a: Authorization, c: Challenge)
    requires a.tag == WITHDRAW_TAG || a.tag == SETTLE_TAG
    ensures AuthMessage(a) != ChallengeMessage(c)
  {
    if AuthMessage(a) == ChallengeMessage(c) {
      EthSignedInjective(Keccak(AuthPreimage(a)), Keccak(ChallengePreimage(c)));
      KeccakInjective(AuthPreimage(a), ChallengePreimage(c));
      TupleInjective(AuthWords(a), ChallengeWords(c));
      assert a.tag == AuthWords(a)[0] == ChallengeWords(c)[0] == CALLER_AUTH_TAG;
      TagsDistinct();
    }
  }
}
