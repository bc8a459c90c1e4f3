/** typescript/src/app/streamHandlers.ts: authorize, for both tags. */
module Enclave {
  import opened Options
  import opened Abi
  import opened Protocol
  import opened Rates
  import opened Vault

  /** A decoded request.  None in a numeric field: BigInt() throws on its text; None in `vault`:
      not an address; None in `plaintext`: the sealed terms do not decrypt. */
  datatype Request = Request(
    streamId: Option<int>,
    vault: Option<Address>,
    chainId: Option<int>,
    commitment: Word,
    plaintext: Option<seq<Octet>>,
    issuedAt: Option<int>,
    callerSig: Signature)

  datatype Refusal =
    | KeysNotConfigured | FailedToDecrypt | TermsDoNotMatch | MalformedTerms
    | IssuedAtNotInteger | CallerExpired | MalformedCallerSignature | NotAParty

  /** What one grant fixes: who signs, what, on which terms, for whom and when. */
  datatype Grant = Grant(
    key: Address,
    auth: Authorization,
    blob: seq<Octet>,
    caller: Address,
    challenge: Challenge,
    time: nat)

  datatype Answer =
    | Granted(grant: Grant, sig: Signature)
    | Refused(why: Refusal)
    | Threw

  predicate Permitted(tag: Word, t: Terms, caller: Address) {
    if tag == SETTLE_TAG then caller == t.employer
    else caller == t.recipient || caller == t.employer
  }

  predicate IsUint256(n: Option<int>) {
    n.Some? && 0 <= n.value < TWO256
  }

  /** The challenge the caller must have signed; None when its encoding throws. */
  function ChallengeOf(req: Request, tag: Word): Option<Challenge> {
    if IsUint256(req.chainId) && req.vault.Some? && IsUint256(req.streamId) && IsUint256(req.issuedAt)
    then Some(Challenge(req.chainId.value, req.vault.value, req.streamId.value, req.commitment, tag,
                        req.issuedAt.value))
    else None
  }

  /** recoverMessageAddress: None throws; a signature over another message recovers nobody's
      address, which is written 0. */
  function RecoverCaller(message: Word, sig: Signature): Option<Address> {
    match sig
    case WrongLength => None
    case Unrecoverable => None
    case Ecdsa(k, m) => if k == 0 then None else if m == message then Some(k) else Some(0)
  }

  function Abs(n: int): nat { if n < 0 then -n else n }

  function AuthorizeSpec(key: Option<Address>, tag: Word, req: Request, now: nat): Answer {
    if key.None? then Refused(KeysNotConfigured)
    else if req.plaintext.None? then Refused(FailedToDecrypt)
    else
      var blob := req.plaintext.value;
      if CommitTo(blob) != req.commitment then Refused(TermsDoNotMatch)
      else if DecodeTerms(blob).None? then Refused(MalformedTerms)
      else
        var t := DecodeTerms(blob).value;
        if req.issuedAt.None? then Refused(IssuedAtNotInteger)
        else if Abs(req.issuedAt.value - now) > CALLER_AUTH_WINDOW_SECONDS then Refused(CallerExpired)
        else
          var challenge := ChallengeOf(req, tag);
          if challenge.None? then Refused(MalformedCallerSignature)
          else
            var caller := RecoverCaller(ChallengeMessage(challenge.value), req.callerSig);
            if caller.None? then Refused(MalformedCallerSignature)
            else if caller.value == 0 || !Permitted(tag, t, caller.value) then Refused(NotAParty)
            else if now + AUTH_TTL_SECONDS >= TWO256 then Threw
            else
              var auth := Authorization(tag, req.chainId.value, req.vault.value, req.streamId.value,
                                        req.commitment, AccruedAt(t, now), now + AUTH_TTL_SECONDS);
              Granted(Grant(key.value, auth, blob, caller.value, challenge.value, now),
                      Ecdsa(key.value, AuthMessage(auth)))
  }

  /** Everything a grant stands for: terms that open the commitment it binds, a figure that is
      those terms' accrual at the signing time, a ten-minute deadline, and a permitted party's
      signature over a challenge naming the same chain, vault, stream, commitment and purpose,
      issued within five minutes of the signing time. */
  predicate GrantOk(g: Grant) {
    && CommitTo(g.blob) == g.auth.commitment
    && DecodeTerms(g.blob).Some?
    && g.auth.figure == AccruedAt(DecodeTerms(g.blob).value, g.time)
    && g.auth.deadline == g.time + AUTH_TTL_SECONDS
    && (g.auth.tag == WITHDRAW_TAG || g.auth.tag == SETTLE_TAG)
    && Permitted(g.auth.tag, DecodeTerms(g.blob).value, g.caller)
    && g.caller != 0
    && g.challenge == Challenge(g.auth.chainId, g.auth.vault, g.auth.streamId, g.auth.commitment, g.auth.tag,
                                g.challenge.issuedAt)
    && Abs(g.challenge.issuedAt - g.time) <= CALLER_AUTH_WINDOW_SECONDS
  }

  lemma GrantsAreOk(key: Option<Address>, tag: Word, req: Request, now: nat)
    requires tag == WITHDRAW_TAG || tag == SETTLE_TAG
    ensures var r := AuthorizeSpec(key, tag, req, now);
            r.Granted? ==>
              && GrantOk(r.grant)
              && Some(r.grant.key) == key && r.grant.time == now && r.grant.auth.tag == tag
              && r.sig == Ecdsa(r.grant.key, AuthMessage(r.grant.auth))
              && req.callerSig == Ecdsa(r.grant.caller, ChallengeMessage(r.grant.challenge))
  {
    var r := AuthorizeSpec(key, tag, req, now);
    if r.Granted? {
      var g := r.grant;
      assert g.blob == req.plaintext.value && CommitTo(g.blob) == g.auth.commitment == req.commitment;
      assert ChallengeOf(req, tag) == Some(g.challenge);
      assert RecoverCaller(ChallengeMessage(g.challenge), req.callerSig) == Some(g.caller);
    }
  }

  /** A party's well-formed request is always granted; once the caller is authenticated only a
      clock beyond 2^256 - 600 can make building the digest throw. */
  lemma HonestRequestGranted(key: Address, tag: Word, blob: seq<Octet>, c: Challenge, caller: Address, now: nat)
    requires DecodeTerms(blob).Some? && CommitTo(blob) == c.commitment && c.purpose == tag
    requires caller != 0 && Permitted(tag, DecodeTerms(blob).value, caller)
    requires Abs(c.issuedAt - now) <= CALLER_AUTH_WINDOW_SECONDS
    ensures var req := Request(Some(c.streamId), Some(c.vault), Some(c.chainId), c.commitment, Some(blob),
                               Some(c.issuedAt), Ecdsa(caller, ChallengeMessage(c)));
            var r := AuthorizeSpec(Some(key), tag, req, now);
            && (r.Threw? <==> now + AUTH_TTL_SECONDS >= TWO256)
            && (now + AUTH_TTL_SECONDS < TWO256 ==>
                  && r.Granted?
                  && r.grant.auth == Authorization(tag, c.chainId, c.vault, c.streamId, c.commitment,
                                                   AccruedAt(DecodeTerms(blob).value, now), now + AUTH_TTL_SECONDS))
  {
  }

  // ---------------------------------------------------------------- answers in plain conditions

  /** What the sealed terms are worth to the request: they open its commitment and can be decoded. */
  predicate Opened(req: Request) {
    && req.plaintext.Some? && Keccak(Lift(req.plaintext.value)) == req.commitment
    && |req.plaintext.value| >= 224
  }

  /** Issued within five minutes of now, before or after. */
  predicate Timely(req: Request, now: nat) {
    req.issuedAt.Some? && now - 300 <= req.issuedAt.value <= now + 300
  }

  /** The numbers can be encoded and the signature recovers something. */
  predicate Wellformed(req: Request) {
    && req.chainId.Some? && 0 <= req.chainId.value < TWO256
    && req.vault.Some?
    && req.streamId.Some? && 0 <= req.streamId.value < TWO256
    && req.issuedAt.Some? && 0 <= req.issuedAt.value < TWO256
    && req.callerSig.Ecdsa? && req.callerSig.signer != 0
  }

  /** The words of the challenge a caller signs for this request and purpose. */
  function AskedWords(req: Request, tag: Word): seq<Word>
    requires Wellformed(req)
  {
    [Keccak(Ascii("SW_CALLER_AUTH_V1")), UintWord(req.chainId.value), UintWord(req.vault.value),
     UintWord(req.streamId.value), req.commitment, tag, UintWord(req.issuedAt.value)]
  }

  /** The employer of the terms, or for a withdrawal also their recipient, signed that challenge. */
  predicate FromParty(req: Request, tag: Word)
    requires Wellformed(req) && Opened(req)
  {
    var t := DecodeTerms(req.plaintext.value).value;
    && (req.callerSig.signer == t.employer
        || (tag != Keccak(Ascii("SW_SETTLE_V1")) && req.callerSig.signer == t.recipient))
    && req.callerSig.message
       == Keccak(Ascii("\U{19}Ethereum Signed Message:\n32") + Keccak(Tuple(AskedWords(req, tag))))
  }

  /** Authentication in the handler's own terms. */
  lemma CallerExactly(req: Request, tag: Word)
    requires Opened(req)
    ensures var c := ChallengeOf(req, tag);
            && (Wellformed(req) <==> c.Some? && RecoverCaller(ChallengeMessage(c.value), req.callerSig).Some?)
            && (Wellformed(req) ==>
                  var caller := RecoverCaller(ChallengeMessage(c.value), req.callerSig).value;
                  FromParty(req, tag)
                  <==> caller != 0 && Permitted(tag, DecodeTerms(req.plaintext.value).value, caller))
  {
    if Wellformed(req) {
      assert ChallengeWords(ChallengeOf(req, tag).value) == AskedWords(req, tag);
    }
  }

  /** A request is granted if and only if the keys are configured, the terms open, the challenge is
      timely, well formed and signed by a party, and the clock leaves room for a deadline.  The grant
      then fixes exactly this request's purpose, chain, vault, stream and commitment, the units
      earned by now and a deadline ten minutes ahead, and the signature covers exactly that. */
  lemma GrantedExactly(key: Option<Address>, tag: Word, req: Request, now: nat)
    ensures var r := AuthorizeSpec(key, tag, req, now);
            && (r.Granted? <==> key.Some? && Opened(req) && Timely(req, now) && Wellformed(req) && FromParty(req, tag)
                                && now + 600 < TWO256)
            && (r.Granted? ==>
                  var a := r.grant.auth;
                  && a.tag == tag && a.chainId == req.chainId.value && a.vault == req.vault.value
                  && a.streamId == req.streamId.value && a.commitment == req.commitment && a.deadline == now + 600
                  && Earned(DecodeTerms(req.plaintext.value).value, now, a.figure)
                  && r.sig == Ecdsa(key.value, AuthMessage(a)))
  {
    if key.Some? && Opened(req) {
      CallerExactly(req, tag);
      AccruedExactly(DecodeTerms(req.plaintext.value).value, now, 0);
    }
  }

  /** Which refusal any other request gets; the first reason in this order wins. */
  lemma RefusalReason(key: Option<Address>, tag: Word, req: Request, now: nat)
    ensures var r := AuthorizeSpec(key, tag, req, now);
            var decrypted := key.Some? && req.plaintext.Some?;
            var matching := decrypted && Keccak(Lift(req.plaintext.value)) == req.commitment;
            && (r == Refused(KeysNotConfigured) <==> key.None?)
            && (r == Refused(FailedToDecrypt) <==> key.Some? && !decrypted)
            && (r == Refused(TermsDoNotMatch) <==> decrypted && !matching)
            && (r == Refused(MalformedTerms) <==> matching && !Opened(req))
  {
  }

  lemma CallerRefusalReason(key: Option<Address>, tag: Word, req: Request, now: nat)
    requires key.Some? && Opened(req)
    ensures var r := AuthorizeSpec(key, tag, req, now);
            && (r == Refused(IssuedAtNotInteger) <==> req.issuedAt.None?)
            && (r == Refused(CallerExpired) <==> req.issuedAt.Some? && !Timely(req, now))
            && (r == Refused(MalformedCallerSignature) <==> Timely(req, now) && !Wellformed(req))
            && (r == Refused(NotAParty) <==> Timely(req, now) && Wellformed(req) && !FromParty(req, tag))
            && (r == Threw <==> Timely(req, now) && Wellformed(req) && FromParty(req, tag) && now + 600 >= TWO256)
  {
    CallerExactly(req, tag);
  }

  // ---------------------------------------------------------------- the handler module

  /** What the handlers have done, oldest first. */
  datatype Served = Answered(answer: Answer) | CountReset

  /** The requests granted since the counter was last reset. */
  function GrantsSinceReset(history: seq<Served>): nat {
    if history == [] then 0
    else
      match history[|history| - 1]
      case CountReset => 0
      case Answered(r) => GrantsSinceReset(history[..|history| - 1]) + if r.Granted? then 1 else 0
  }

  function GrantedAmong(answers: seq<Answer>): nat {
    if answers == [] then 0
    else GrantedAmong(answers[..|answers| - 1]) + if answers[|answers| - 1].Granted? then 1 else 0
  }

  function Answers(answers: seq<Answer>): seq<Served> {
    seq(|answers|, i requires 0 <= i < |answers| => Answered(answers[i]))
  }

  /** A reset forgets what was granted before it and nothing that is granted after it. */
  lemma {:induction false} ResetForgets(before: seq<Served>, later: seq<Answer>)
    ensures GrantsSinceReset(before + [CountReset] + Answers(later)) == GrantedAmong(later)
  {
    var history := before + [CountReset] + Answers(later);
    if later == [] {
      assert history[|history| - 1] == CountReset;
    } else {
      var front := later[..|later| - 1];
      assert history[..|history| - 1] == before + [CountReset] + Answers(front);
      assert history[|history| - 1] == Answered(later[|later| - 1]);
      ResetForgets(before, front);
    }
  }

  lemma ServedNext(history: seq<Served>, e: Served)
    ensures GrantsSinceReset(history + [e])
            == match e
               case CountReset => 0
               case Answered(r) => GrantsSinceReset(history) + if r.Granted? then 1 else 0
  {
    assert (history + [e])[..|history|] == history;
  }

  /** The handler module: its one variable is a counter no decision reads. */
  class StreamHandlers {
    var authCount: nat
    ghost var history: seq<Served>

    /** The counter is what the history says. */
    ghost predicate Valid()
      reads this
    {
      authCount == GrantsSinceReset(history)
    }

    constructor ()
      ensures Valid() && history == []
    {
      authCount := 0;
      history := [];
    }

    method ReportStreamState() returns (count: nat)
      requires Valid()
      ensures count == GrantsSinceReset(history)
    {
      return authCount;
    }

    method ResetStreamState()
      requires Valid()
      modifies this
      ensures Valid() && history == old(history) + [CountReset]
    {
      ServedNext(history, CountReset);
      authCount := 0;
      history := history + [CountReset];
    }

    method Authorize(signerKey: Option<Address>, tag: Word, req: Request, now: nat) returns (r: Answer)
      requires Valid()
      modifies this
      ensures r == AuthorizeSpec(signerKey, tag, req, now)
      ensures Valid() && history == old(history) + [Answered(r)]
    {
      r := Decide(signerKey, tag, req, now);
      ServedNext(history, Answered(r));
      if r.Granted? { authCount := authCount + 1; }
      history := history + [Answered(r)];
    }

    /** The chain of checks, then the signature. */
    method Decide(signerKey: Option<Address>, tag: Word, req: Request, now: nat) returns (r: Answer)
      ensures r == AuthorizeSpec(signerKey, tag, req, now)
    {
      if signerKey.None? { return Refused(KeysNotConfigured); }
      if req.plaintext.None? { return Refused(FailedToDecrypt); }
      var blob := req.plaintext.value;
      if CommitTo(blob) != req.commitment { return Refused(TermsDoNotMatch); }
      var decoded := DecodeTerms(blob);
      if decoded.None? { return Refused(MalformedTerms); }
      var terms := decoded.value;

      if req.issuedAt.None? { return Refused(IssuedAtNotInteger); }
      var issuedAt := req.issuedAt.value;
      var skew := if issuedAt > now then issuedAt - now else now - issuedAt;
      if skew > CALLER_AUTH_WINDOW_SECONDS { return Refused(CallerExpired); }

      var challenge := ChallengeOf(req, tag);
      if challenge.None? { return Refused(MalformedCallerSignature); }
      var caller := RecoverCaller(ChallengeMessage(challenge.value), req.callerSig);
      if caller.None? { return Refused(MalformedCallerSignature); }
      var permitted := if tag == SETTLE_TAG then [terms.employer] else [terms.recipient, terms.employer];
      if caller.value == 0 || caller.value !in permitted { return Refused(NotAParty); }

      var cumulativeAccrued := AccruedAt(terms, now);
      var deadline := now + AUTH_TTL_SECONDS;
      if deadline >= TWO256 { return Threw; }
      var auth := Authorization(tag, req.chainId.value, req.vault.value, req.streamId.value, req.commitment,
                                cumulativeAccrued, deadline);
      return Granted(Grant(signerKey.value, auth, blob, caller.value, challenge.value, now),
                     Ecdsa(signerKey.value, AuthMessage(auth)));
    }
  }
}
