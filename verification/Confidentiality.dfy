/** What somebody who is no party to a stream learns from the enclave: the commitment and the
ciphertext are public, so anybody can ask, but only a party's challenge gets an answer that
depends on the terms. */
module Confidentiality {
  import opened Options
  import opened Abi
  import opened Protocol
  import opened Vault
  import opened Enclave
  import opened System
  import opened Theorems

  // ---------------------------------------------------------------- one request

  /** The request carries a challenge for its own stream, commitment and purpose that a permitted
      party of the terms has signed. */
  predicate PartySigned(tag: Word, t: Terms, req: Request) {
    && ChallengeOf(req, tag).Some? && req.callerSig.Ecdsa?
    && req.callerSig.message == ChallengeMessage(ChallengeOf(req, tag).value)
    && Permitted(tag, t, req.callerSig.signer)
  }

  /** Both signatures recover an address, or neither does. */
  predicate SameShape(a: Signature, b: Signature) {
    (a.Ecdsa? && a.signer != 0) <==> (b.Ecdsa? && b.signer != 0)
  }

  /** Requests about two blobs of terms between the same parties that differ in nothing else but
      the commitment, which is right for both or wrong for both, and who signed what. */
  predicate Alike(req: Request, blob: seq<Octet>, req': Request, blob': seq<Octet>) {
    && DecodeTerms(blob).Some? && DecodeTerms(blob').Some?
    && DecodeTerms(blob).value.employer == DecodeTerms(blob').value.employer
    && DecodeTerms(blob).value.recipient == DecodeTerms(blob').value.recipient
    && req.plaintext == Some(blob) && req'.plaintext == Some(blob')
    && (req.commitment == CommitTo(blob) <==> req'.commitment == CommitTo(blob'))
    && req'.streamId == req.streamId && req'.vault == req.vault && req'.chainId == req.chainId
    && req'.issuedAt == req.issuedAt && SameShape(req.callerSig, req'.callerSig)
  }

  /** Only a party's signed challenge is granted. */
  lemma RefusedUnlessSigned(key: Option<Address>, tag: Word, req: Request, blob: seq<Octet>, now: nat)
    requires req.plaintext == Some(blob) && DecodeTerms(blob).Some? && !PartySigned(tag, DecodeTerms(blob).value, req)
    ensures AuthorizeSpec(key, tag, req, now).Refused?
  {
  }

  /** An outsider's request gets the same refusal whatever rate, total, token, start time and salt
      the terms hold: the answer says nothing about them. */
  lemma OutsiderLearnsNothing(key: Option<Address>, tag: Word, req: Request, blob: seq<Octet>, req': Request,
                              blob': seq<Octet>, now: nat)
    requires Alike(req, blob, req', blob')
    requires !PartySigned(tag, DecodeTerms(blob).value, req) && !PartySigned(tag, DecodeTerms(blob').value, req')
    ensures AuthorizeSpec(key, tag, req, now) == AuthorizeSpec(key, tag, req', now)
    ensures AuthorizeSpec(key, tag, req, now).Refused?
  {
    RefusedUnlessSigned(key, tag, req, blob, now);
    RefusedUnlessSigned(key, tag, req', blob', now);
  }

  // ---------------------------------------------------------------- whole runs

  /** A party of these terms has signed a challenge that names their commitment. */
  predicate Asked(s: Sys, blob: seq<Octet>, c: Challenge)
    requires DecodeTerms(blob).Some?
  {
    && c.commitment == CommitTo(blob)
    && (Ecdsa(DecodeTerms(blob).value.employer, ChallengeMessage(c)) in s.issued
        || Ecdsa(DecodeTerms(blob).value.recipient, ChallengeMessage(c)) in s.issued)
  }

  /** Whoever makes signatures of their own in this run is no party of these terms. */
  predicate OutsidersOnly(acts: seq<Action>, t: Terms) {
    forall a | a in acts && a.PartySigns? :: a.who != t.employer && a.who != t.recipient
  }

  lemma {:induction false} PartySignaturesOld(su: Setup, s: Sys, acts: seq<Action>, t: Terms, sig: Signature)
    requires ValidRun(su, s, acts) && OutsidersOnly(acts, t) && sig in Run(su, s, acts).issued
    requires sig.Ecdsa? && (sig.signer == t.employer || sig.signer == t.recipient)
    ensures sig in s.issued || sig.signer in su.enclaveKeys
  {
    if acts != [] {
      var front, a := acts[..|acts| - 1], acts[|acts| - 1];
      if sig in Run(su, s, front).issued {
        PartySignaturesOld(su, s, front, t, sig);
      } else if a.EnclaveRequest? {
        GrantsAreOk(Some(a.key), a.tag, a.req, Run(su, s, front).now);
      }
    }
  }

  /** A grant for these terms' commitment needed a challenge by one of their parties. */
  lemma GrantWasAsked(su: Setup, s: Sys, blob: seq<Octet>, g: Grant)
    requires Inv(su, s) && g in s.grants && g.auth.commitment == CommitTo(blob) && DecodeTerms(blob).Some?
    ensures g.challenge.commitment == CommitTo(blob) && g.caller !in su.enclaveKeys
    ensures Ecdsa(g.caller, ChallengeMessage(g.challenge)) in s.issued
    ensures g.caller == DecodeTerms(blob).value.employer || g.caller == DecodeTerms(blob).value.recipient
  {
    assert GrantOk(g);
    SameBlob(g.blob, blob);
    CallerIsNoEnclave(su, s, g);
  }

  /** Over whole runs: while no party of the terms has signed a challenge for their commitment, the
      enclave has signed nothing about it, whatever outsiders ask, sign and submit. */
  lemma NothingWithoutParty(su: Setup, s: Sys, acts: seq<Action>, blob: seq<Octet>)
    requires Reachable(su, s) && ValidRun(su, s, acts) && DecodeTerms(blob).Some?
    requires OutsidersOnly(acts, DecodeTerms(blob).value)
    requires forall c: Challenge :: !Asked(s, blob, c)
    ensures forall g | g in Run(su, s, acts).grants :: g.auth.commitment != CommitTo(blob)
  {
    var s' := Run(su, s, acts);
    ReachableExtends(su, s, acts);
    ReachableInv(su, s');
    forall g | g in s'.grants ensures g.auth.commitment != CommitTo(blob) {
      if g.auth.commitment == CommitTo(blob) {
        assert !Asked(s, blob, g.challenge);
        GrantWasAsked(su, s', blob, g);
        PartySignaturesOld(su, s, acts, DecodeTerms(blob).value, Ecdsa(g.caller, ChallengeMessage(g.challenge)));
      }
    }
  }

  /** Enclave keys sign authorizations only, never challenges. */
  lemma EnclaveSignsNoChallenge(su: Setup, s: Sys, key: Address, c: Challenge)
    requires Inv(su, s) && key in su.enclaveKeys
    ensures Ecdsa(key, ChallengeMessage(c)) !in s.issued
  {
    if Ecdsa(key, ChallengeMessage(c)) in s.issued {
      assert Covers(s.grants, key, ChallengeMessage(c));
      var g :| g in s.grants && g.key == key && AuthMessage(g.auth) == ChallengeMessage(c);
      assert GrantOk(g);
      MessagesDisjoint(g.auth, c);
    }
  }

  /** At the end of such a run no party's challenge about these terms can be presented. */
  lemma NoChallengePresented(su: Setup, s: Sys, acts: seq<Action>, tag: Word, req: Request, blob: seq<Octet>)
    requires Reachable(su, s) && ValidRun(su, s, acts) && DecodeTerms(blob).Some?
    requires OutsidersOnly(acts, DecodeTerms(blob).value)
    requires forall c: Challenge :: !Asked(s, blob, c)
    requires System.Available(Run(su, s, acts), req.callerSig) && req.commitment == CommitTo(blob)
    ensures !PartySigned(tag, DecodeTerms(blob).value, req)
  {
    var t := DecodeTerms(blob).value;
    if PartySigned(tag, t, req) {
      var c := ChallengeOf(req, tag).value;
      assert !Asked(s, blob, c);
      ReachableInv(su, s);
      RunKeepsInv(su, s, acts);
      if req.callerSig.signer in su.enclaveKeys {
        EnclaveSignsNoChallenge(su, Run(su, s, acts), req.callerSig.signer, c);
      } else {
        PartySignaturesOld(su, s, acts, t, req.callerSig);
      }
    }
  }

  /** So every request about these terms that can be made at the end of such a run changes nothing and
      is refused, with the answer that any other terms between the same parties would have got. */
  lemma PollingLearnsNothing(su: Setup, s: Sys, acts: seq<Action>, key: Address, tag: Word, req: Request,
                             blob: seq<Octet>, req': Request, blob': seq<Octet>)
    requires Reachable(su, s) && ValidRun(su, s, acts) && DecodeTerms(blob).Some?
    requires OutsidersOnly(acts, DecodeTerms(blob).value)
    requires forall c: Challenge :: !Asked(s, blob, c)
    requires Enabled(su, Run(su, s, acts), EnclaveRequest(key, tag, req)) && Alike(req, blob, req', blob')
    requires !PartySigned(tag, DecodeTerms(blob').value, req')
    ensures var s' := Run(su, s, acts);
            && AuthorizeSpec(Some(key), tag, req, s'.now).Refused?
            && AuthorizeSpec(Some(key), tag, req, s'.now) == AuthorizeSpec(Some(key), tag, req', s'.now)
            && Step(su, s', EnclaveRequest(key, tag, req)) == s'
  {
    if req.commitment == CommitTo(blob) {
      NoChallengePresented(su, s, acts, tag, req, blob);
      OutsiderLearnsNothing(Some(key), tag, req, blob, req', blob', Run(su, s, acts).now);
    }
  }
}
