/** The seen-set as an object, and the order of checks a signed control request goes through. */
module Auth {
  import opened Wrappers
  import opened Peers
  import opened Frames
  import opened Replay

  class NonceCache {
    const ttl: real
    const maxEntries: int
    var seen: seq<Entry>

    constructor (ttl: real, maxEntries: int)
      ensures this.ttl == ttl && this.maxEntries == maxEntries && seen == []
    {
      this.ttl, this.maxEntries, seen := ttl, maxEntries, [];
    }

    method Prune(now: real)
      modifies this
      ensures seen == Unexpired(old(seen), now)
    {
      var kept := [];
      for i := 0 to |seen|
        invariant seen == old(seen) && kept == Unexpired(seen[..i], now)
      {
        assert seen[..i + 1][..i] == seen[..i];
        if seen[i].expires > now { kept := kept + [seen[i]]; }
      }
      assert seen[..|seen|] == seen;
      seen := kept;
    }

    method Contains(value: string) returns (found: bool)
      ensures found <==> Has(seen, value)
    {
      found := false;
      for i := 0 to |seen|
        invariant forall j :: 0 <= j < i ==> seen[j].value != value
      {
        if seen[i].value == value { return true; }
      }
    }

    method Oldest() returns (best: nat)
      requires seen != []
      ensures best == Soonest(seen)
    {
      best := 0;
      for i := 1 to |seen|
        invariant best == Soonest(seen[..i])
      {
        assert seen[..i + 1][..i] == seen[..i];
        if seen[i].expires < seen[best].expires { best := i; }
      }
      assert seen[..|seen|] == seen;
    }

    method CheckAndAdd(value: string, now: real) returns (v: Verdict)
      modifies this
      ensures (seen, v) == Replay.CheckAndAdd(old(seen), ttl, maxEntries, value, now)
    {
      if seen != [] { Prune(now); }
      var found := Contains(value);
      if found { return Replayed; }
      if |seen| >= maxEntries {
        if seen == [] { return Crashed; }
        var i := Oldest();
        seen := seen[..i] + seen[i + 1..];
      }
      seen := seen + [Entry(value, now + ttl)];
      v := Accepted;
    }
  }

  // ---- a signed control request ----

  /** Signatures are ideal: one verifies only under its signer's key and over its own payload. */
  datatype Payload = Payload(memberId: MemberId, nonce: string, ts: Stamp, body: Json)

  datatype Signature = Signed(key: string, payload: Payload) | Scribble

  /** A request as parsed; no timestamp means it is missing or no number, no signature that it is missing or empty. */
  datatype Doc = NotAnObject | Doc(memberId: Json, nonce: Json, sig: Option<Signature>, ts: Option<Stamp>, body: Json)

  datatype AuthError = Shape | NotFresh(why: Staleness) | UnknownMember | BadSignature | ReplayedNonce | CacheFailed

  datatype Caller = Caller(member: MemberId, body: Json)

  predicate WellShaped(d: Doc) {
    d.Doc? && NonEmptyText(d.memberId) && NonEmptyText(d.nonce) && d.sig.Some? && d.ts.Some? && d.body.Obj?
  }

  function PayloadOf(d: Doc): Payload
    requires WellShaped(d)
  {
    Payload(d.memberId.s, d.nonce.s, d.ts.value, d.body)
  }

  /** Everything that is checked before the nonce is looked up, in order. */
  function Precheck(d: Doc, keys: map<MemberId, string>, maxAge: real, now: real): Option<AuthError> {
    if !WellShaped(d) then Some(Shape)
    else
      match CheckFresh(d.ts.value, now, maxAge)
      case Some(why) => Some(NotFresh(why))
      case None =>
        if d.memberId.s !in keys then Some(UnknownMember)
        else if d.sig.value != Signed(keys[d.memberId.s], PayloadOf(d)) then Some(BadSignature)
        else None
  }

  /** A recent request that a member signed, every field of it. */
  ghost predicate Authentic(d: Doc, keys: map<MemberId, string>, maxAge: real, now: real) {
    exists m: MemberId, nonce: string, ts: real, body: Json ::
      && d == SignedDoc(keys, m, nonce, ts, body)
      && m in keys && m != "" && nonce != "" && body.Obj? && -30.0 <= now - ts <= maxAge
  }

  /** What a member's own client sends. */
  function SignedDoc(keys: map<MemberId, string>, m: MemberId, nonce: string, ts: real, body: Json): Doc {
    var key := if m in keys then keys[m] else "";
    Doc(Str(m), Str(nonce), Some(Signed(key, Payload(m, nonce, At(ts), body))), Some(At(ts)), body)
  }

  lemma PrecheckExactly(d: Doc, keys: map<MemberId, string>, maxAge: real, now: real)
    ensures Precheck(d, keys, maxAge, now) == None <==> Authentic(d, keys, maxAge, now)
  {
    if Precheck(d, keys, maxAge, now) == None {
      var p := PayloadOf(d);
      assert d == SignedDoc(keys, p.memberId, p.nonce, p.ts.t, p.body);
    }
  }

  /** Only a recent, member-signed request ever reaches the seen-set; one that does is spent there. */
  method VerifySignedRequest(d: Doc, keys: map<MemberId, string>, nonces: NonceCache, maxAge: real, freshAt: real, at: real)
    returns (r: Result<Caller, AuthError>)
    modifies nonces
    ensures !Authentic(d, keys, maxAge, freshAt) ==> nonces.seen == old(nonces.seen) && r.Err?
    ensures Authentic(d, keys, maxAge, freshAt) ==>
              var (seen, v) := Replay.CheckAndAdd(old(nonces.seen), nonces.ttl, nonces.maxEntries, d.nonce.s, at);
              && nonces.seen == seen
              && r == match v
                      case Accepted => Ok(Caller(d.memberId.s, d.body))
                      case Replayed => Err(ReplayedNonce)
                      case Crashed => Err(CacheFailed)
    ensures Precheck(d, keys, maxAge, freshAt).Some? ==> r == Err(Precheck(d, keys, maxAge, freshAt).value)
  {
    PrecheckExactly(d, keys, maxAge, freshAt);
    if !WellShaped(d) { return Err(Shape); }
    var stale := CheckFresh(d.ts.value, freshAt, maxAge);
    if stale.Some? { return Err(NotFresh(stale.value)); }
    if d.memberId.s !in keys { return Err(UnknownMember); }
    if d.sig.value != Signed(keys[d.memberId.s], PayloadOf(d)) { return Err(BadSignature); }
    var v := nonces.CheckAndAdd(d.nonce.s, at);
    match v {
      case Accepted => r := Ok(Caller(d.memberId.s, d.body));
      case Replayed => r := Err(ReplayedNonce);
      case Crashed => r := Err(CacheFailed);
    }
  }
}
