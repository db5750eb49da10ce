/** Loading a roster: who must have signed it, and what the rest of the coordinator may then assume. */
module RosterLoad {
  import opened Wrappers
  import opened Peers
  import opened TextOrder
  import opened Roster
  import opened RosterLaws
  import Ledgers
  import Registry

  /** An administrator's key, pinned locally when joining; listed in the order they are tried. */
  datatype Pinned = Pinned(admin: MemberId, key: string)

  /** Whether a signature over a body verifies under a key: the primitive itself, left to the caller. */
  type Verifier = (map<string, Json>, Json, string) -> bool

  /** Does one of the signatures verify? One that is not even text cannot be examined. */
  function SignedUnder(body: map<string, Json>, sigs: seq<Json>, key: string, verifies: Verifier): Result<bool, Flaw> {
    if sigs == [] then Ok(false)
    else if !sigs[0].Str? then Err(Crashes)
    else if verifies(body, sigs[0], key) then Ok(true)
    else SignedUnder(body, sigs[1..], key, verifies)
  }

  /** The first pinned key with a valid signature decides; its holder must be an administrator. */
  function TrustedSigner(body: map<string, Json>, r: Roster, pinned: seq<Pinned>, verifies: Verifier): Result<MemberId, Flaw> {
    if pinned == [] then Err(Rejected("signatures"))
    else
      var signed :- SignedUnder(body, r.signatures, pinned[0].key, verifies);
      if !signed then TrustedSigner(body, r, pinned[1..], verifies)
      else if pinned[0].admin in r.admins then Ok(pinned[0].admin)
      else Err(Rejected("signatures"))
  }

  ghost function Check(r: Roster, pinned: seq<Pinned>, previous: Option<int>, verifies: Verifier): Option<Flaw> {
    if previous.Some? && r.version <= previous.value then Some(Rejected("roster_version"))
    else if pinned == [] || r.signatures == [] then Some(Rejected("signatures"))
    else
      var signer := TrustedSigner(Body(r), r, pinned, verifies);
      if signer.Ok? then None else Some(signer.error)
  }

  ghost function Load(j: Json, pinned: seq<Pinned>, previous: Option<int>, verifies: Verifier): Result<Roster, Flaw> {
    var r :- Parse(j);
    var flaw := Check(r, pinned, previous, verifies);
    if flaw.Some? then Err(flaw.value) else Ok(r)
  }

  /** Some signature verifies, and every one examined up to it is text. */
  ghost predicate Signed(body: map<string, Json>, sigs: seq<Json>, key: string, verifies: Verifier) {
    exists i :: 0 <= i < |sigs| && FoundAt(body, sigs, key, verifies, i)
  }

  ghost predicate FoundAt(body: map<string, Json>, sigs: seq<Json>, key: string, verifies: Verifier, i: nat)
    requires i < |sigs|
  {
    verifies(body, sigs[i], key) && forall j :: 0 <= j <= i ==> sigs[j].Str?
  }

  /** All of them are text and none verifies. */
  ghost predicate Unsigned(body: map<string, Json>, sigs: seq<Json>, key: string, verifies: Verifier) {
    forall i :: 0 <= i < |sigs| ==> sigs[i].Str? && !verifies(body, sigs[i], key)
  }

  /** Some pinned administrator of `r` signed it, and no key pinned before theirs did. */
  ghost predicate Vouched(body: map<string, Json>, r: Roster, pinned: seq<Pinned>, verifies: Verifier) {
    exists k :: 0 <= k < |pinned| && FirstSigner(body, r, pinned, verifies, k)
  }

  ghost predicate FirstSigner(body: map<string, Json>, r: Roster, pinned: seq<Pinned>, verifies: Verifier, k: nat)
    requires k < |pinned|
  {
    && pinned[k].admin in r.admins && Signed(body, r.signatures, pinned[k].key, verifies)
    && forall i :: 0 <= i < k ==> Unsigned(body, r.signatures, pinned[i].key, verifies)
  }

  lemma SignedHere(body: map<string, Json>, sigs: seq<Json>, key: string, verifies: Verifier)
    requires sigs != [] && sigs[0].Str?
    ensures Signed(body, sigs, key, verifies) <==> verifies(body, sigs[0], key) || Signed(body, sigs[1..], key, verifies)
  {
    if verifies(body, sigs[0], key) { assert FoundAt(body, sigs, key, verifies, 0); }
    if i: nat :| i < |sigs| && FoundAt(body, sigs, key, verifies, i) {
      if i > 0 {
        assert forall j :: 0 <= j < i ==> sigs[1..][j] == sigs[j + 1];
        assert FoundAt(body, sigs[1..], key, verifies, i - 1);
      }
    }
    if i: nat :| i < |sigs[1..]| && FoundAt(body, sigs[1..], key, verifies, i) {
      assert forall j :: 0 < j <= i + 1 ==> sigs[j] == sigs[1..][j - 1];
      assert FoundAt(body, sigs, key, verifies, i + 1);
    }
  }

  lemma {:induction false} SignedUnderIs(body: map<string, Json>, sigs: seq<Json>, key: string, verifies: Verifier)
    ensures SignedUnder(body, sigs, key, verifies) == Ok(true) <==> Signed(body, sigs, key, verifies)
    ensures SignedUnder(body, sigs, key, verifies) == Ok(false) <==> Unsigned(body, sigs, key, verifies)
  {
    if sigs != [] {
      SignedUnderIs(body, sigs[1..], key, verifies);
      if sigs[0].Str? { SignedHere(body, sigs, key, verifies); }
      assert Unsigned(body, sigs, key, verifies) <==>
             sigs[0].Str? && !verifies(body, sigs[0], key) && Unsigned(body, sigs[1..], key, verifies) by {
        assert forall i :: 0 < i < |sigs| ==> sigs[i] == sigs[1..][i - 1];
        assert forall i :: 0 <= i < |sigs[1..]| ==> sigs[1..][i] == sigs[i + 1];
      }
    }
  }

  lemma LaterSigner(body: map<string, Json>, r: Roster, pinned: seq<Pinned>, verifies: Verifier)
    requires pinned != [] && !Signed(body, r.signatures, pinned[0].key, verifies)
    ensures Vouched(body, r, pinned, verifies) <==>
            Unsigned(body, r.signatures, pinned[0].key, verifies) && Vouched(body, r, pinned[1..], verifies)
  {
    if k: nat :| k < |pinned| && FirstSigner(body, r, pinned, verifies, k) {
      assert k > 0 && pinned[1..][k - 1] == pinned[k];
      assert forall i :: 0 <= i < k - 1 ==> pinned[1..][i] == pinned[i + 1];
      assert FirstSigner(body, r, pinned[1..], verifies, k - 1);
    }
    if Unsigned(body, r.signatures, pinned[0].key, verifies) {
      if k: nat :| k < |pinned[1..]| && FirstSigner(body, r, pinned[1..], verifies, k) {
        assert forall i :: 0 < i <= k ==> pinned[i] == pinned[1..][i - 1];
        assert FirstSigner(body, r, pinned, verifies, k + 1);
      }
    }
  }

  lemma {:induction false} TrustedSignerIs(body: map<string, Json>, r: Roster, pinned: seq<Pinned>, verifies: Verifier)
    ensures TrustedSigner(body, r, pinned, verifies).Ok? <==> Vouched(body, r, pinned, verifies)
  {
    if pinned != [] {
      SignedUnderIs(body, r.signatures, pinned[0].key, verifies);
      TrustedSignerIs(body, r, pinned[1..], verifies);
      if Signed(body, r.signatures, pinned[0].key, verifies) {
        SignedIsNotUnsigned(body, r.signatures, pinned[0].key, verifies);
        assert pinned[0].admin in r.admins ==> FirstSigner(body, r, pinned, verifies, 0);
      } else {
        LaterSigner(body, r, pinned, verifies);
      }
    }
  }

  lemma SignedIsNotUnsigned(body: map<string, Json>, sigs: seq<Json>, key: string, verifies: Verifier)
    requires Signed(body, sigs, key, verifies)
    ensures !Unsigned(body, sigs, key, verifies)
  {
  }

  lemma NobodyVouches(body: map<string, Json>, r: Roster, pinned: seq<Pinned>, verifies: Verifier)
    requires pinned == [] || r.signatures == []
    ensures !Vouched(body, r, pinned, verifies)
  {
  }

  lemma ChecksExactly(r: Roster, pinned: seq<Pinned>, previous: Option<int>, verifies: Verifier)
    ensures Check(r, pinned, previous, verifies) == None <==>
            (previous.Some? ==> r.version > previous.value) && Vouched(Body(r), r, pinned, verifies)
  {
    TrustedSignerIs(Body(r), r, pinned, verifies);
    if pinned == [] || r.signatures == [] { NobodyVouches(Body(r), r, pinned, verifies); }
  }

  /**
   A document loads if and only if it parses, is newer than what is held, and a pinned administrator
   it lists is the first pinned key to have signed it, no signature that is not text being met before
   theirs.
   */
  lemma LoadsExactly(j: Json, r: Roster, pinned: seq<Pinned>, previous: Option<int>, verifies: Verifier)
    ensures Load(j, pinned, previous, verifies) == Ok(r) <==>
            && Parse(j) == Ok(r) && (previous.Some? ==> r.version > previous.value)
            && Vouched(Body(r), r, pinned, verifies)
  {
    ChecksExactly(r, pinned, previous, verifies);
  }

  /** The registry's settings for a loaded roster, in any order of its peers, are well formed. */
  lemma ParsedConfigIsWellFormed(j: Json, order: seq<PeerId>, timeout: real, leaseTtl: real, maxQueue: int)
    requires Parse(j).Ok? && Ledgers.Distinct(order) && forall p :: p in Parse(j).value.peers <==> p in order
    ensures Registry.WellFormed(Registry.Config(Parse(j).value.peers, order, timeout, leaseTtl, maxQueue))
  {
    ParseIsSound(j);
    var r := Parse(j).value;
    forall p | p in r.peers ensures r.peers[p].id == p && WellFormedPeer(r.peers[p]) {
      assert PeerKey(r.peers[p]) == p && SoundPeer(r.peers[p]);
    }
  }
}
