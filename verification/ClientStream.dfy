/** How a client reads an answer through a relay it does not trust. */
module ClientStream {
  import opened Wrappers
  import opened Peers
  import opened Sealing
  import opened Frames

  datatype Told = ServedBy(peer: string) | Text(text: string) | Metered(receipt: Receipt)

  datatype Failure =
    | PeerError(message: Json)
    | Malformed
    | BadFrame(error: ProtocolError)
    | OutOfOrder
    | Unauthentic
    | ForgedEnd
    | Truncated

  /** Where the reading has got to; `told` is what the caller has been given so far. */
  datatype Reading = Reading(expected: nat, sawFinal: bool, told: seq<Told>, raised: Option<Failure>)

  function Raise(st: Reading, why: Failure): Reading {
    st.(raised := Some(why))
  }

  function Tell(st: Reading, what: Told): Reading {
    st.(told := st.told + [what])
  }

  function FeedChunk(st: Reading, c: Chunk, master: nat): Reading {
    if c.place != st.expected then Raise(st, OutOfOrder)
    else
      match UnsealChunk(c.ciphertext, master, c.place)
      case None => Raise(st, Unauthentic)
      case Some(text) =>
        var next := st.(expected := st.expected + 1);
        if c.final then (if text != "" then Raise(next, ForgedEnd) else next.(sawFinal := true))
        else if text != "" then Tell(next, Text(text))
        else next
  }

  /** One line, unless an earlier one has already ended the reading. */
  function Feed(st: Reading, f: Frame, master: nat): Reading {
    if st.raised.Some? then st
    else
      match f
      case Blank => st
      case OtherFrame => st
      case Garbled => Raise(st, Malformed)
      case ErrorFrame(message) => Raise(st, PeerError(if message.Some? then message.value else Str("peer error")))
      case ChunkFrame(fields, ciphertext) =>
        var c := ParseChunk(fields, ciphertext);
        if c.Ok? then FeedChunk(st, c.value, master) else Raise(st, BadFrame(c.error))
      case ReceiptFrame(fields) =>
        var r := ParseReceipt(fields);
        if r.Ok? then Tell(st, Metered(r.value)) else Raise(st, BadFrame(r.error))
  }

  function ReadAll(fs: seq<Frame>, master: nat): Reading {
    if fs == [] then Reading(0, false, [], None) else Feed(ReadAll(fs[..|fs| - 1], master), fs[|fs| - 1], master)
  }

  /** How the reading ends once the relay closes: an answer without its end marker is an error. */
  function Ended(st: Reading): Option<Failure> {
    if st.raised.Some? then st.raised else if !st.sawFinal then Some(Truncated) else None
  }

  lemma {:induction false} RaisedStays(fs: seq<Frame>, i: nat, master: nat)
    requires i <= |fs| && ReadAll(fs[..i], master).raised.Some?
    ensures ReadAll(fs, master) == ReadAll(fs[..i], master)
  {
    if i == |fs| {
      assert fs[..i] == fs;
    } else {
      assert fs[..|fs| - 1][..i] == fs[..i];
      RaisedStays(fs[..|fs| - 1], i, master);
    }
  }

  method Events(fs: seq<Frame>, master: nat) returns (told: seq<Told>, failure: Option<Failure>)
    ensures told == ReadAll(fs, master).told
    ensures failure == Ended(ReadAll(fs, master))
  {
    told := [];
    var expected, sawFinal := 0, false;
    for i := 0 to |fs|
      invariant ReadAll(fs[..i], master) == Reading(expected, sawFinal, told, None)
    {
      assert fs[..i + 1][..i] == fs[..i];
      failure := None;
      match fs[i] {
        case Blank =>
        case OtherFrame =>
        case Garbled => failure := Some(Malformed);
        case ErrorFrame(message) =>
          failure := Some(PeerError(if message.Some? then message.value else Str("peer error")));
        case ChunkFrame(fields, ciphertext) =>
          var c := ParseChunk(fields, ciphertext);
          if c.Err? {
            failure := Some(BadFrame(c.error));
          } else if c.value.place != expected {
            failure := Some(OutOfOrder);
          } else {
            var text := UnsealChunk(c.value.ciphertext, master, c.value.place);
            if text == None {
              failure := Some(Unauthentic);
            } else {
              expected := expected + 1;
              if c.value.final {
                if text.value != "" { failure := Some(ForgedEnd); } else { sawFinal := true; }
              } else if text.value != "" {
                told := told + [Text(text.value)];
              }
            }
          }
        case ReceiptFrame(fields) =>
          var r := ParseReceipt(fields);
          if r.Err? { failure := Some(BadFrame(r.error)); } else { told := told + [Metered(r.value)]; }
      }
      if failure.Some? {
        RaisedStays(fs, i + 1, master);
        return;
      }
    }
    assert fs[..|fs|] == fs;
    failure := if sawFinal then None else Some(Truncated);
  }

  // ---- collecting a whole response ----

  function Texts(told: seq<Told>): seq<string> {
    if told == [] then []
    else if told[|told| - 1].Text? then Texts(told[..|told| - 1]) + [told[|told| - 1].text]
    else Texts(told[..|told| - 1])
  }

  function Join(texts: seq<string>): string {
    if texts == [] then "" else Join(texts[..|texts| - 1]) + texts[|texts| - 1]
  }

  function LastReceipt(told: seq<Told>): Option<Receipt> {
    if told == [] then None
    else if told[|told| - 1].Metered? then Some(told[|told| - 1].receipt)
    else LastReceipt(told[..|told| - 1])
  }

  function LastPeer(told: seq<Told>): string {
    if told == [] then ""
    else if told[|told| - 1].ServedBy? then told[|told| - 1].peer
    else LastPeer(told[..|told| - 1])
  }

  datatype Completion = Completion(text: string, peer: string, receipt: Option<Receipt>)

  /** The peer's name comes first, then the stream's events; a failed stream gives no completion. */
  method Complete(peer: string, fs: seq<Frame>, master: nat) returns (r: Result<Completion, Failure>)
    ensures var st := ReadAll(fs, master);
            r == match Ended(st)
                 case Some(why) => Err(why)
                 case None => Ok(Completion(Join(Texts(st.told)), peer, LastReceipt(st.told)))
  {
    var events, failure := Events(fs, master);
    if failure.Some? { return Err(failure.value); }
    NoPeerInStream(fs, master);
    var told := [ServedBy(peer)] + events;
    var parts: seq<string>, meta, id := [], None, "";
    for i := 0 to |told|
      invariant parts == Texts(told[..i]) && meta == LastReceipt(told[..i]) && id == LastPeer(told[..i])
    {
      assert told[..i + 1][..i] == told[..i];
      match told[i] {
        case ServedBy(p) => id := p;
        case Text(t) => parts := parts + [t];
        case Metered(rc) => meta := Some(rc);
      }
    }
    assert told[..|told|] == told;
    PeerFirst(peer, events);
    r := Ok(Completion(Join(parts), id, meta));
  }

  lemma {:induction false} NoPeerInStream(fs: seq<Frame>, master: nat)
    ensures forall i :: 0 <= i < |ReadAll(fs, master).told| ==> !ReadAll(fs, master).told[i].ServedBy?
  {
    if fs != [] { NoPeerInStream(fs[..|fs| - 1], master); }
  }

  lemma {:induction false} PeerFirst(peer: string, events: seq<Told>)
    requires forall i :: 0 <= i < |events| ==> !events[i].ServedBy?
    ensures var told := [ServedBy(peer)] + events;
            Texts(told) == Texts(events) && LastReceipt(told) == LastReceipt(events) && LastPeer(told) == peer
  {
    var told := [ServedBy(peer)] + events;
    if events != [] {
      PeerFirst(peer, events[..|events| - 1]);
      assert told[..|told| - 1] == [ServedBy(peer)] + events[..|events| - 1];
    } else {
      assert told == [ServedBy(peer)] && told[..0] == [];
    }
  }

  // ---- whom a request is sealed to ----

  datatype LeaseReply = LeaseReply(requestId: string, peer: Json, offeredKey: Option<string>)

  datatype Refused = NoPeerId | NotOnRoster | WrongKey | WrongModel

  /** The roster's key for the assigned peer; the lease's own word on the key is only compared. */
  function Recipient(roster: seq<Peer>, reply: LeaseReply, model: string): Result<Peer, Refused> {
    if !NonEmptyText(reply.peer) then Err(NoPeerId)
    else
      match FindPeer(roster, reply.peer.s)
      case None => Err(NotOnRoster)
      case Some(p) =>
        if (if reply.offeredKey.Some? then reply.offeredKey.value else "") != p.encPub then Err(WrongKey)
        else if p.model != model then Err(WrongModel)
        else Ok(p)
  }

  function FindPeer(roster: seq<Peer>, id: PeerId): (r: Option<Peer>)
    ensures r.Some? ==> r.value in roster && r.value.id == id
    ensures r == None ==> forall p :: p in roster ==> p.id != id
  {
    if roster == [] then None else if roster[0].id == id then Some(roster[0]) else FindPeer(roster[1..], id)
  }
}
