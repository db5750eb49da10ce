/** How a peer answers: the engine's items sealed one by one, an explicit end, and a receipt in clear. */
module PeerStream {
  import opened Wrappers
  import opened Peers
  import opened Sealing
  import opened Frames

  datatype Item = Piece(text: string) | Usage(promptTokens: int, completionTokens: int, finishReason: string)

  /** How the engine's stream ends: cleanly, with an error it declares, or with any other exception. */
  datatype Ending = Finished | EngineFails(message: string) | Crashes

  /** What one request fixes for its answer. */
  datatype Service = Service(
    master: nat,
    requestId: string,
    promptChars: nat,
    engine: string,
    engineVersion: string,
    hwClass: string)

  /** A guess from the number of characters, at least one token for any text. */
  function EstimateTokens(chars: nat): (tokens: nat)
    ensures chars < 4 ==> tokens == if chars == 0 then 0 else 1
    ensures chars >= 4 ==> 4 * tokens <= chars < 4 * tokens + 4
  {
    if chars == 0 then 0 else if chars / 4 >= 1 then chars / 4 else 1
  }

  /** The engine's non-empty texts, in order. */
  function Pieces(items: seq<Item>): (ps: seq<string>)
    ensures forall i :: 0 <= i < |ps| ==> ps[i] != ""
  {
    if items == [] then []
    else
      var before, item := Pieces(items[..|items| - 1]), items[|items| - 1];
      if item.Piece? && item.text != "" then before + [item.text] else before
  }

  function Chars(pieces: seq<string>): nat {
    if pieces == [] then 0 else Chars(pieces[..|pieces| - 1]) + |pieces[|pieces| - 1]|
  }

  /** The engine's last word on usage. */
  function Reported(items: seq<Item>): Option<Item> {
    if items == [] then None
    else if items[|items| - 1].Usage? then Some(items[|items| - 1])
    else Reported(items[..|items| - 1])
  }

  lemma {:induction false} ReportedIsUsage(items: seq<Item>)
    ensures Reported(items).Some? ==> Reported(items).value.Usage?
  {
    if items != [] { ReportedIsUsage(items[..|items| - 1]); }
  }

  function ReceiptFor(sv: Service, reported: Option<Item>, produced: nat): Receipt
    requires reported.Some? ==> reported.value.Usage?
  {
    var prompt := if reported.Some? && reported.value.promptTokens != 0 then reported.value.promptTokens else EstimateTokens(sv.promptChars);
    var completion := if reported.Some? && reported.value.completionTokens != 0 then reported.value.completionTokens else EstimateTokens(produced);
    Receipt(sv.requestId, prompt, completion, Str(sv.engine), Str(sv.engineVersion), Str(sv.hwClass),
            if reported.Some? then reported.value.finishReason else "")
  }

  /** Every plaintext the peer seals, in order: the pieces, and an empty one to mark a clean end. */
  function Plaintexts(items: seq<Item>, ending: Ending): (ts: seq<string>)
    ensures |ts| <= SEQ_LIMIT
  {
    var ps := Pieces(items);
    if |ps| > SEQ_LIMIT then ps[..SEQ_LIMIT]
    else if ending.Finished? && |ps| < SEQ_LIMIT then ps + [""]
    else ps
  }

  /** The whole answer was sealed, end marker included. */
  predicate Whole(items: seq<Item>, ending: Ending) {
    ending.Finished? && |Pieces(items)| < SEQ_LIMIT
  }

  function CipherAt(sv: Service, text: string, place: nat): Cipher
    requires place < SEQ_LIMIT
  {
    SealChunk(text, sv.master, place).value
  }

  function ChunkFor(sv: Service, text: string, place: nat, final: bool): Frame
    requires place < SEQ_LIMIT
  {
    ChunkLine(Chunk(sv.requestId, place, CipherAt(sv, text, place), final))
  }

  function PieceFrames(sv: Service, pieces: seq<string>): seq<Frame>
    requires |pieces| <= SEQ_LIMIT
  {
    seq(|pieces|, i requires 0 <= i < |pieces| => ChunkFor(sv, pieces[i], i, false))
  }

  /** Every line of the answer. Past the nonce range the answer breaks off without a word. */
  function Produced(sv: Service, items: seq<Item>, ending: Ending): seq<Frame> {
    var ps := Pieces(items);
    if |ps| > SEQ_LIMIT then PieceFrames(sv, ps[..SEQ_LIMIT])
    else
      match ending
      case EngineFails(message) => PieceFrames(sv, ps) + [ErrorFrame(Some(Str(message)))]
      case Crashes => PieceFrames(sv, ps)
      case Finished =>
        if |ps| == SEQ_LIMIT then PieceFrames(sv, ps)
        else
          ReportedIsUsage(items);
          PieceFrames(sv, ps) + [ChunkFor(sv, "", |ps|, true), ReceiptLine(ReceiptFor(sv, Reported(items), Chars(ps)))]
  }

  lemma PieceAdded(sv: Service, ps: seq<string>, text: string)
    requires |ps| < SEQ_LIMIT
    ensures PieceFrames(sv, ps + [text]) == PieceFrames(sv, ps) + [ChunkFor(sv, text, |ps|, false)]
  {
    var more := ps + [text];
    var fs, gs := PieceFrames(sv, more), PieceFrames(sv, ps);
    forall i | 0 <= i < |ps| ensures fs[i] == gs[i] {
      assert more[i] == ps[i];
    }
    assert fs[|ps|] == ChunkFor(sv, more[|ps|], |ps|, false);
  }

  lemma CharsAdded(ps: seq<string>, text: string)
    ensures Chars(ps + [text]) == Chars(ps) + |text|
  {
    assert (ps + [text])[..|ps|] == ps;
  }

  lemma OneMoreItem(items: seq<Item>, i: nat)
    requires i < |items|
    ensures Pieces(items[..i + 1]) ==
            if items[i].Piece? && items[i].text != "" then Pieces(items[..i]) + [items[i].text] else Pieces(items[..i])
    ensures Reported(items[..i + 1]) == if items[i].Usage? then Some(items[i]) else Reported(items[..i])
  {
    assert items[..i + 1][..i] == items[..i];
  }

  /** Too many pieces: the answer breaks off at the last that could be sealed. */
  lemma BreaksOff(sv: Service, items: seq<Item>, ending: Ending, i: nat)
    requires i < |items| && items[i].Piece? && items[i].text != "" && |Pieces(items[..i])| == SEQ_LIMIT
    ensures Produced(sv, items, ending) == PieceFrames(sv, Pieces(items[..i]))
  {
    OneMoreItem(items, i);
    PiecesGrow(items, i + 1);
    assert Pieces(items)[..SEQ_LIMIT] == Pieces(items[..i]);
  }

  method Answer(sv: Service, items: seq<Item>, ending: Ending) returns (frames: seq<Frame>)
    ensures frames == Produced(sv, items, ending)
  {
    frames := [];
    var place, produced, reported := 0, 0, None;
    for i := 0 to |items|
      invariant place == |Pieces(items[..i])| <= SEQ_LIMIT
      invariant frames == PieceFrames(sv, Pieces(items[..i]))
      invariant produced == Chars(Pieces(items[..i]))
      invariant reported == Reported(items[..i]) && (reported.Some? ==> reported.value.Usage?)
    {
      OneMoreItem(items, i);
      if items[i].Usage? {
        reported := Some(items[i]);
      } else if items[i].text != "" {
        var text := items[i].text;
        var sealed := SealChunk(text, sv.master, place);
        if sealed == None {
          BreaksOff(sv, items, ending, i);
          return;
        }
        PieceAdded(sv, Pieces(items[..i]), text);
        CharsAdded(Pieces(items[..i]), text);
        produced := produced + |text|;
        frames := frames + [ChunkLine(Chunk(sv.requestId, place, sealed.value, false))];
        place := place + 1;
      }
    }
    assert items[..|items|] == items;
    match ending {
      case EngineFails(message) => frames := frames + [ErrorFrame(Some(Str(message)))];
      case Crashes =>
      case Finished =>
        var sealed := SealChunk("", sv.master, place);
        if sealed.Some? {
          frames := frames + [ChunkLine(Chunk(sv.requestId, place, sealed.value, true)),
                              ReceiptLine(ReceiptFor(sv, reported, produced))];
        }
    }
  }

  lemma {:induction false} PiecesGrow(items: seq<Item>, i: nat)
    requires i <= |items|
    ensures Pieces(items[..i]) <= Pieces(items)
    decreases |items|
  {
    if i < |items| {
      PiecesGrow(items[..|items| - 1], i);
      assert items[..|items| - 1][..i] == items[..i];
    } else {
      assert items[..i] == items;
    }
  }
}
