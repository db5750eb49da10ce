/**
 What a client can rely on when everything between it and the peer may be dropped, repeated,
 reordered, relabelled or invented, short of a new chunk sealed under the response key.
 */
module StreamLaws {
  import opened Wrappers
  import opened Peers
  import opened Sealing
  import opened Frames
  import opened PeerStream
  import opened ClientStream

  // ---- what the peer sealed ----

  predicate SealedAs(sv: Service, ts: seq<string>, place: nat, c: Cipher)
    requires |ts| <= SEQ_LIMIT
  {
    place < |ts| && c == CipherAt(sv, ts[place], place)
  }

  ghost predicate Genuine(sv: Service, ts: seq<string>, c: Cipher)
    requires |ts| <= SEQ_LIMIT
  {
    exists place: nat :: SealedAs(sv, ts, place, c)
  }

  /** Some line of the answer carries `c`. */
  ghost predicate Carries(frames: seq<Frame>, c: Cipher) {
    exists i :: 0 <= i < |frames| && frames[i].ChunkFrame? && frames[i].ciphertext == Some(c)
  }

  /** The chunks the peer puts out are its plaintexts, each sealed once at its own place. */
  lemma ProducedIsGenuine(sv: Service, items: seq<Item>, ending: Ending, c: Cipher)
    ensures Carries(Produced(sv, items, ending), c) <==> Genuine(sv, Plaintexts(items, ending), c)
  {
    var fs, ts := Produced(sv, items, ending), Plaintexts(items, ending);
    forall i | 0 <= i < |ts|
      ensures i < |fs| && fs[i].ChunkFrame? && fs[i].ciphertext == Some(CipherAt(sv, ts[i], i))
    {
    }
    if Carries(fs, c) {
      var i :| 0 <= i < |fs| && fs[i].ChunkFrame? && fs[i].ciphertext == Some(c);
      assert SealedAs(sv, ts, i, c);
    }
    if Genuine(sv, ts, c) {
      var place: nat :| SealedAs(sv, ts, place, c);
      assert fs[place].ciphertext == Some(c);
    }
  }

  function NonceOf(f: Frame): seq<byte> {
    if f.ChunkFrame? && f.ciphertext.Some? && f.ciphertext.value.Sealed? then f.ciphertext.value.nonce else []
  }

  /** One response never seals two chunks under one nonce: each sequence number is used exactly once. */
  lemma NoncesUsedOnce(sv: Service, items: seq<Item>, ending: Ending, i: nat, j: nat)
    requires i < j < |Produced(sv, items, ending)|
    requires Produced(sv, items, ending)[i].ChunkFrame? && Produced(sv, items, ending)[j].ChunkFrame?
    ensures NonceOf(Produced(sv, items, ending)[i]) != NonceOf(Produced(sv, items, ending)[j])
    ensures j < |Plaintexts(items, ending)|
  {
    if ChunkNonce(i) == ChunkNonce(j) { NoncesDiffer(i, j); }
  }

  // ---- what a relay can do ----

  /** Every ciphertext under the response key in `fs` is one the peer put out. */
  ghost predicate Relayed(sv: Service, items: seq<Item>, ending: Ending, fs: seq<Frame>) {
    forall i :: 0 <= i < |fs| ==> NotForged(sv, items, ending, fs[i])
  }

  ghost predicate NotForged(sv: Service, items: seq<Item>, ending: Ending, f: Frame) {
    f.ChunkFrame? && f.ciphertext.Some? && f.ciphertext.value.Sealed? && f.ciphertext.value.key == Key(sv.master, ForResponse)
    ==> Carries(Produced(sv, items, ending), f.ciphertext.value)
  }

  /** So a relayed chunk opens only at the place, and to the text, the peer sealed it for. */
  lemma OpensToPlaintext(sv: Service, items: seq<Item>, ending: Ending, f: Frame, place: nat)
    requires f.ChunkFrame? && f.ciphertext.Some? && NotForged(sv, items, ending, f)
    ensures var ts, text := Plaintexts(items, ending), UnsealChunk(f.ciphertext.value, sv.master, place);
            && (text.Some? <==> SealedAs(sv, ts, place, f.ciphertext.value))
            && (text.Some? ==> text.value == ts[place])
  {
    var c, ts := f.ciphertext.value, Plaintexts(items, ending);
    if UnsealChunk(c, sv.master, place).Some? {
      ProducedIsGenuine(sv, items, ending, c);
      var at: nat :| SealedAs(sv, ts, at, c);
      OpensInPlaceOnly(ts[at], sv.master, at, sv.master, place);
    } else if SealedAs(sv, ts, place, c) {
      OpensInPlaceOnly(ts[place], sv.master, place, sv.master, place);
    }
  }

  // ---- which relayed streams are read to the end ----

  function Chunks(fs: seq<Frame>): seq<Frame> {
    if fs == [] then []
    else if fs[|fs| - 1].ChunkFrame? then Chunks(fs[..|fs| - 1]) + [fs[|fs| - 1]]
    else Chunks(fs[..|fs| - 1])
  }

  /** A line that is no chunk and stops nobody. */
  predicate Quiet(f: Frame) {
    f.Blank? || f.OtherFrame? || (f.ReceiptFrame? && ParseReceipt(f.fields).Ok?)
  }

  /** `f` is the peer's chunk for `place`, and claims to be the end only if it is. */
  predicate InPlace(sv: Service, items: seq<Item>, ending: Ending, f: Frame, place: nat) {
    f.ChunkFrame? &&
    var ts, c := Plaintexts(items, ending), ParseChunk(f.fields, f.ciphertext);
    c.Ok? && c.value.place == place && SealedAs(sv, ts, place, c.value.ciphertext) && (c.value.final ==> ts[place] == "")
  }

  predicate Orderly(sv: Service, items: seq<Item>, ending: Ending, fs: seq<Frame>) {
    fs == [] ||
    (var before, f := fs[..|fs| - 1], fs[|fs| - 1];
     Orderly(sv, items, ending, before) && (Quiet(f) || InPlace(sv, items, ending, f, |Chunks(before)|)))
  }

  predicate ClaimsEnd(f: Frame) {
    f.ChunkFrame? && ParseChunk(f.fields, f.ciphertext).Ok? && ParseChunk(f.fields, f.ciphertext).value.final
  }

  function NonEmpty(ts: seq<string>): seq<string> {
    if ts == [] then []
    else if ts[|ts| - 1] == "" then NonEmpty(ts[..|ts| - 1])
    else NonEmpty(ts[..|ts| - 1]) + [ts[|ts| - 1]]
  }

  /** Only the end marker of a whole answer is empty. */
  lemma EmptyIsLast(items: seq<Item>, ending: Ending, place: nat)
    requires place < |Plaintexts(items, ending)|
    ensures Plaintexts(items, ending)[place] == "" <==> Whole(items, ending) && place == |Pieces(items)|
  {
  }

  /** The state of a reading that nothing has stopped. */
  ghost predicate OnTrack(items: seq<Item>, ending: Ending, fs: seq<Frame>, st: Reading) {
    var ts, cs := Plaintexts(items, ending), Chunks(fs);
    && st.expected == |cs| <= |ts|
    && Texts(st.told) == NonEmpty(ts[..|cs|])
    && (st.sawFinal <==> cs != [] && ClaimsEnd(cs[|cs| - 1]) && |cs| == |ts| && Whole(items, ending))
  }

  /** A relayed stream is read without an error so far exactly when it is in order. */
  lemma {:induction false} ReadsExactly(sv: Service, items: seq<Item>, ending: Ending, fs: seq<Frame>)
    requires Relayed(sv, items, ending, fs)
    ensures ReadAll(fs, sv.master).raised == None <==> Orderly(sv, items, ending, fs)
    ensures Orderly(sv, items, ending, fs) ==> OnTrack(items, ending, fs, ReadAll(fs, sv.master))
  {
    if fs != [] {
      var before, f := fs[..|fs| - 1], fs[|fs| - 1];
      ReadsExactly(sv, items, ending, before);
      assert NotForged(sv, items, ending, f);
      if Orderly(sv, items, ending, before) {
        if f.ChunkFrame? {
          ChunkReadsExactly(sv, items, ending, before, f, ReadAll(before, sv.master));
          assert fs == before + [f];
        } else {
          QuietKeepsTrack(sv, items, ending, before, f);
        }
      }
    }
  }

  lemma QuietKeepsTrack(sv: Service, items: seq<Item>, ending: Ending, before: seq<Frame>, f: Frame)
    requires !f.ChunkFrame? && ReadAll(before, sv.master).raised == None && OnTrack(items, ending, before, ReadAll(before, sv.master))
    ensures var st := Feed(ReadAll(before, sv.master), f, sv.master);
            && (st.raised == None <==> Quiet(f))
            && (Quiet(f) ==> OnTrack(items, ending, before, st))
  {
  }

  /** What the client makes of a relayed chunk, in the peer's terms. */
  lemma ChunkFeeds(sv: Service, items: seq<Item>, ending: Ending, f: Frame, st: Reading)
    requires f.ChunkFrame? && NotForged(sv, items, ending, f) && st.raised == None
    ensures var ts, n, next := Plaintexts(items, ending), st.expected, Feed(st, f, sv.master);
            && (next.raised == None <==> InPlace(sv, items, ending, f, n))
            && (next.raised == None ==>
                  && next.expected == n + 1
                  && next.sawFinal == (st.sawFinal || ClaimsEnd(f))
                  && next.told == if ts[n] == "" then st.told else st.told + [Text(ts[n])])
  {
    if f.ciphertext.Some? {
      OpensToPlaintext(sv, items, ending, f, st.expected);
    }
  }

  lemma ChunkStaysOnTrack(items: seq<Item>, ending: Ending, before: seq<Frame>, f: Frame, st: Reading, next: Reading)
    requires OnTrack(items, ending, before, st) && f.ChunkFrame?
    requires var ts, n := Plaintexts(items, ending), |Chunks(before)|;
             && n < |ts| && (ClaimsEnd(f) ==> ts[n] == "")
             && next.expected == n + 1 && next.sawFinal == (st.sawFinal || ClaimsEnd(f))
             && next.told == if ts[n] == "" then st.told else st.told + [Text(ts[n])]
    ensures OnTrack(items, ending, before + [f], next)
  {
    var ts, n := Plaintexts(items, ending), |Chunks(before)|;
    EmptyIsLast(items, ending, n);
    assert (before + [f])[..|before|] == before;
    assert ts[..n + 1][..n] == ts[..n];
    assert ts[n] != "" ==> next.told[..|st.told|] == st.told;
  }

  lemma ChunkReadsExactly(sv: Service, items: seq<Item>, ending: Ending, before: seq<Frame>, f: Frame, st: Reading)
    requires f.ChunkFrame? && NotForged(sv, items, ending, f)
    requires st.raised == None && OnTrack(items, ending, before, st)
    ensures var next := Feed(st, f, sv.master);
            && (next.raised == None <==> InPlace(sv, items, ending, f, |Chunks(before)|))
            && (next.raised == None ==> OnTrack(items, ending, before + [f], next))
  {
    ChunkFeeds(sv, items, ending, f, st);
    if InPlace(sv, items, ending, f, |Chunks(before)|) {
      ChunkStaysOnTrack(items, ending, before, f, st, Feed(st, f, sv.master));
    }
  }

  // ---- the main results ----

  lemma {:induction false} NonEmptyPieces(ps: seq<string>)
    requires forall i :: 0 <= i < |ps| ==> ps[i] != ""
    ensures NonEmpty(ps) == ps
  {
    if ps != [] { NonEmptyPieces(ps[..|ps| - 1]); }
  }

  lemma PrefixOfPieces(items: seq<Item>, ending: Ending, n: nat)
    requires n <= |Plaintexts(items, ending)|
    ensures NonEmpty(Plaintexts(items, ending)[..n]) == if n <= |Pieces(items)| then Pieces(items)[..n] else Pieces(items)
  {
    var ps, ts := Pieces(items), Plaintexts(items, ending);
    if n <= |ps| {
      assert ts[..n] == ps[..n];
      NonEmptyPieces(ps[..n]);
    } else {
      assert ts[..n] == ps + [""] && (ps + [""])[..|ps|] == ps;
      NonEmptyPieces(ps);
    }
  }

  /** The relayed stream is in order and carries every chunk, the last one marked final. */
  predicate Complete(sv: Service, items: seq<Item>, ending: Ending, fs: seq<Frame>) {
    && Orderly(sv, items, ending, fs) && Whole(items, ending)
    && |Chunks(fs)| == |Pieces(items)| + 1 && ClaimsEnd(Chunks(fs)[|Pieces(items)|])
  }

  /**
   Whatever the relay does, a reading ends without an error if and only if the peer sealed a whole
   answer and every chunk of it arrived, in order, with only the true end marked final.
   */
  lemma FinishesExactly(sv: Service, items: seq<Item>, ending: Ending, fs: seq<Frame>)
    requires Relayed(sv, items, ending, fs)
    ensures Ended(ReadAll(fs, sv.master)) == None <==> Complete(sv, items, ending, fs)
  {
    ReadsExactly(sv, items, ending, fs);
  }

  /** What the caller is told of a chunk that does not belong where it comes: out of order, not genuine there, or a false end. */
  lemma WhyAChunkStops(sv: Service, items: seq<Item>, ending: Ending, fs: seq<Frame>, f: Frame, c: Chunk)
    requires Relayed(sv, items, ending, fs) && Orderly(sv, items, ending, fs) && NotForged(sv, items, ending, f)
    requires f.ChunkFrame? && ParseChunk(f.fields, f.ciphertext) == Ok(c)
    ensures var ts, n, why := Plaintexts(items, ending), |Chunks(fs)|, Ended(ReadAll(fs + [f], sv.master));
            && (c.place != n ==> why == Some(OutOfOrder))
            && (c.place == n && !SealedAs(sv, ts, n, c.ciphertext) ==> why == Some(Unauthentic))
            && (c.place == n && SealedAs(sv, ts, n, c.ciphertext) && c.final && ts[n] != "" ==> why == Some(ForgedEnd))
  {
    ReadsExactly(sv, items, ending, fs);
    OpensToPlaintext(sv, items, ending, f, c.place);
    assert (fs + [f])[..|fs|] == fs;
  }

  lemma {:induction false} LinesNeverTruncate(fs: seq<Frame>, master: nat)
    ensures ReadAll(fs, master).raised != Some(Truncated)
  {
    if fs != [] { LinesNeverTruncate(fs[..|fs| - 1], master); }
  }

  /** The client says the answer was cut short exactly when all it got was in order, but not the whole of it. */
  lemma CutShortExactly(sv: Service, items: seq<Item>, ending: Ending, fs: seq<Frame>)
    requires Relayed(sv, items, ending, fs)
    ensures Ended(ReadAll(fs, sv.master)) == Some(Truncated) <==>
            Orderly(sv, items, ending, fs) && !Complete(sv, items, ending, fs)
  {
    ReadsExactly(sv, items, ending, fs);
    FinishesExactly(sv, items, ending, fs);
    LinesNeverTruncate(fs, sv.master);
  }

  /** The line that stops a reading gives the caller nothing. */
  lemma RaisingTellsNothing(st: Reading, f: Frame, master: nat)
    requires Feed(st, f, master).raised.Some?
    ensures Feed(st, f, master).told == st.told
  {
  }

  /** The text given to the caller is always a prefix of what the engine produced, error or no error. */
  lemma {:induction false} TextIsPrefix(sv: Service, items: seq<Item>, ending: Ending, fs: seq<Frame>)
    requires Relayed(sv, items, ending, fs)
    ensures Texts(ReadAll(fs, sv.master).told) <= Pieces(items)
  {
    ReadsExactly(sv, items, ending, fs);
    if Orderly(sv, items, ending, fs) {
      PrefixOfPieces(items, ending, |Chunks(fs)|);
    } else if fs != [] {
      TextIsPrefix(sv, items, ending, fs[..|fs| - 1]);
      RaisingTellsNothing(ReadAll(fs[..|fs| - 1], sv.master), fs[|fs| - 1], sv.master);
    }
  }

  lemma {:induction false} JoinPrefix(a: seq<string>, b: seq<string>)
    requires a <= b
    ensures Join(a) <= Join(b)
  {
    if |a| < |b| {
      JoinPrefix(a, b[..|b| - 1]);
    } else {
      assert a == b;
    }
  }

  /** So the answer is a prefix of the engine's text, and the whole of it if the reading succeeds. */
  lemma StreamIntegrity(sv: Service, items: seq<Item>, ending: Ending, fs: seq<Frame>)
    requires Relayed(sv, items, ending, fs)
    ensures var st := ReadAll(fs, sv.master);
            && Join(Texts(st.told)) <= Join(Pieces(items))
            && (Ended(st) == None ==> ending.Finished? && Texts(st.told) == Pieces(items))
  {
    TextIsPrefix(sv, items, ending, fs);
    JoinPrefix(Texts(ReadAll(fs, sv.master).told), Pieces(items));
    FinishesExactly(sv, items, ending, fs);
    if Ended(ReadAll(fs, sv.master)) == None {
      ReadsExactly(sv, items, ending, fs);
      PrefixOfPieces(items, ending, |Chunks(fs)|);
    }
  }

  // ---- an honest relay ----

  lemma ProducedIsRelayed(sv: Service, items: seq<Item>, ending: Ending, n: nat)
    requires n <= |Produced(sv, items, ending)|
    ensures Relayed(sv, items, ending, Produced(sv, items, ending)[..n])
  {
    var fs := Produced(sv, items, ending);
    forall i | 0 <= i < n
      ensures NotForged(sv, items, ending, fs[..n][i])
    {
      if fs[i].ChunkFrame? && fs[i].ciphertext.Some? { assert Carries(fs, fs[i].ciphertext.value); }
    }
  }

  lemma ChunkIsInPlace(sv: Service, items: seq<Item>, ending: Ending, place: nat)
    requires sv.requestId != "" && place < |Plaintexts(items, ending)|
    ensures var text := Plaintexts(items, ending)[place];
            InPlace(sv, items, ending, ChunkFor(sv, text, place, text == ""), place) &&
            (ClaimsEnd(ChunkFor(sv, text, place, text == "")) <==> text == "")
  {
    var text := Plaintexts(items, ending)[place];
    ChunkRoundTrip(Chunk(sv.requestId, place, CipherAt(sv, text, place), text == ""));
  }

  /** The lines that carry chunks, end marker included. */
  function ChunkLines(sv: Service, ts: seq<string>): seq<Frame>
    requires |ts| <= SEQ_LIMIT
  {
    seq(|ts|, i requires 0 <= i < |ts| => ChunkFor(sv, ts[i], i, ts[i] == ""))
  }

  lemma {:induction false} AllChunks(fs: seq<Frame>)
    requires forall i :: 0 <= i < |fs| ==> fs[i].ChunkFrame?
    ensures Chunks(fs) == fs
  {
    if fs != [] { AllChunks(fs[..|fs| - 1]); }
  }

  lemma OneMoreInOrder(sv: Service, items: seq<Item>, ending: Ending, before: seq<Frame>, f: Frame, fs: seq<Frame>)
    requires Orderly(sv, items, ending, before) && InPlace(sv, items, ending, f, |Chunks(before)|)
    requires |fs| == |before| + 1 && fs[..|before|] == before && fs[|before|] == f
    ensures Orderly(sv, items, ending, fs)
  {
  }

  lemma {:induction false} InPlaceIsOrderly(sv: Service, items: seq<Item>, ending: Ending, fs: seq<Frame>, n: nat)
    requires n <= |fs| && forall i {:trigger fs[i]} :: 0 <= i < n ==> InPlace(sv, items, ending, fs[i], i)
    ensures Orderly(sv, items, ending, fs[..n])
  {
    if n > 0 {
      InPlaceIsOrderly(sv, items, ending, fs, n - 1);
      AllChunks(fs[..n - 1]);
      assert fs[..n][..n - 1] == fs[..n - 1];
      OneMoreInOrder(sv, items, ending, fs[..n - 1], fs[n - 1], fs[..n]);
    }
  }

  lemma ChunkLinesInOrder(sv: Service, items: seq<Item>, ending: Ending)
    requires sv.requestId != ""
    ensures var fs := ChunkLines(sv, Plaintexts(items, ending));
            Orderly(sv, items, ending, fs) && Chunks(fs) == fs
  {
    var ts := Plaintexts(items, ending);
    var fs := ChunkLines(sv, ts);
    forall i | 0 <= i < |ts|
      ensures InPlace(sv, items, ending, fs[i], i)
    {
      ChunkIsInPlace(sv, items, ending, i);
    }
    InPlaceIsOrderly(sv, items, ending, fs, |fs|);
    AllChunks(fs);
    assert fs[..|fs|] == fs;
  }

  /** An answer is its chunk lines and then at most one line that is no chunk. */
  lemma ProducedIs(sv: Service, items: seq<Item>, ending: Ending)
    ensures var ts, fs := Plaintexts(items, ending), Produced(sv, items, ending);
            && |ts| <= |fs| <= |ts| + 1 && fs[..|ts|] == ChunkLines(sv, ts)
            && (|fs| == |ts| <==> ending.Crashes? || (!Whole(items, ending) && ending.Finished?) || |Pieces(items)| > SEQ_LIMIT)
            && (Whole(items, ending) ==> fs[|ts|] == ReceiptLine(HonestReceipt(sv, items)))
            && (|fs| > |ts| && ending.EngineFails? ==> fs[|ts|] == ErrorFrame(Some(Str(ending.message))))
  {
  }

  lemma ReadOneMore(fs: seq<Frame>, master: nat)
    requires fs != []
    ensures ReadAll(fs, master) == Feed(ReadAll(fs[..|fs| - 1], master), fs[|fs| - 1], master)
  {
  }

  function HonestReceipt(sv: Service, items: seq<Item>): Receipt {
    ReportedIsUsage(items);
    ReceiptFor(sv, Reported(items), Chars(Pieces(items)))
  }

  /** Once every chunk is in, the caller has been told everything. */
  lemma AllChunksTold(items: seq<Item>, ending: Ending, fs: seq<Frame>, st: Reading)
    requires OnTrack(items, ending, fs, st) && |Chunks(fs)| == |Plaintexts(items, ending)|
    ensures var ps := Pieces(items);
            && Texts(st.told) == (if |ps| > SEQ_LIMIT then ps[..SEQ_LIMIT] else ps)
            && (st.sawFinal <==> Whole(items, ending) && ClaimsEnd(Chunks(fs)[|ps|]))
  {
    PrefixOfPieces(items, ending, |Chunks(fs)|);
  }

  /** After the chunk lines alone. */
  lemma ChunksRead(sv: Service, items: seq<Item>, ending: Ending)
    requires sv.requestId != ""
    ensures var ts, ps := Plaintexts(items, ending), Pieces(items);
            var st := ReadAll(ChunkLines(sv, ts), sv.master);
            && st.raised == None && Texts(st.told) == (if |ps| > SEQ_LIMIT then ps[..SEQ_LIMIT] else ps)
            && (st.sawFinal <==> Whole(items, ending))
  {
    var ts := Plaintexts(items, ending);
    var fs := ChunkLines(sv, ts);
    assert fs[..|ts|] == fs;
    ProducedIs(sv, items, ending);
    ProducedIsRelayed(sv, items, ending, |ts|);
    ChunkLinesInOrder(sv, items, ending);
    ReadsExactly(sv, items, ending, fs);
    AllChunksTold(items, ending, fs, ReadAll(fs, sv.master));
    if Whole(items, ending) { ChunkIsInPlace(sv, items, ending, |ts| - 1); }
  }

  lemma ReceiptReads(st: Reading, r: Receipt, master: nat)
    requires st.raised == None && r.requestId != ""
    ensures var next := Feed(st, ReceiptLine(r), master);
            && Texts(next.told) == Texts(st.told) && next.sawFinal == st.sawFinal
            && (next.raised == None <==> r.promptTokens >= 0 && r.completionTokens >= 0)
            && (next.raised == None ==> LastReceipt(next.told) == Some(r))
  {
    ReceiptRoundTrip(r);
    TextsGrow(st.told, r);
  }

  lemma TextsGrow(told: seq<Told>, r: Receipt)
    ensures Texts(told + [Metered(r)]) == Texts(told) && LastReceipt(told + [Metered(r)]) == Some(r)
  {
    assert (told + [Metered(r)])[..|told|] == told;
  }

  /**
   Read untouched, an answer gives exactly the engine's non-empty texts, and succeeds exactly when
   it was whole and its counts are counts; a declared engine failure is what the client is told.
   */
  lemma HonestRoundTrip(sv: Service, items: seq<Item>, ending: Ending)
    requires sv.requestId != ""
    ensures var st, ps, r := ReadAll(Produced(sv, items, ending), sv.master), Pieces(items), HonestReceipt(sv, items);
            && Texts(st.told) == (if |ps| > SEQ_LIMIT then ps[..SEQ_LIMIT] else ps)
            && (Ended(st) == None <==> Whole(items, ending) && r.promptTokens >= 0 && r.completionTokens >= 0)
            && (Ended(st) == None ==> LastReceipt(st.told) == Some(r))
            && (ending.EngineFails? && |ps| <= SEQ_LIMIT ==> Ended(st) == Some(PeerError(Str(ending.message))))
  {
    var ts, fs, r := Plaintexts(items, ending), Produced(sv, items, ending), HonestReceipt(sv, items);
    ProducedIs(sv, items, ending);
    ChunksRead(sv, items, ending);
    var st := ReadAll(ChunkLines(sv, ts), sv.master);
    if |fs| == |ts| {
      assert fs[..|ts|] == fs;
    } else {
      ReadOneMore(fs, sv.master);
      if Whole(items, ending) { ReceiptReads(st, r, sv.master); }
    }
  }

  lemma {:induction false} TextHasChars(ps: seq<string>)
    requires forall i :: 0 <= i < |ps| ==> ps[i] != ""
    ensures Chars(ps) >= |ps|
  {
    if ps != [] { TextHasChars(ps[..|ps| - 1]); }
  }

  /** The engine's own counts win when it gives them; an answer with text is never billed as nothing. */
  lemma TextIsNeverFree(sv: Service, items: seq<Item>)
    requires Pieces(items) != []
    ensures HonestReceipt(sv, items).completionTokens != 0
    ensures var u := Reported(items);
            u.Some? && u.value.Usage? && u.value.completionTokens != 0 ==>
              HonestReceipt(sv, items).completionTokens == u.value.completionTokens
  {
    TextHasChars(Pieces(items));
    ReportedIsUsage(items);
  }

  /** A count is the engine's if it is not zero, and otherwise a quarter of the characters, at least one for any. */
  predicate Counted(reported: int, chars: nat, billed: int) {
    if reported != 0 then billed == reported
    else if chars < 4 then billed == if chars == 0 then 0 else 1
    else 4 * billed <= chars < 4 * billed + 4
  }

  lemma {:induction false} LastUsage(items: seq<Item>, i: nat)
    requires i < |items| && items[i].Usage? && forall j :: i < j < |items| ==> !items[j].Usage?
    ensures Reported(items) == Some(items[i])
  {
    if i < |items| - 1 { LastUsage(items[..|items| - 1], i); }
  }

  lemma {:induction false} NoUsage(items: seq<Item>)
    requires forall j :: 0 <= j < |items| ==> !items[j].Usage?
    ensures Reported(items) == None
  {
    if items != [] { NoUsage(items[..|items| - 1]); }
  }

  /** Both counts of a receipt are the last ones the engine gave, each by itself, or the estimate. */
  lemma BilledAsCounted(sv: Service, items: seq<Item>, i: nat)
    requires i < |items| && items[i].Usage? && forall j :: i < j < |items| ==> !items[j].Usage?
    ensures Counted(items[i].promptTokens, sv.promptChars, HonestReceipt(sv, items).promptTokens)
    ensures Counted(items[i].completionTokens, Chars(Pieces(items)), HonestReceipt(sv, items).completionTokens)
  {
    LastUsage(items, i);
  }

  lemma BilledAsEstimated(sv: Service, items: seq<Item>)
    requires forall j :: 0 <= j < |items| ==> !items[j].Usage?
    ensures Counted(0, sv.promptChars, HonestReceipt(sv, items).promptTokens)
    ensures Counted(0, Chars(Pieces(items)), HonestReceipt(sv, items).completionTokens)
  {
    NoUsage(items);
  }

  /** One bad count is enough: a whole answer, all its text told, ends in an error. */
  lemma NegativeCountIsRefused(sv: Service, text: string, count: int)
    requires sv.requestId != "" && text != "" && count < 0
    ensures var items := [Piece(text), Usage(count, 0, "stop")];
            var st := ReadAll(Produced(sv, items, Finished), sv.master);
            Whole(items, Finished) && Texts(st.told) == [text] && Ended(st).Some?
  {
    var items := [Piece(text), Usage(count, 0, "stop")];
    assert items[..1] == [Piece(text)] && items[..1][..0] == [];
    assert Pieces(items[..1]) == [text] && Pieces(items) == [text];
    assert Reported(items) == Some(Usage(count, 0, "stop"));
    HonestRoundTrip(sv, items, Finished);
  }

  // ---- whom a request is sealed to ----

  /**
   A request is sealed only to a roster entry under the assigned id, serving the asked model, whose
   own key the lease also names - and is sealed whenever there is exactly one such entry.
   */
  lemma SealsOnlyToRoster(roster: seq<Peer>, reply: LeaseReply, model: string, p: Peer)
    requires forall i, j :: 0 <= i < j < |roster| ==> roster[i].id != roster[j].id
    ensures Recipient(roster, reply, model) == Ok(p) <==>
            p in roster && reply.peer == Str(p.id) && p.id != "" && p.model == model &&
            p.encPub == (if reply.offeredKey.Some? then reply.offeredKey.value else "")
  {
    if reply.peer.Str? && p in roster && p.id == reply.peer.s {
      FindOnly(roster, p);
    }
  }

  lemma {:induction false} FindOnly(roster: seq<Peer>, p: Peer)
    requires p in roster && forall i, j :: 0 <= i < j < |roster| ==> roster[i].id != roster[j].id
    ensures FindPeer(roster, p.id) == Some(p)
  {
    if roster[0] != p { FindOnly(roster[1..], p); }
  }
}
