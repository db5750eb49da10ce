/** The lines of a response stream, as parsed JSON, and how chunks and receipts are read from them. */
module Frames {
  import opened Wrappers
  import opened Peers
  import opened Sealing

  /** One line. A chunk's ciphertext is kept apart from its other fields; none means missing, empty or not text. */
  datatype Frame =
    | Blank
    | Garbled
    | ErrorFrame(message: Option<Json>)
    | ChunkFrame(fields: map<string, Json>, ciphertext: Option<Cipher>)
    | ReceiptFrame(fields: map<string, Json>)
    | OtherFrame

  datatype Chunk = Chunk(requestId: string, place: nat, ciphertext: Cipher, final: bool)

  datatype Receipt = Receipt(
    requestId: string,
    promptTokens: int,
    completionTokens: int,
    engine: Json,
    engineVersion: Json,
    hwClass: Json,
    finishReason: string)

  datatype ProtocolError = BadVersion | BadField(name: string)

  const VERSION := Int(1)

  predicate NonEmptyText(j: Json) {
    j.Str? && j.s != ""
  }

  function ParseChunk(d: map<string, Json>, ciphertext: Option<Cipher>): Result<Chunk, ProtocolError> {
    if Get(d, "v", Null) != VERSION then Err(BadVersion)
    else if !(Get(d, "seq", Null).Int? && d["seq"].i >= 0) then Err(BadField("seq"))
    else if !Get(d, "final", Bool(false)).Bool? then Err(BadField("final"))
    else if !NonEmptyText(Get(d, "request_id", Null)) then Err(BadField("request_id"))
    else if ciphertext == None then Err(BadField("ciphertext"))
    else Ok(Chunk(d["request_id"].s, d["seq"].i, ciphertext.value, Get(d, "final", Bool(false)).b))
  }

  predicate IsCount(j: Json) {
    j.Int? && j.i >= 0
  }

  /** Counts and the request id are checked; descriptive fields are taken as they come. */
  function ParseReceipt(d: map<string, Json>): Result<Receipt, ProtocolError> {
    if Get(d, "v", Null) != VERSION then Err(BadVersion)
    else if !IsCount(Get(d, "prompt_tokens", Int(0))) then Err(BadField("prompt_tokens"))
    else if !IsCount(Get(d, "completion_tokens", Int(0))) then Err(BadField("completion_tokens"))
    else if !NonEmptyText(Get(d, "request_id", Null)) then Err(BadField("request_id"))
    else
      Ok(Receipt(d["request_id"].s, Get(d, "prompt_tokens", Int(0)).i, Get(d, "completion_tokens", Int(0)).i,
                 Get(d, "engine", Str("")), Get(d, "engine_version", Str("")), Get(d, "hw_class", Str("")),
                 if Get(d, "finish_reason", Null).Str? then d["finish_reason"].s else ""))
  }

  function ChunkLine(c: Chunk): Frame {
    ChunkFrame(map["v" := VERSION, "request_id" := Str(c.requestId), "seq" := Int(c.place), "final" := Bool(c.final)],
               Some(c.ciphertext))
  }

  function ReceiptLine(r: Receipt): Frame {
    ReceiptFrame(map["v" := VERSION, "request_id" := Str(r.requestId), "prompt_tokens" := Int(r.promptTokens),
                     "completion_tokens" := Int(r.completionTokens), "engine" := r.engine,
                     "engine_version" := r.engineVersion, "hw_class" := r.hwClass, "finish_reason" := Str(r.finishReason)])
  }

  /** A chunk survives its line exactly when its request has a name. */
  lemma ChunkRoundTrip(c: Chunk)
    ensures var f := ChunkLine(c);
            ParseChunk(f.fields, f.ciphertext) == if c.requestId == "" then Err(BadField("request_id")) else Ok(c)
  {
  }

  /** A receipt survives its line exactly when its counts are counts and its request has a name. */
  lemma ReceiptRoundTrip(r: Receipt)
    ensures ParseReceipt(ReceiptLine(r).fields) == Ok(r) <==>
            r.promptTokens >= 0 && r.completionTokens >= 0 && r.requestId != ""
    ensures ParseReceipt(ReceiptLine(r).fields).Ok? ==> ParseReceipt(ReceiptLine(r).fields) == Ok(r)
  {
  }
}
