/** What the body of a streamed chunk says besides the chunk itself. */
module ChunkBodies {
  import opened Wrappers
  import opened Json
  import opened JsonIntegers
  import opened Canonical
  import opened Stream
  import Text

  /** The name shown for a completion: that of its request, under a prefix of its own. */
  ghost predicate NamedFor(shown: string, id: string) {
    && (forall rest :: id == "request_" + rest ==> shown == "chatcmpl-" + rest)
    && (!("request_" <= id) ==> shown == "chatcmpl-" + id)
  }

  lemma PrefixTrimmed(id: string)
    ensures NamedFor("chatcmpl-" + Text.TrimPrefix(id, "request_"), id)
  {
    forall rest | id == "request_" + rest ensures Text.TrimPrefix(id, "request_") == rest {
      assert id[|"request_"|..] == rest;
    }
  }

  /** The one choice that a body holds. */
  ghost predicate ChoosesOne(choice: Fields, chunk: StreamChunk) {
    && choice.Keys == {"index", "delta", "finish_reason"} && IntValue(Get(choice, "index")) == 0
    && Get(choice, "finish_reason") == (if chunk.finishReason == "" then Null else String(chunk.finishReason))
  }

  /** The members of a body that tell which completion it belongs to, and its choice. */
  ghost predicate Tells(body: Fields, metadata: Metadata, chunk: StreamChunk) {
    && body.Keys == {"id", "object", "created", "model", "choices"}
    && Get(body, "id").String? && NamedFor(Get(body, "id").text, metadata.id)
    && Get(body, "object") == String("chat.completion.chunk") && Get(body, "model") == String(metadata.model)
    && (-MAX_INT64 - 1 <= metadata.created <= MAX_INT64 ==> IntValue(Get(body, "created")) == metadata.created)
    && exists choice :: Get(body, "choices") == Array([Object(choice)]) && ChoosesOne(choice, chunk)
  }

  lemma ChoiceTells(chunk: StreamChunk)
    ensures ChoosesOne(ChoiceFields(chunk), chunk)
  {
    IntRoundTrip(0);
  }

  lemma CreatedTells(created: int)
    ensures -MAX_INT64 - 1 <= created <= MAX_INT64 ==> IntValue(Number(IntToken(created))) == created
  {
    if -MAX_INT64 - 1 <= created <= MAX_INT64 { IntRoundTrip(created); }
  }

  lemma BodyTells(body: Fields, id: string, created: Value, choice: Fields, metadata: Metadata, chunk: StreamChunk)
    requires body == map["id" := String(id), "object" := String("chat.completion.chunk"), "created" := created,
                         "model" := String(metadata.model), "choices" := Array([Object(choice)])]
    requires NamedFor(id, metadata.id) && ChoosesOne(choice, chunk)
    requires -MAX_INT64 - 1 <= metadata.created <= MAX_INT64 ==> IntValue(created) == metadata.created
    ensures Tells(body, metadata, chunk)
  {
    assert Get(body, "choices") == Array([Object(choice)]);
  }

  lemma EncodedTells(chunk: StreamChunk, metadata: Metadata)
    requires !chunk.done && chunk.error.None?
    ensures EncodeChunk(chunk, metadata).Ok? && EncodeChunk(chunk, metadata).value.Some?
    ensures Tells(EncodeChunk(chunk, metadata).value.value, metadata, chunk)
  {
    PrefixTrimmed(metadata.id);
    ChoiceTells(chunk);
    CreatedTells(metadata.created);
    BodyTells(EncodeChunk(chunk, metadata).value.value, "chatcmpl-" + Text.TrimPrefix(metadata.id, "request_"),
              Number(IntToken(metadata.created)), ChoiceFields(chunk), metadata, chunk);
  }

  /**
   * A chunk that is neither the final marker nor an error has a body, which names the completion, the model and the
   * time it was given and holds one choice; its text is that body, so whoever parses the text reads the same.
   */
  lemma ChunkTells(chunk: StreamChunk, metadata: Metadata)
    requires !chunk.done && chunk.error.None?
    ensures EncodeChunk(chunk, metadata).Ok? && EncodeChunk(chunk, metadata).value.Some?
    ensures Tells(EncodeChunk(chunk, metadata).value.value, metadata, chunk)
    ensures ChunkText(chunk, metadata).Ok?
    ensures Parse(ChunkText(chunk, metadata).value) == Some(Object(EncodeChunk(chunk, metadata).value.value))
  {
    EncodedTells(chunk, metadata);
    TextTells(chunk, metadata, EncodeChunk(chunk, metadata).value.value);
  }

  lemma TextTells(chunk: StreamChunk, metadata: Metadata, body: Fields)
    requires !chunk.done && EncodeChunk(chunk, metadata) == Ok(Some(body))
    ensures ChunkText(chunk, metadata).Ok? && Parse(ChunkText(chunk, metadata).value) == Some(Object(body))
  {
    RoundTrip(Object(body));
  }

  /** The final marker has no body, and an error is handed on. */
  lemma NoBody(chunk: StreamChunk, metadata: Metadata)
    ensures chunk.done ==> EncodeChunk(chunk, metadata) == Ok(None) && ChunkText(chunk, metadata) == Ok("[DONE]")
    ensures !chunk.done && chunk.error.Some? ==>
              EncodeChunk(chunk, metadata) == Err(chunk.error.value) && ChunkText(chunk, metadata) == Err(chunk.error.value)
  {}
}
