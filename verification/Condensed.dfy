/** What the optimizer does to a conversation, told by the messages before and after alone. */
module Condensed {
  import opened Wrappers
  import opened Json
  import opened Canonical
  import opened Optimizer
  import OpenAI
  import Text

  /** A tool result that the optimizer takes for JSON: a JSON text, trimmed or not. */
  predicate IsJson(content: string) {
    Parse(Text.Trim(content)).Some? && Parse(content).Some?
  }

  ghost predicate SameValue(a: string, b: string) {
    a == b || (IsJson(a) && IsJson(b) && Parse(a) == Parse(b))
  }

  /** The two messages agree in everything but the content of the tool result. */
  ghost predicate SameButResult(a: Message, b: Message) {
    && a.role == b.role && a.content == b.content && a.name == b.name && a.toolCalls == b.toolCalls
    && (a.toolResult.Some? <==> b.toolResult.Some?)
    && (a.toolResult.Some? ==>
          a.toolResult.value.callId == b.toolResult.value.callId && a.toolResult.value.name == b.toolResult.value.name)
  }

  /** The two messages say the same: tool results may be written differently, as long as the JSON value is the same. */
  ghost predicate SameMessage(a: Message, b: Message) {
    SameButResult(a, b) && (a.toolResult.Some? ==> SameValue(a.toolResult.value.content, b.toolResult.value.content))
  }

  /** A message stays unless it is safe to leave out and says the same as the message just before it. */
  ghost predicate Stays(messages: seq<Message>, i: nat)
    requires i < |messages|
  {
    || i == 0
    || messages[i].role !in {ROLE_SYSTEM, ROLE_DEVELOPER, ROLE_TOOL}
    || !SameMessage(messages[i - 1], messages[i])
  }

  // ---------- Tool results ----------

  lemma NormalTextReads(content: string)
    ensures IsJson(content) ==> IsJson(NormalText(content)) && Parse(NormalText(content)) == Parse(content)
    ensures IsJson(content) ==> NormalText(content) == Print(Parse(content).value)
    ensures !IsJson(content) ==> NormalText(content) == content
  {
    if IsJson(content) {
      RoundTrip(Parse(content).value);
      PrintTrimmed(Parse(content).value);
    }
  }

  lemma NormalTextIff(a: string, b: string)
    ensures NormalText(a) == NormalText(b) <==> SameValue(a, b)
  {
    NormalTextReads(a);
    NormalTextReads(b);
  }

  lemma NormalizedIff(a: Message, b: Message)
    ensures Normalized(a) == Normalized(b) <==> SameMessage(a, b)
  {
    if a.toolResult.Some? && b.toolResult.Some? {
      NormalTextIff(a.toolResult.value.content, b.toolResult.value.content);
    }
  }

  // ---------- What stays ----------

  /** The last message kept is the last message read, whether that one was kept or only repeated it. */
  lemma LastKept(messages: seq<Message>)
    requires messages != []
    ensures var kept := Condense(messages); kept != [] && kept[|kept| - 1] == Normalized(messages[|messages| - 1])
  {}

  ghost predicate Staying(messages: seq<Message>, ids: seq<nat>) {
    forall i | 0 <= i < |messages| :: i in ids <==> Stays(messages, i)
  }

  lemma StayingMore(messages: seq<Message>, ids: seq<nat>, n: nat)
    requires n + 1 == |messages| && Ascending(ids, n) && Staying(messages[..n], ids)
    ensures Staying(messages, if Stays(messages, n) then ids + [n] else ids)
  {
    forall i | 0 <= i < n ensures i in ids <==> Stays(messages, i) {
      assert Stays(messages[..n], i) <==> Stays(messages, i);
    }
  }

  lemma OriginsMore(messages: seq<Message>, n: nat)
    requires n + 1 == |messages|
    ensures Origins(messages) == if Stays(messages, n) then Origins(messages[..n]) + [n] else Origins(messages[..n])
  {
    if n > 0 {
      LastKept(messages[..n]);
      NormalizedIff(messages[n - 1], messages[n]);
    }
  }

  lemma {:induction false} OriginsStay(messages: seq<Message>)
    ensures Staying(messages, Origins(messages))
    decreases |messages|
  {
    if messages != [] {
      var n := |messages| - 1;
      OriginsStay(messages[..n]);
      KeepsInOrder(messages[..n]);
      OriginsMore(messages, n);
      StayingMore(messages, Origins(messages[..n]), n);
    }
  }

  /** A kept message against the one it came from. */
  ghost predicate KeptAs(before: Message, after: Message) {
    && SameButResult(before, after)
    && (before.toolResult.Some? ==>
          var c, d := before.toolResult.value.content, after.toolResult.value.content;
          if IsJson(c) then Parse(d) == Parse(c) && d == Print(Parse(c).value) else d == c)
  }

  lemma NormalizedKeeps(m: Message)
    ensures KeptAs(m, Normalized(m))
  {
    if m.toolResult.Some? { NormalTextReads(m.toolResult.value.content); }
  }

  /** The output holds, in order, one message for each index in ids, and ids are exactly the messages that stay. */
  ghost predicate CondensedBy(messages: seq<Message>, kept: seq<Message>, ids: seq<nat>) {
    && Ascending(ids, |messages|) && Staying(messages, ids)
    && |kept| == |ids| && forall k | 0 <= k < |ids| :: KeptAs(messages[ids[k]], kept[k])
  }

  /**
   * The messages that stay, in their order, and no others. Each is unchanged but for a JSON tool result, which keeps
   * its value and takes the one text that value has.
   */
  lemma KeepsWhatStays(messages: seq<Message>)
    ensures CondensedBy(messages, Condense(messages), Origins(messages))
  {
    OriginsStay(messages);
    KeepsInOrder(messages);
    forall k | 0 <= k < |Origins(messages)| ensures KeptAs(messages[Origins(messages)[k]], Condense(messages)[k]) {
      NormalizedKeeps(messages[Origins(messages)[k]]);
    }
  }

  // ---------- The report ----------

  /** The tool results that are JSON and not yet in the one text of their value. */
  ghost predicate Reformats(m: Message) {
    m.toolResult.Some? && var c := m.toolResult.value.content; IsJson(c) && Print(Parse(c).value) != c
  }

  lemma NormalizedChanges(m: Message)
    ensures Normalized(m) != m <==> Reformats(m)
  {
    NormalizedKeeps(m);
  }

  ghost function Dropped(messages: seq<Message>): set<int> {
    set i | 0 <= i < |messages| && !Stays(messages, i)
  }

  ghost function Reformatted(messages: seq<Message>): set<int> {
    set i | 0 <= i < |messages| && Reformats(messages[i])
  }

  lemma DroppedMore(messages: seq<Message>, n: nat)
    requires n + 1 == |messages|
    ensures n !in Dropped(messages[..n])
    ensures Dropped(messages) == Dropped(messages[..n]) + if Stays(messages, n) then {} else {n}
  {
    forall i ensures i in Dropped(messages) <==> i in Dropped(messages[..n]) || (i == n && !Stays(messages, n)) {
      if 0 <= i < n { assert Stays(messages[..n], i) <==> Stays(messages, i); }
    }
  }

  lemma DropsMore(messages: seq<Message>, n: nat)
    requires n + 1 == |messages|
    ensures |Condense(messages)| == |Condense(messages[..n])| + if Stays(messages, n) then 1 else 0
  {
    if n > 0 {
      LastKept(messages[..n]);
      NormalizedIff(messages[n - 1], messages[n]);
    }
  }

  lemma {:induction false} DroppedCount(messages: seq<Message>)
    ensures |messages| == |Condense(messages)| + |Dropped(messages)|
    decreases |messages|
  {
    if messages == [] {
      assert Dropped(messages) == {};
    } else {
      var n := |messages| - 1;
      DroppedCount(messages[..n]);
      DroppedMore(messages, n);
      DropsMore(messages, n);
    }
  }

  lemma ReformattedMore(messages: seq<Message>, n: nat)
    requires n + 1 == |messages|
    ensures n !in Reformatted(messages[..n])
    ensures Reformatted(messages) == Reformatted(messages[..n]) + if Reformats(messages[n]) then {n} else {}
  {
    forall i ensures i in Reformatted(messages) <==> i in Reformatted(messages[..n]) || (i == n && Reformats(messages[n])) {
      if 0 <= i < n { assert messages[..n][i] == messages[i]; }
    }
  }

  lemma RewrittenMore(messages: seq<Message>, n: nat)
    requires n + 1 == |messages|
    ensures Rewritten(messages) == Rewritten(messages[..n]) + if Reformats(messages[n]) then 1 else 0
  {
    NormalizedChanges(messages[n]);
  }

  lemma {:induction false} ReformattedCount(messages: seq<Message>)
    ensures Rewritten(messages) == |Reformatted(messages)|
    decreases |messages|
  {
    if messages == [] {
      assert Reformatted(messages) == {};
    } else {
      var n := |messages| - 1;
      ReformattedCount(messages[..n]);
      ReformattedMore(messages, n);
      RewrittenMore(messages, n);
    }
  }

  // ---------- The conversation ----------

  ghost predicate SameUnderTrim(metadata: Fields) {
    forall a, b | a in metadata && b in metadata && Text.Trim(a) == Text.Trim(b) :: metadata[a] == metadata[b]
  }

  ghost predicate TrimmedFrom(before: Fields, after: Fields) {
    && (forall key | key in before :: Text.Trim(key) in after && after[Text.Trim(key)] == before[key])
    && (forall key | key in after :: exists k :: k in before && Text.Trim(k) == key)
  }

  lemma AgreesThenSame(metadata: Fields)
    requires OpenAI.MetadataAgrees(metadata)
    ensures SameUnderTrim(metadata)
  {
    forall a, b | a in metadata && b in metadata && Text.Trim(a) == Text.Trim(b) ensures metadata[a] == metadata[b] {
      assert !OpenAI.Conflicts(metadata, a, b);
      PrintInjective(metadata[a], metadata[b]);
    }
  }

  lemma SameThenAgrees(metadata: Fields)
    requires SameUnderTrim(metadata)
    ensures OpenAI.MetadataAgrees(metadata)
  {
    forall a, b | a in metadata && b in metadata ensures !OpenAI.Conflicts(metadata, a, b) {}
  }

  lemma TrimsKeys(metadata: Fields)
    requires OpenAI.MetadataAgrees(metadata)
    ensures TrimmedFrom(metadata, OpenAI.TrimKeys(metadata))
  {
    var after := OpenAI.TrimKeys(metadata);
    AgreesThenSame(metadata);
    forall key | key in after ensures exists k :: k in metadata && Text.Trim(k) == key {}
    forall key | key in metadata ensures Text.Trim(key) in after && after[Text.Trim(key)] == metadata[key] {}
  }

  /** Which metadata is refused, with which error, and what becomes of the rest. */
  lemma MetadataIff(metadata: Fields)
    ensures var r := OptimizeMetadata(metadata);
            && (r.Ok? <==> (forall key | key in metadata :: Text.Trim(key) != "") && SameUnderTrim(metadata))
            && (r.Ok? ==> TrimmedFrom(metadata, r.value))
            && (r.Err? ==> r.code == if exists key | key in metadata :: Text.Trim(key) == ""
                                     then "AGENT_METADATA_INVALID" else "AGENT_METADATA_CONFLICT")
  {
    if SameUnderTrim(metadata) { SameThenAgrees(metadata); }
    if OpenAI.MetadataAgrees(metadata) { AgreesThenSame(metadata); }
    if OptimizeMetadata(metadata).Ok? { TrimsKeys(metadata); }
  }

  /**
   * The optimizer touches the messages, the name of the model and the keys of the metadata, and nothing else. The
   * report counts the messages left out, the tool results rewritten and the keys that had to be trimmed.
   */
  lemma OptimizesOnly(c: Conversation)
    ensures var r := Optimize(c);
            r.Ok? ==>
              var after, report := r.value.0, r.value.1;
              && after.tools == c.tools && after.choice == c.choice && after.format == c.format && after.stream == c.stream
              && after.model == (if Text.Trim(c.model) == "" then "cwapi-web-gpt" else Text.Trim(c.model))
              && TrimmedFrom(c.metadata, after.metadata)
              && CondensedBy(c.messages, after.messages, Origins(c.messages))
              && report.duplicatesRemoved == |Dropped(c.messages)|
              && report.resultsNormalized == |Reformatted(c.messages)|
              && report.keysNormalized == |set key | key in c.metadata && Text.Trim(key) != key|
  {
    if Optimize(c).Ok? {
      MetadataIff(c.metadata);
      KeepsWhatStays(c.messages);
      DroppedCount(c.messages);
      ReformattedCount(c.messages);
      assert Untrimmed(c.metadata.Keys) == set key | key in c.metadata && Text.Trim(key) != key;
    }
  }
}
