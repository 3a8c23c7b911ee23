/**
 * The prompt helpers of the RAG pipeline (app/prompts/rag_prompts.py): the recent conversation
 * and the retrieved policy passages, each rendered as text for a prompt. Both build a list of
 * lines one item at a time and join it with new-lines.
 */
module RagPrompts {
  import opened Wrappers
  import opened Text

  /** A history entry: its "role" and "content" keys, None when the key is absent. */
  datatype Message = Message(role: Option<string>, content: Option<string>)

  const NO_HISTORY: string := "No previous conversation."
  const NO_CONTEXT: string := "No relevant policy context found."

  /** How many of the latest messages a prompt shows. */
  const RECENT: nat := 5

  /** `history[-5:]` */
  function Recent(history: seq<Message>): (r: seq<Message>)
    ensures |r| == if |history| < RECENT then |history| else RECENT
    ensures r == history[|history| - |r|..]
  {
    if |history| <= RECENT then history else history[|history| - RECENT..]
  }

  /** "Role: content", the role capitalized and "unknown" when absent, the content "" when absent. */
  function MessageLine(m: Message): (r: string)
    ensures m.role.None? && m.content.Some? ==> r == "Unknown: " + m.content.value
    ensures m.role.Some? && m.content.None? ==> r == Capitalize(m.role.value) + ": "
  {
    Capitalize(if m.role.Some? then m.role.value else "unknown") + ": "
      + (if m.content.Some? then m.content.value else "")
  }

  function Lines(ms: seq<Message>): (r: seq<string>)
    ensures |r| == |ms|
  {
    seq(|ms|, k requires 0 <= k < |ms| => MessageLine(ms[k]))
  }

  /** What `format_conversation_history` returns. */
  function HistoryText(history: seq<Message>): string {
    if history == [] then NO_HISTORY else Join(Lines(Recent(history)), "\n")
  }

  /** `format_conversation_history` */
  method FormatConversationHistory(history: seq<Message>) returns (text: string)
    ensures text == HistoryText(history)
  {
    if history == [] {
      return NO_HISTORY;
    }
    var recent := if |history| <= RECENT then history else history[|history| - RECENT..];
    var formatted: seq<string> := [];
    for i := 0 to |recent|
      invariant formatted == Lines(recent[..i])
    {
      assert recent[..i + 1] == recent[..i] + [recent[i]];
      formatted := formatted + [MessageLine(recent[i])];
    }
    assert recent[..|recent|] == recent;
    text := Join(formatted, "\n");
  }

  /** "[Context i]", a new-line, the passage and a new-line. */
  function ChunkBlock(index: nat, chunk: string): string {
    "[Context " + NatToString(index) + "]\n" + chunk + "\n"
  }

  /** The blocks of the passages, numbered from 1. */
  function Blocks(chunks: seq<string>): (r: seq<string>)
    ensures |r| == |chunks|
  {
    seq(|chunks|, k requires 0 <= k < |chunks| => ChunkBlock(k + 1, chunks[k]))
  }

  /** What `format_context_chunks` returns. */
  function ContextText(chunks: seq<string>): string {
    if chunks == [] then NO_CONTEXT else Join(Blocks(chunks), "\n")
  }

  /** `format_context_chunks` */
  method FormatContextChunks(chunks: seq<string>) returns (text: string)
    ensures text == ContextText(chunks)
  {
    if chunks == [] {
      return NO_CONTEXT;
    }
    var formatted: seq<string> := [];
    for idx := 1 to |chunks| + 1
      invariant formatted == Blocks(chunks[..idx - 1])
    {
      assert chunks[..idx] == chunks[..idx - 1] + [chunks[idx - 1]];
      formatted := formatted + [ChunkBlock(idx, chunks[idx - 1])];
    }
    assert chunks[..|chunks|] == chunks;
    text := Join(formatted, "\n");
  }

  // ---------------------------------------------------------------- properties

  /** Messages older than the last five never reach the prompt. */
  lemma OlderMessagesDropped(older: seq<Message>, latest: seq<Message>)
    requires |latest| >= RECENT
    ensures HistoryText(older + latest) == HistoryText(latest)
  {
    var all := older + latest;
    assert all[|all| - RECENT..] == latest[|latest| - RECENT..];
    assert Recent(all) == Recent(latest);
  }

  /** While the history is short, a new message adds one line below the others. */
  lemma ShortHistoryGrows(history: seq<Message>, m: Message)
    requires 0 < |history| < RECENT
    ensures HistoryText(history + [m]) == HistoryText(history) + "\n" + MessageLine(m)
  {
    assert Lines(history + [m]) == Lines(history) + [MessageLine(m)];
    JoinAppend(Lines(history), "\n", MessageLine(m));
  }

  /** A single message is its own line, with "Unknown" standing in for a missing role. */
  lemma SingleMessage(m: Message)
    ensures HistoryText([m]) == MessageLine(m)
    ensures m.role.None? ==> HistoryText([m]) == "Unknown: " + (if m.content.Some? then m.content.value else "")
  {
    assert Lines([m]) == [MessageLine(m)];
  }

  /** Each further passage adds a new-line and its block, numbered one past the last. */
  lemma ContextGrows(chunks: seq<string>, c: string)
    requires chunks != []
    ensures ContextText(chunks + [c]) == ContextText(chunks) + "\n" + ChunkBlock(|chunks| + 1, c)
  {
    assert Blocks(chunks + [c]) == Blocks(chunks) + [ChunkBlock(|chunks| + 1, c)];
    JoinAppend(Blocks(chunks), "\n", ChunkBlock(|chunks| + 1, c));
  }

  /** A single passage is "[Context 1]", the passage and a new-line. */
  lemma SingleChunk(c: string)
    ensures ContextText([c]) == "[Context 1]\n" + c + "\n"
  {
    assert Blocks([c]) == [ChunkBlock(1, c)];
    assert NatToString(1) == "1";
  }
}
