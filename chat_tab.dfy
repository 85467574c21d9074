/**
 * The chat tab of app/tabs/chat_tab.py: the submission gate, the interrupt
 * action, prompt assembly, the model configuration and the streaming loop that
 * folds the service's chunks into the last chatbot row.
 *
 * The completion service is replaced by its observable behaviour: a `Stream`
 * of chunk texts that ends normally or with an exception. The Stop button,
 * which runs concurrently with the loop, is replaced by `clicks`, where
 * `clicks[k]` says whether the interrupt handler ran before the loop reached
 * chunk boundary k (and `clicks[|chunks|]` whether it ran after the last chunk).
 */
module ChatTab {
  import opened Wrappers
  import opened Utils

  /** One chatbot row: the user's message and the assistant's reply (`None` while pending). */
  datatype Turn = Turn(user: string, reply: Option<string>)

  /** An error shown to the user (`gr.Error`). */
  datatype UiError = UiError(message: string)

  const NoRepositoryError := UiError("Please select a repository first.")
  const QuotaError := UiError("The model has run out of resources. Please try again later.")
  const GenerationError := UiError("An error occurred while generating content.")

  /** A widget update returned to the UI: whether the widget becomes interactive. */
  datatype WidgetUpdate = WidgetUpdate(interactive: bool)

  /** What a successful submission returns: the new message box text and the Stop button update. */
  datatype SubmitReply = SubmitReply(message: string, stopButton: WidgetUpdate)

  /** The exceptions the completion service raises: a quota error, or anything else. */
  datatype ServiceError = ResourceExhausted | OtherError

  /** A streamed response: the chunk texts in order, then the normal end or an exception. */
  datatype Stream = Stream(chunks: seq<string>, failure: Option<ServiceError>)

  /** How a streaming call ends. */
  datatype Outcome = Completed | Interrupted | Failed(error: UiError)

  // Keys of the shared `state` dictionary that this tab reads.
  const ContextKey := "all_file_contents_prompt"
  const DiffFlagKey := "is_enable_diff"
  const DiffBranch1Key := "diff_branch_1"
  const DiffBranch2Key := "diff_branch_2"
  const DiffContentKey := "diff_content_prompt"
  const SystemMessageKey := "system_message"

  // ---------------------------------------------------------------------------
  // Prompt assembly
  // ---------------------------------------------------------------------------

  const FileFraming := "The original code documentation consists of several files. Each file's content is enclosed within code blocks, with the file path and name indicated at the beginning of each block. When referencing specific sections of the code, always include the file name and path to help users identify the source file accurately."
  const PathFraming := "When returning the code to the user, if it is necessary to mention the file path, please include the file path within the code block. Each section of the code should have the corresponding file path and name at the beginning of the code block for clarity."
  const SourceBegin := "<Source Code Begin>"
  const SourceEnd := "<Source Code End>"
  const DiffBegin := "<Diff Content Begin>"
  const DiffEnd := "<Diff Content End>"

  /** The sentence that introduces the diff between two branches. */
  function DiffIntro(branch1: string, branch2: string): string {
    "The diff content between the two branches `" + branch1 + "` and `" + branch2 + "` is as follows:"
  }

  /** The entries of `state` that the code prompts read, present and holding text. */
  predicate CodePromptsReady(state: Dict) {
    && ContextKey in state && state[ContextKey].Text?
    && DiffFlagKey in state
    && (Truthy(state[DiffFlagKey]) ==>
          && DiffBranch1Key in state && state[DiffBranch1Key].Text?
          && DiffBranch2Key in state && state[DiffBranch2Key].Text?
          && DiffContentKey in state && state[DiffContentKey].Text?)
  }

  /** Whether the diff block is part of the prompt. */
  predicate DiffEnabled(state: Dict)
    requires DiffFlagKey in state
  {
    Truthy(state[DiffFlagKey])
  }

  /**
   * `_prepare_code_prompts`: two framing paragraphs, the repository blob between
   * its markers and, when diff mode is on, the diff blob between its own markers.
   */
  function PrepareCodePrompts(state: Dict): (p: seq<string>)
    requires CodePromptsReady(state)
    ensures |p| == if DiffEnabled(state) then 9 else 5
    ensures p[0] == FileFraming && p[1] == PathFraming
    ensures p[2] == SourceBegin && p[3] == state[ContextKey].s && p[4] == SourceEnd
    ensures DiffEnabled(state) ==>
      && p[5] == DiffIntro(state[DiffBranch1Key].s, state[DiffBranch2Key].s)
      && p[6] == DiffBegin && p[7] == state[DiffContentKey].s && p[8] == DiffEnd
  {
    var prompts := [FileFraming, PathFraming, SourceBegin, state[ContextKey].s, SourceEnd];
    if Truthy(state[DiffFlagKey]) then
      prompts + [DiffIntro(state[DiffBranch1Key].s, state[DiffBranch2Key].s), DiffBegin, state[DiffContentKey].s, DiffEnd]
    else
      prompts
  }

  /** A reply as an f-string renders it: the text, or `None` for a reply never received. */
  function ReplyText(reply: Option<string>): string {
    match reply
    case Some(s) => s
    case None => "None"
  }

  function UserLine(t: Turn): string { "user: " + t.user }
  function AiLine(t: Turn): string { "ai: " + ReplyText(t.reply) }

  /** The serialised conversation: a user line and an ai line per turn, in order. */
  function HistoryLines(turns: seq<Turn>): (lines: seq<string>)
    ensures |lines| == 2 * |turns|
    ensures forall i :: 0 <= i < |turns| ==> lines[2 * i] == UserLine(turns[i]) && lines[2 * i + 1] == AiLine(turns[i])
  {
    if turns == [] then []
    else
      var front := turns[..|turns| - 1];
      assert forall i :: 0 <= i < |front| ==> front[i] == turns[i];
      HistoryLines(front) + [UserLine(turns[|turns| - 1]), AiLine(turns[|turns| - 1])]
  }

  /**
   * The list sent to the service: the code prompts, two lines per earlier turn,
   * and the new user message.
   */
  function PromptParts(codePrompts: seq<string>, history: seq<Turn>): (p: seq<string>)
    requires |history| > 0
    ensures |p| == |codePrompts| + 2 * (|history| - 1) + 1
    ensures p[..|codePrompts|] == codePrompts
    ensures forall i :: 0 <= i < |history| - 1 ==>
      p[|codePrompts| + 2 * i] == UserLine(history[i]) && p[|codePrompts| + 2 * i + 1] == AiLine(history[i])
    ensures p[|p| - 1] == "user:\n" + history[|history| - 1].user
  {
    var earlier := history[..|history| - 1];
    assert forall i :: 0 <= i < |earlier| ==> earlier[i] == history[i];
    codePrompts + HistoryLines(earlier) + ["user:\n" + history[|history| - 1].user]
  }

  /** The loop of `_streaming_llm_response` that serialises the earlier turns. */
  method SerializeHistory(turns: seq<Turn>) returns (lines: seq<string>)
    ensures lines == HistoryLines(turns)
  {
    lines := [];
    var i := 0;
    while i < |turns|
      invariant 0 <= i <= |turns|
      invariant lines == HistoryLines(turns[..i])
    {
      assert turns[..i + 1][..i] == turns[..i];
      lines := lines + [UserLine(turns[i]), AiLine(turns[i])];
      i := i + 1;
    }
    assert turns[..|turns|] == turns;
  }

  // ---------------------------------------------------------------------------
  // Model configuration
  // ---------------------------------------------------------------------------

  datatype HarmCategory = Harassment | HateSpeech | SexuallyExplicit | DangerousContent {
    /** The category's name in the service's safety settings. */
    function Name(): string {
      match this
      case Harassment => "HARM_CATEGORY_HARASSMENT"
      case HateSpeech => "HARM_CATEGORY_HATE_SPEECH"
      case SexuallyExplicit => "HARM_CATEGORY_SEXUALLY_EXPLICIT"
      case DangerousContent => "HARM_CATEGORY_DANGEROUS_CONTENT"
    }
  }

  const BlockNone := "BLOCK_NONE"

  /** The position of each category in the safety settings. */
  function CategoryIndex(h: HarmCategory): nat {
    match h
    case Harassment => 0
    case HateSpeech => 1
    case SexuallyExplicit => 2
    case DangerousContent => 3
  }

  datatype SafetySetting = SafetySetting(category: HarmCategory, threshold: string)
  datatype GenerationConfig = GenerationConfig(temperature: Value, topP: int, topK: int, maxOutputTokens: int)
  datatype ModelConfig = ModelConfig(
    modelName: Value,
    generation: GenerationConfig,
    safety: seq<SafetySetting>,
    systemInstruction: Value)

  /** The entries of `state` that `_prepare_model` reads. */
  predicate ModelSettingsPresent(state: Dict) {
    Temperature in state && ModelKey in state && SystemMessageKey in state
  }

  /**
   * `_prepare_model`: the temperature, model name and system message come from
   * `state`; the sampling limits are fixed; every harm category is unblocked.
   */
  function PrepareModel(state: Dict): (c: ModelConfig)
    requires ModelSettingsPresent(state)
    ensures c.modelName == state[ModelKey] && c.systemInstruction == state[SystemMessageKey]
    ensures c.generation.temperature == state[Temperature]
    ensures c.generation.topP == 1 && c.generation.topK == 32 && c.generation.maxOutputTokens == 8192
    ensures |c.safety| == 4
    ensures forall h: HarmCategory :: SafetySetting(h, BlockNone) in c.safety
  {
    var safety := [
      SafetySetting(Harassment, BlockNone), SafetySetting(HateSpeech, BlockNone),
      SafetySetting(SexuallyExplicit, BlockNone), SafetySetting(DangerousContent, BlockNone)];
    assert forall h: HarmCategory :: SafetySetting(h, BlockNone) == safety[CategoryIndex(h)];
    ModelConfig(state[ModelKey], GenerationConfig(state[Temperature], 1, 32, 8192), safety, state[SystemMessageKey])
  }

  /** The safety settings name the four harm categories in the service's terms, in this order. */
  lemma SafetyCategoryNames(state: Dict)
    requires ModelSettingsPresent(state)
    ensures var safety := PrepareModel(state).safety;
      [safety[0].category.Name(), safety[1].category.Name(), safety[2].category.Name(), safety[3].category.Name()] ==
      ["HARM_CATEGORY_HARASSMENT", "HARM_CATEGORY_HATE_SPEECH", "HARM_CATEGORY_SEXUALLY_EXPLICIT", "HARM_CATEGORY_DANGEROUS_CONTENT"]
  {
  }

  // ---------------------------------------------------------------------------
  // The streaming loop, as a specification
  // ---------------------------------------------------------------------------

  /** The chunk texts joined in order. */
  function Concat(chunks: seq<string>): string {
    if chunks == [] then "" else chunks[0] + Concat(chunks[1..])
  }

  /** `reply or ""`. */
  function OrEmpty(reply: Option<string>): string {
    reply.GetOr("")
  }

  /** The reply after `reply = (reply or "") + chunk` has run for each of `chunks`. */
  function Extend(reply: Option<string>, chunks: seq<string>): Option<string> {
    if chunks == [] then reply else Some(OrEmpty(reply) + Concat(chunks))
  }

  /** The index of the first `true` in `s`, or `|s|` when there is none. */
  function FirstTrue(s: seq<bool>): (k: nat)
    ensures k <= |s|
    ensures k < |s| ==> s[k]
    ensures forall j :: 0 <= j < k ==> !s[j]
  {
    if s == [] || s[0] then 0 else 1 + FirstTrue(s[1..])
  }

  /** Whether the flag reads true at chunk boundary `k`, with no reset before it. */
  predicate FlagSeenAt(flag0: bool, clicks: seq<bool>, k: nat)
    requires k < |clicks|
  {
    flag0 || exists j :: 0 <= j <= k && clicks[j]
  }

  /**
   * The first boundary at which the loop sees the flag set: 0 when it was
   * already set before the loop, else the first boundary preceded by a click.
   */
  function StopPoint(flag0: bool, clicks: seq<bool>): (k: nat)
    ensures k <= |clicks|
    ensures k < |clicks| ==> FlagSeenAt(flag0, clicks, k)
    ensures forall j :: 0 <= j < k && j < |clicks| ==> !FlagSeenAt(flag0, clicks, j)
  {
    if flag0 then 0 else FirstTrue(clicks)
  }

  /** The user-facing error each service exception maps to. */
  function ErrorFor(e: ServiceError): (u: UiError)
    ensures e.ResourceExhausted? <==> u == QuotaError
    ensures e.OtherError? <==> u == GenerationError
  {
    match e
    case ResourceExhausted => QuotaError
    case OtherError => GenerationError
  }

  /** What one streaming call leaves behind. */
  datatype StreamRun = StreamRun(consumed: nat, reply: Option<string>, flag: bool, outcome: Outcome)

  /**
   * The effect of the chunk loop on the last reply and on the interrupt flag.
   * The loop stops at the first boundary where the flag is seen (clearing it);
   * otherwise every chunk is appended, a click after the last chunk leaves the
   * flag set, and an exception at the end of the stream becomes its UI error.
   */
  function Run(reply0: Option<string>, flag0: bool, stream: Stream, clicks: seq<bool>): (r: StreamRun)
    requires |clicks| == |stream.chunks| + 1
    ensures r.consumed <= |stream.chunks|
    ensures r.outcome.Interrupted? <==> StopPoint(flag0, clicks) < |stream.chunks|
    ensures r.outcome.Interrupted? ==> !r.flag && r.consumed == StopPoint(flag0, clicks)
    ensures r.outcome.Failed? <==> !r.outcome.Interrupted? && stream.failure.Some?
    ensures r.outcome.Failed? ==> r.outcome.error == ErrorFor(stream.failure.value)
    ensures !r.outcome.Interrupted? ==>
      r.consumed == |stream.chunks| && r.flag == (flag0 || clicks[|stream.chunks|])
    ensures r.reply == Extend(reply0, stream.chunks[..r.consumed])
  {
    var n := |stream.chunks|;
    var k := StopPoint(flag0, clicks);
    assert stream.chunks[..n] == stream.chunks;
    if k < n then
      StreamRun(k, Extend(reply0, stream.chunks[..k]), false, Interrupted)
    else
      StreamRun(n, Extend(reply0, stream.chunks), flag0 || clicks[n],
        if stream.failure.None? then Completed else Failed(ErrorFor(stream.failure.value)))
  }

  // ---------------------------------------------------------------------------
  // Properties of the streaming loop
  // ---------------------------------------------------------------------------

  lemma {:induction false} ConcatAppend(chunks: seq<string>, c: string)
    ensures Concat(chunks + [c]) == Concat(chunks) + c
  {
    if chunks == [] {
      assert [c][1..] == [];
    } else {
      assert (chunks + [c])[1..] == chunks[1..] + [c];
      ConcatAppend(chunks[1..], c);
    }
  }

  lemma {:induction false} ConcatSplit(chunks: seq<string>, i: nat)
    requires i <= |chunks|
    ensures Concat(chunks) == Concat(chunks[..i]) + Concat(chunks[i..])
  {
    if i > 0 {
      assert chunks[..i][1..] == chunks[1..][..i - 1];
      assert chunks[i..] == chunks[1..][i - 1..];
      ConcatSplit(chunks[1..], i - 1);
    } else {
      assert chunks[i..] == chunks;
    }
  }

  /** One loop step: appending chunk `c` to the reply accumulated from `chunks`. */
  lemma ExtendStep(reply: Option<string>, chunks: seq<string>, c: string)
    ensures Extend(reply, chunks + [c]) == Some(OrEmpty(Extend(reply, chunks)) + c)
  {
    ConcatAppend(chunks, c);
    if chunks == [] {
      assert chunks + [c] == [c];
      assert Concat([c]) == c;
    } else {
      assert OrEmpty(Extend(reply, chunks)) == OrEmpty(reply) + Concat(chunks);
      assert OrEmpty(reply) + (Concat(chunks) + c) == (OrEmpty(reply) + Concat(chunks)) + c;
    }
  }

  /** For a pending reply, the accumulated text is exactly the chunks joined. */
  lemma ExtendPending(chunks: seq<string>)
    ensures Extend(None, chunks) == if chunks == [] then None else Some(Concat(chunks))
  {
    assert OrEmpty(None) == "";
    assert "" + Concat(chunks) == Concat(chunks);
  }

  /** Each reply shown to the user extends every earlier one as a prefix. */
  lemma ReplyGrowsByPrefix(reply: Option<string>, chunks: seq<string>, i: nat, j: nat)
    requires i <= j <= |chunks|
    ensures OrEmpty(Extend(reply, chunks[..i])) <= OrEmpty(Extend(reply, chunks[..j]))
  {
    ConcatSplit(chunks[..j], i);
    assert chunks[..j][..i] == chunks[..i];
  }

  /**
   * With the flag never seen and no exception, the reply of a pending turn is
   * the concatenation of all chunks, or still `None` for an empty stream.
   */
  lemma CompletedReplyIsConcatenation(flag0: bool, stream: Stream, clicks: seq<bool>)
    requires |clicks| == |stream.chunks| + 1
    requires forall k :: 0 <= k < |stream.chunks| ==> !FlagSeenAt(flag0, clicks, k)
    requires stream.failure.None?
    ensures Run(None, flag0, stream, clicks).outcome == Completed
    ensures Run(None, flag0, stream, clicks).consumed == |stream.chunks|
    ensures Run(None, flag0, stream, clicks).reply == if stream.chunks == [] then None else Some(Concat(stream.chunks))
  {
    ExtendPending(stream.chunks);
    var k := StopPoint(flag0, clicks);
    if k < |stream.chunks| {
      assert false;
    }
  }

  /**
   * When the flag is first seen before chunk `k`, the loop stops there without
   * error, clears the flag, and the reply holds chunks `0..k-1` (`None` if k = 0),
   * whatever the stream would have raised later.
   */
  lemma InterruptKeepsPrefix(flag0: bool, stream: Stream, clicks: seq<bool>, k: nat)
    requires |clicks| == |stream.chunks| + 1
    requires k < |stream.chunks|
    requires FlagSeenAt(flag0, clicks, k)
    requires forall j :: 0 <= j < k ==> !FlagSeenAt(flag0, clicks, j)
    ensures Run(None, flag0, stream, clicks) ==
      StreamRun(k, if k == 0 then None else Some(Concat(stream.chunks[..k])), false, Interrupted)
  {
    var sp := StopPoint(flag0, clicks);
    if sp < k {
      assert false;
    }
    assert sp == k;
    assert stream.chunks[..k] == [] <==> k == 0;
    ExtendPending(stream.chunks[..k]);
  }

  /**
   * An exception ends the call with its UI error (the quota error for
   * `ResourceExhausted`, the generic one otherwise) and the text received
   * before it stays in the reply.
   */
  lemma FailureKeepsPartialText(reply0: Option<string>, flag0: bool, stream: Stream, clicks: seq<bool>)
    requires |clicks| == |stream.chunks| + 1
    requires forall k :: 0 <= k < |stream.chunks| ==> !FlagSeenAt(flag0, clicks, k)
    requires stream.failure.Some?
    ensures Run(reply0, flag0, stream, clicks).outcome ==
      Failed(if stream.failure.value == ResourceExhausted then QuotaError else GenerationError)
    ensures Run(reply0, flag0, stream, clicks).reply == Extend(reply0, stream.chunks)
  {
  }

  /** A click after the last chunk is never seen by the loop: the flag stays set. */
  lemma LateInterruptStaysSet(flag0: bool, stream: Stream, clicks: seq<bool>)
    requires |clicks| == |stream.chunks| + 1
    requires forall k :: 0 <= k < |stream.chunks| ==> !FlagSeenAt(flag0, clicks, k)
    requires clicks[|stream.chunks|]
    ensures Run(None, flag0, stream, clicks).flag
    ensures !Run(None, flag0, stream, clicks).outcome.Interrupted?
  {
  }

  /**
   * A flag left set by an earlier call stops the next non-empty stream before
   * its first chunk: the new turn gets no reply at all.
   */
  lemma StaleFlagDropsNextReply(reply0: Option<string>, stream: Stream, clicks: seq<bool>)
    requires |clicks| == |stream.chunks| + 1
    requires stream.chunks != []
    ensures Run(reply0, true, stream, clicks) == StreamRun(0, reply0, false, Interrupted)
  {
  }

  /** Chunks "a", "b", "c" with Stop pressed before the second one: the reply is "a". */
  lemma StopBeforeSecondChunk()
    ensures Run(None, false, Stream(["a", "b", "c"], None), [false, true, false, false]) ==
      StreamRun(1, Some("a"), false, Interrupted)
  {
    var chunks, clicks := ["a", "b", "c"], [false, true, false, false];
    assert clicks[1];
    assert FlagSeenAt(false, clicks, 1);
    assert !FlagSeenAt(false, clicks, 0);
    InterruptKeepsPrefix(false, Stream(chunks, None), clicks, 1);
    assert chunks[..1] == ["a"];
    assert ["a"][1..] == [];
    assert Concat(["a"]) == "a";
  }

  // ---------------------------------------------------------------------------
  // The tab's state and handlers
  // ---------------------------------------------------------------------------

  /**
   * The module's interrupt flag `_is_interrupted` together with the chatbot's
   * value, the list of rows every handler receives and mutates in place.
   */
  class Session {
    var isInterrupted: bool
    var history: seq<Turn>

    /** The flag starts cleared; the chatbot starts with the rows it is given. */
    constructor (rows: seq<Turn>)
      ensures !isInterrupted && history == rows
    {
      isInterrupted := false;
      history := rows;
    }

    /** `_on_click_interrupt`: sets the flag (whatever it was, so twice is as once) and disables Stop. */
    method OnClickInterrupt() returns (stopButton: WidgetUpdate)
      modifies this`isInterrupted
      ensures isInterrupted
      ensures stopButton == WidgetUpdate(false)
    {
      isInterrupted := true;
      stopButton := WidgetUpdate(false);
    }

    /**
     * `_on_submit_message`: with no repository context the call fails and the
     * rows are untouched; otherwise a pending row is appended, the message box
     * is cleared and the Stop button enabled.
     */
    method OnSubmitMessage(userInput: string, state: Dict) returns (r: Result<SubmitReply, UiError>)
      requires ContextKey in state
      modifies this`history
      ensures state[ContextKey] == Null ==> r == Err(NoRepositoryError) && history == old(history)
      ensures state[ContextKey] != Null ==>
        r == Ok(SubmitReply("", WidgetUpdate(true))) && history == old(history) + [Turn(userInput, None)]
    {
      if state[ContextKey] == Null {
        return Err(NoRepositoryError);
      }
      history := history + [Turn(userInput, None)];
      r := Ok(SubmitReply("", WidgetUpdate(true)));
    }

    /**
     * `_streaming_llm_response`: builds the configuration and the prompt, then
     * runs the chunk loop (`FoldChunks`) on the last row.
     */
    method StreamLlmResponse(state: Dict, stream: Stream, clicks: seq<bool>)
      returns (config: ModelConfig, prompt: seq<string>, shown: seq<seq<Turn>>, outcome: Outcome)
      requires |history| > 0
      requires ModelSettingsPresent(state) && CodePromptsReady(state)
      requires |clicks| == |stream.chunks| + 1
      modifies this
      ensures config == PrepareModel(state)
      ensures prompt == PromptParts(PrepareCodePrompts(state), old(history))
      ensures var last := |old(history)| - 1;
        var run := Run(old(history)[last].reply, old(isInterrupted), stream, clicks);
        && history == old(history)[..last] + [Turn(old(history)[last].user, run.reply)]
        && isInterrupted == run.flag
        && outcome == run.outcome
        && |shown| == run.consumed
        && forall i :: 0 <= i < |shown| ==>
             shown[i] == old(history)[..last] + [Turn(old(history)[last].user, Extend(old(history)[last].reply, stream.chunks[..i + 1]))]
    {
      config := PrepareModel(state);
      var last := |history| - 1;
      var userInput := history[last].user;
      var codePrompts := PrepareCodePrompts(state);
      var messageHistory := SerializeHistory(history[..last]);
      prompt := codePrompts + messageHistory + ["user:\n" + userInput];
      shown, outcome := FoldChunks(stream, clicks);
    }

    /**
     * The `try` block of `_streaming_llm_response`: folds the chunks into the
     * last row's reply, yielding the rows after each chunk, until the stream
     * ends, raises, or the flag is seen at a chunk boundary.
     */
    method FoldChunks(stream: Stream, clicks: seq<bool>) returns (shown: seq<seq<Turn>>, outcome: Outcome)
      requires |history| > 0
      requires |clicks| == |stream.chunks| + 1
      modifies this
      ensures var last := |old(history)| - 1;
        var run := Run(old(history)[last].reply, old(isInterrupted), stream, clicks);
        && history == old(history)[..last] + [Turn(old(history)[last].user, run.reply)]
        && isInterrupted == run.flag
        && outcome == run.outcome
        && |shown| == run.consumed
        && forall i :: 0 <= i < |shown| ==>
             shown[i] == old(history)[..last] + [Turn(old(history)[last].user, Extend(old(history)[last].reply, stream.chunks[..i + 1]))]
    {
      var last := |history| - 1;
      var userInput := history[last].user;
      ghost var rows0, reply0, flag0 := history[..last], history[last].reply, isInterrupted;
      ghost var stop := StopPoint(flag0, clicks);
      var chunks := stream.chunks;
      var n := |chunks|;
      shown := [];
      outcome := Completed;
      var i := 0;
      assert history == rows0 + [Turn(userInput, Extend(reply0, chunks[..0]))] by {
        assert chunks[..0] == [];
      }
      while i < n
        invariant 0 <= i <= n && i <= stop
        invariant isInterrupted == (flag0 && i == 0)
        invariant outcome == Completed
        invariant history == rows0 + [Turn(userInput, Extend(reply0, chunks[..i]))]
        invariant |shown| == i
        invariant forall j :: 0 <= j < i ==> shown[j] == rows0 + [Turn(userInput, Extend(reply0, chunks[..j + 1]))]
      {
        // A Stop click that landed before this chunk boundary.
        if clicks[i] {
          isInterrupted := true;
        }
        if isInterrupted {
          assert i == stop;
          isInterrupted := false;
          outcome := Interrupted;
          break;
        }
        assert i != stop by {
          assert !FlagSeenAt(flag0, clicks, i) by {
            if i > 0 {
              assert !FlagSeenAt(flag0, clicks, i - 1);
            }
          }
        }
        var reply := Some(OrEmpty(history[last].reply) + chunks[i]);
        assert reply == Extend(reply0, chunks[..i + 1]) by {
          ExtendStep(reply0, chunks[..i], chunks[i]);
          assert chunks[..i + 1] == chunks[..i] + [chunks[i]];
        }
        history := history[last := Turn(userInput, reply)];
        assert history == rows0 + [Turn(userInput, reply)];
        shown := shown + [history];
        i := i + 1;
      }
      if outcome == Completed {
        assert i == n && n <= stop;
        assert chunks[..n] == chunks;
        // A Stop click after the last chunk: the flag is set but no longer read.
        if clicks[n] {
          isInterrupted := true;
        }
        if stream.failure.Some? {
          outcome := Failed(ErrorFor(stream.failure.value));
        }
      }
    }

    /**
     * The event chain of `layout`: a submitted message goes through the gate
     * and, only when the gate accepts it, the response is streamed into the new row.
     */
    method OnMessageSubmitted(userInput: string, state: Dict, stream: Stream, clicks: seq<bool>)
      returns (r: Result<SubmitReply, UiError>, outcome: Option<Outcome>)
      requires ContextKey in state
      requires state[ContextKey] != Null ==> ModelSettingsPresent(state) && CodePromptsReady(state)
      requires |clicks| == |stream.chunks| + 1
      modifies this
      ensures state[ContextKey] == Null <==> r == Err(NoRepositoryError)
      ensures state[ContextKey] != Null ==> r.Ok?
      ensures r.Ok? ==> r.value == SubmitReply("", WidgetUpdate(true))
      ensures r.Err? <==> outcome.None?
      ensures r.Err? ==> history == old(history) && isInterrupted == old(isInterrupted)
      ensures r.Ok? ==>
        var run := Run(None, old(isInterrupted), stream, clicks);
        && history == old(history) + [Turn(userInput, run.reply)]
        && isInterrupted == run.flag
        && outcome == Some(run.outcome)
    {
      r := OnSubmitMessage(userInput, state);
      if r.Err? {
        return r, None;
      }
      var config, prompt, shown, o := StreamLlmResponse(state, stream, clicks);
      assert (old(history) + [Turn(userInput, None)])[..|old(history)|] == old(history);
      outcome := Some(o);
    }
  }
}
