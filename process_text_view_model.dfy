/**
 * The screen that simplifies a selected text: each `processText` call supersedes the
 * previous one, initializes the engine on demand, refuses inputs over the token
 * limit, asks the engine once, and then reveals the answer word by word
 * ("pseudo-streaming") before recording the session's metrics.
 *
 * The coroutine of one call is a job. A job runs from one suspension point to the
 * next in one step: `RunEngine` (the engine call), `Append` (one revealed word, then
 * the pause), `Finish` (the final state and the metrics). A job stays in `jobs` until
 * it ends; only the most recent one is current.
 */
module ProcessScreen {
  import opened Wrappers
  import opened Text
  import opened PromptTemplates
  import opened Diagnostics
  import Engine
  import AssetProvisioning
  import NativeLibrary

  /** The token budget for the user's own text. */
  const LIMIT_TOKENS: nat := 1200
  const END_MARKER: string := "### End"
  const BYTES_PER_MB: nat := 1024 * 1024

  const TOO_LONG_MESSAGE: string := "Please select a smaller amount of text for this version."
  const OUT_OF_MEMORY_MESSAGE: string := "Not enough memory to process this text."
  const GENERIC_MESSAGE: string := "An error occurred. Please try again."

  datatype UiState = UiState(isProcessing: bool, processedText: string, error: Option<string>)

  const INITIAL_STATE: UiState := UiState(false, "", None)

  /** How the engine's `processText(prompt)` answers: a text, an `OutOfMemoryError`, or another exception. */
  datatype EngineReply = Answered(text: string) | OutOfMemoryError | EngineException

  // ---------------------------------------------------------------------------
  // The engine call and its outcome
  // ---------------------------------------------------------------------------

  /**
   * How `initialize {}.collect()` ends when the engine is not ready: the flow completes,
   * it throws the `ModelInitializationException` into which `initialize` wraps every
   * `Exception`, or an `OutOfMemoryError` passes through it, since `initialize` catches
   * only `Exception`s.
   */
  datatype InitReply = InitCompletes | InitThrows | InitOutOfMemory

  /** The engine is asked when it is (or could be made) ready and the input fits the budget. */
  predicate EngineCalled(ready: bool, init: InitReply, tokens: nat) {
    (ready || init.InitCompletes?) && tokens <= LIMIT_TOKENS
  }

  datatype StepOutcome = Rejected(code: ErrorCode, message: string) | Proceed(text: string)

  /**
   * What the call comes to before streaming: an initialization that runs out of memory
   * falls into the `OutOfMemoryError` handler and any other failed initialization into
   * the generic one, an input over the limit is refused, and the engine's answer is
   * either streamed or mapped to its error.
   */
  function EngineOutcome(ready: bool, init: InitReply, tokens: nat, reply: EngineReply): (r: StepOutcome)
    ensures r.Proceed? <==> EngineCalled(ready, init, tokens) && reply.Answered?
    ensures r.Proceed? ==> reply == Answered(r.text)
    ensures !ready && init.InitThrows? ==> r == Rejected(ProcessingFailed, GENERIC_MESSAGE)
    ensures (ready || init.InitCompletes?) && tokens > LIMIT_TOKENS ==> r == Rejected(TextTooLong, TOO_LONG_MESSAGE)
    ensures r == Rejected(OutOfMemory, OUT_OF_MEMORY_MESSAGE)
            <==> (!ready && init.InitOutOfMemory?) || (EngineCalled(ready, init, tokens) && reply.OutOfMemoryError?)
    ensures r.Rejected? ==>
              (r.code == TextTooLong && r.message == TOO_LONG_MESSAGE)
              || (r.code == OutOfMemory && r.message == OUT_OF_MEMORY_MESSAGE)
              || (r.code == ProcessingFailed && r.message == GENERIC_MESSAGE)
  {
    if !ready && init.InitOutOfMemory? then Rejected(OutOfMemory, OUT_OF_MEMORY_MESSAGE)
    else if !ready && init.InitThrows? then Rejected(ProcessingFailed, GENERIC_MESSAGE)
    else if tokens > LIMIT_TOKENS then Rejected(TextTooLong, TOO_LONG_MESSAGE)
    else match reply
      case Answered(text) => Proceed(text)
      case OutOfMemoryError => Rejected(OutOfMemory, OUT_OF_MEMORY_MESSAGE)
      case EngineException => Rejected(ProcessingFailed, GENERIC_MESSAGE)
  }

  /** Counts of 1190 and of exactly 1200 reach the engine; 1201 is refused as too long. */
  lemma GateBoundary(init: InitReply, reply: EngineReply)
    ensures EngineCalled(true, init, 1190) && EngineCalled(true, init, 1200)
    ensures !EngineCalled(true, init, 1201)
    ensures EngineOutcome(true, init, 1201, reply) == Rejected(TextTooLong, TOO_LONG_MESSAGE)
  {
  }

  /** What the screen sees of the engine's `initialize` flow ending with `r`. */
  function InitReplyOf(r: Outcome<Engine.EngineError>): InitReply {
    if r.Pass? then InitCompletes
    else if r.error.OutOfMemoryError? then InitOutOfMemory
    else InitThrows
  }

  /**
   * Joined to the engine: a model load that runs out of memory reaches the screen's
   * `OutOfMemoryError` handler, while every other failed initialization (a missing
   * asset, a copy error, a load that throws or answers false) reaches the generic one.
   */
  lemma InitOutOfMemoryReachesScreen(p: AssetProvisioning.Provisioning, load: NativeLibrary.LoadReply,
                                     tokens: nat, reply: EngineReply)
    ensures var r := EngineOutcome(false, InitReplyOf(Engine.InitOutcome(p, load)), tokens, reply);
            (r == Rejected(OutOfMemory, OUT_OF_MEMORY_MESSAGE)
             <==> (p.result.Success? && load.LoadRunsOutOfMemory?)
                  || (Engine.InitOutcome(p, load).Pass? && tokens <= LIMIT_TOKENS && reply.OutOfMemoryError?))
            && (Engine.InitOutcome(p, load).Fail? && !(p.result.Success? && load.LoadRunsOutOfMemory?)
                ==> r == Rejected(ProcessingFailed, GENERIC_MESSAGE))
  {
    if Engine.InitOutcome(p, load).Fail? {
      Engine.InitFailureWrapped(p, load);
    }
  }

  /** The answer before the end marker, without surrounding whitespace. */
  function Cleaned(simplified: string): string {
    Trim(SubstringBefore(simplified, END_MARKER))
  }

  /** Whatever follows the marker is dropped, whatever it holds. */
  lemma CleanedIgnoresTail(before: string, after: string)
    requires !Contains(before, END_MARKER)
    ensures Cleaned(before + END_MARKER + after) == Trim(before)
  {
    var s := before + END_MARKER + after;
    assert OccursAt(s, END_MARKER, |before|) by {
      assert s[|before|..|before| + |END_MARKER|] == END_MARKER;
    }
    forall j: nat | j < |before| ensures !OccursAt(s, END_MARKER, j) {
      if OccursAt(s, END_MARKER, j) && j + |END_MARKER| <= |before| {
        assert before[j..j + |END_MARKER|] == s[j..j + |END_MARKER|];
        assert OccursAt(before, END_MARKER, j);
      }
      if OccursAt(s, END_MARKER, j) && j + |END_MARKER| > |before| {
        MarkerNoSelfOverlap(before, after, j);
      }
    }
    IndexFromAt(s, END_MARKER, 0, |before|);
    assert s[..|before|] == before;
  }

  /**
   * A marker occurrence cannot start inside `before` and run into the appended
   * marker: "### End" has no proper suffix that is also a prefix of it.
   */
  lemma MarkerNoSelfOverlap(before: string, after: string, j: nat)
    requires j < |before| < j + |END_MARKER|
    ensures !OccursAt(before + END_MARKER + after, END_MARKER, j)
  {
    var s := before + END_MARKER + after;
    var d := |before| - j;
    if d <= 2 {
      assert s[j + 3] == END_MARKER[3 - d];
      assert s[j + 3] != END_MARKER[3];
    } else {
      assert s[j + d] == END_MARKER[0];
      assert s[j + d] != END_MARKER[d];
    }
  }

  /** A text without '#' cannot hold the marker. */
  lemma NoHashNoMarker(s: string)
    requires '#' !in s
    ensures !Contains(s, END_MARKER)
  {
    forall j: nat | j + |END_MARKER| <= |s| ensures !OccursAt(s, END_MARKER, j) {
      assert s[j] != END_MARKER[0];
    }
  }

  /** The revealed words: `split(Regex("\\s+"))` with the empty pieces filtered out. */
  function StreamWords(cleaned: string): (words: seq<string>)
    ensures forall k :: 0 <= k < |words| ==> words[k] != []
  {
    FilterNonEmpty(RegexSplit(cleaned))
  }

  /** Kotlin's `(outTokenCount * 1000.0) / elapsed`, and 0.0 for a non-positive elapsed time. */
  function Throughput(outTokens: nat, elapsedMs: int): (tps: real)
    ensures tps >= 0.0
    ensures elapsedMs <= 0 ==> tps == 0.0
    ensures elapsedMs > 0 ==> tps * elapsedMs as real == outTokens as real * 1000.0
  {
    if elapsedMs > 0 then (outTokens as real * 1000.0) / elapsedMs as real else 0.0
  }

  /** Whole mebibytes of a byte count, truncated as Kotlin's `Long` division does for non-negative values. */
  function MemoryMb(bytes: nat): (mb: nat)
    ensures mb * BYTES_PER_MB <= bytes < (mb + 1) * BYTES_PER_MB
  {
    bytes / BYTES_PER_MB
  }

  // ---------------------------------------------------------------------------
  // Jobs
  // ---------------------------------------------------------------------------

  /**
   * A job waiting in the engine call, or one revealing its answer: `next` words of
   * `words` are already in the builder `built`; `elapsedMs` is the time to first token.
   */
  datatype Job =
    | Launched(input: string)
    | Streaming(input: string, cleaned: string, words: seq<string>, next: nat, built: string,
                elapsedMs: int)

  ghost predicate JobValid(j: Job) {
    j.Streaming? ==>
      j.words == StreamWords(j.cleaned) && j.next <= |j.words| && j.built == Join(j.words[..j.next], " ")
  }

  /**
   * The builder after `next` words, the first of them non-empty, holds them joined by single spaces, so
   * appending a space only when it is non-empty keeps that form, and every such text
   * is a prefix of the joined list.
   */
  lemma BuilderStep(words: seq<string>, next: nat)
    requires next < |words| && words[0] != []
    ensures var built := Join(words[..next], " ");
            (if |built| > 0 then built + " " + words[next] else words[next]) == Join(words[..next + 1], " ")
    ensures StartsWith(Join(words, " "), Join(words[..next + 1], " "))
  {
    TakeOneMore(words, next);
    var prefix := words[..next];
    assert prefix == [] || prefix[0] == words[0];
    JoinExtend(prefix, words[next]);
    JoinPrefix(words, next + 1, " ");
  }

  lemma TakeOneMore(words: seq<string>, next: nat)
    requires next < |words|
    ensures words[..next + 1] == words[..next] + [words[next]]
  {
  }

  /** Appending a word to a builder that is empty exactly when it holds no word. */
  lemma JoinExtend(prefix: seq<string>, w: string)
    requires prefix == [] || prefix[0] != []
    ensures var built := Join(prefix, " ");
            (if |built| > 0 then built + " " + w else w) == Join(prefix + [w], " ")
  {
    JoinSnoc(prefix, w, " ");
    if prefix != [] {
      JoinStartsWithHead(prefix, " ");
    }
  }

  /** The state every `catch` block writes: no longer processing, with the given error. */
  function Failed(ui: UiState, message: string): (r: UiState)
    ensures r.processedText == ui.processedText && !r.isProcessing && r.error == Some(message)
  {
    ui.(isProcessing := false, error := Some(message))
  }

  /**
   * The state a job that ran undisturbed leaves behind: a refusal shows its message
   * over the previous text; an answer shows its words joined by single spaces, and an
   * answer without words leaves the previous call's text in place.
   */
  function Settled(before: UiState, outcome: StepOutcome): (r: UiState)
    ensures !r.isProcessing && (r.error == None <==> outcome.Proceed?)
  {
    match outcome
    case Rejected(_, message) => Failed(before, message)
    case Proceed(text) =>
      var words := Words(Cleaned(text));
      UiState(false, if words == [] then before.processedText else Join(words, " "), None)
  }

  /**
   * The as-written handling of a superseded job resuming: its cancellation lands in
   * `catch (e: Exception)`. With a diagnostics manager, the handler's first statement,
   * the suspending `recordError`, rethrows the cancellation and the screen is left
   * alone; without one, the handler shows the generic error.
   */
  function CancelledResumeAsWritten(ui: UiState, hasDiagnostics: bool): (r: UiState)
    ensures hasDiagnostics ==> r == ui
    ensures !hasDiagnostics ==> r.error == Some(GENERIC_MESSAGE) && !r.isProcessing && r.processedText == ui.processedText
  {
    if hasDiagnostics then ui else Failed(ui, GENERIC_MESSAGE)
  }

  /**
   * On a screen built without a diagnostics manager, after the latest call has finished
   * cleanly, the superseded job's late resumption turns the successful screen into an
   * error screen; with a manager the successful screen stays.
   */
  lemma StaleJobOverwritesSuccess()
    ensures var done := Settled(UiState(true, "", None), Proceed("Done."));
            done == UiState(false, "Done.", None)
            && CancelledResumeAsWritten(done, false) == UiState(false, "Done.", Some(GENERIC_MESSAGE))
            && CancelledResumeAsWritten(done, true) == done
  {
    CleanedOneWord("Done.");
  }

  /** A single word without '#' is its own cleaned answer and its only streamed word. */
  lemma CleanedOneWord(w: string)
    requires w != [] && '#' !in w
    requires forall k :: 0 <= k < |w| ==> !IsSpace(w[k]) && !IsWhitespace(w[k])
    ensures Cleaned(w) == w && Words(w) == [w]
  {
    CleanedUnpadded(w);
    OneWordSplit(w);
    FilterRegexSplit(w);
  }

  lemma CleanedUnpadded(w: string)
    requires w != [] && '#' !in w && !IsWhitespace(w[0]) && !IsWhitespace(w[|w| - 1])
    ensures Cleaned(w) == w
  {
    NoHashNoMarker(w);
    assert SubstringBefore(w, END_MARKER) == w;
    TrimPadded("", w, "");
    assert "" + w + "" == w;
  }

  lemma OneWordSplit(w: string)
    requires w != []
    requires forall k :: 0 <= k < |w| ==> !IsSpace(w[k])
    ensures RegexSplit(w) == [w]
  {
    assert w[0..|w|] == w;
  }

  // ---------------------------------------------------------------------------
  // The view model
  // ---------------------------------------------------------------------------

  class ProcessTextViewModel {
    /** The token counter's `count`. */
    const count: string -> nat
    const levelingTemplate: string
    const diagnostics: DiagnosticsManager?

    var uiState: UiState
    /** The engine's `isInitialized()`. */
    var engineInitialized: bool
    /** Every prompt handed to the engine, oldest first. */
    var prompts: seq<string>
    /** The number of `processText` calls; the jobs are numbered from 0 and the current one is `launched - 1`. */
    var launched: nat
    /** The jobs that have not ended yet. */
    var jobs: map<nat, Job>

    ghost predicate Valid()
      reads this, diagnostics
    {
      count("") == 0
      && (diagnostics != null ==> diagnostics.Valid())
      && (forall id | id in jobs :: id < launched && JobValid(jobs[id]))
      && (launched > 0 && launched - 1 in jobs && jobs[launched - 1].Streaming?
          && jobs[launched - 1].next > 0
          ==> uiState.processedText == jobs[launched - 1].built)
    }

    predicate IsCurrent(id: nat)
      reads this
    {
      id + 1 == launched
    }

    /** The metrics store after offering `added` to it, when diagnostics are enabled. */
    ghost function Logged(before: seq<Metric>, added: seq<Metric>): seq<Metric>
      requires diagnostics != null
      reads diagnostics.dataStore
    {
      if diagnostics.IsDiagnosticsEnabled() then Bounded(before + added) else before
    }

    constructor(count: string -> nat, levelingTemplate: string, diagnostics: DiagnosticsManager?,
                engineInitialized: bool)
      requires count("") == 0
      requires diagnostics != null ==> diagnostics.Valid()
      ensures this.count == count && this.levelingTemplate == levelingTemplate
      ensures this.diagnostics == diagnostics && this.engineInitialized == engineInitialized
      ensures uiState == INITIAL_STATE && prompts == [] && launched == 0 && jobs == map[]
      ensures Valid()
    {
      this.count := count;
      this.levelingTemplate := levelingTemplate;
      this.diagnostics := diagnostics;
      this.engineInitialized := engineInitialized;
      uiState := INITIAL_STATE;
      prompts := [];
      launched := 0;
      jobs := map[];
    }

    /** Supersedes the current job and starts a new one, which first shows "processing". */
    method ProcessText(inputText: string)
      requires Valid()
      modifies this
      ensures Valid()
      ensures launched == old(launched) + 1 && IsCurrent(old(launched))
      ensures jobs == old(jobs)[old(launched) := Launched(inputText)]
      ensures uiState == old(uiState).(isProcessing := true, error := None)
      ensures engineInitialized == old(engineInitialized) && prompts == old(prompts)
    {
      jobs := jobs[launched := Launched(inputText)];
      launched := launched + 1;
      uiState := uiState.(isProcessing := true, error := None);
    }

    /** Ends job `id` through an error path: record `code`, show `message`. */
    method Reject(id: nat, code: ErrorCode, message: string, now: int)
      requires Valid() && id in jobs
      modifies this, diagnostics
      ensures Valid()
      ensures jobs == old(jobs) - {id} && uiState == Failed(old(uiState), message)
      ensures diagnostics != null ==> diagnostics.metrics == Logged(old(diagnostics.metrics), [ErrorMetric(code, now)])
      ensures engineInitialized == old(engineInitialized) && prompts == old(prompts)
      ensures launched == old(launched)
    {
      if diagnostics != null {
        diagnostics.RecordError(code, now);
      }
      jobs := jobs - {id};
      uiState := Failed(uiState, message);
    }

    /**
     * The current job's way up to its engine call: initialize the engine if needed,
     * check the raw input against the token limit, build the prompt, ask the engine,
     * and either end with an error or hold the cleaned answer for streaming.
     * `init` and `reply` are how the engine behaves; `elapsedMs` is the measured
     * time from the job's start to the answer; `now` the clock for the metrics.
     */
    method RunEngine(id: nat, init: InitReply, reply: EngineReply, elapsedMs: int, now: int)
      requires Valid() && IsCurrent(id) && id in jobs && jobs[id].Launched?
      modifies this, diagnostics
      ensures Valid() && launched == old(launched)
      ensures engineInitialized == (old(engineInitialized) || init.InitCompletes?)
      ensures prompts == old(prompts)
                         + if EngineCalled(old(engineInitialized), init, count(old(jobs[id].input)))
                           then [BuildFromTemplate(levelingTemplate, old(jobs[id].input))]
                           else []
      ensures match EngineOutcome(old(engineInitialized), init, count(old(jobs[id].input)), reply)
              case Rejected(code, message) =>
                jobs == old(jobs) - {id} && uiState == Failed(old(uiState), message)
                && (diagnostics != null
                    ==> diagnostics.metrics == Logged(old(diagnostics.metrics), [ErrorMetric(code, now)]))
              case Proceed(text) =>
                jobs == old(jobs)[id := Streaming(old(jobs[id].input), Cleaned(text),
                                                  StreamWords(Cleaned(text)), 0, "", elapsedMs)]
                && uiState == old(uiState)
                && (diagnostics != null ==> diagnostics.metrics == old(diagnostics.metrics))
    {
      var input := jobs[id].input;
      var admitted := Admit(id, init, now);
      if !admitted {
        return;
      }
      var prompt := BuildFromTemplate(levelingTemplate, input);
      prompts := prompts + [prompt];
      match reply
      case OutOfMemoryError =>
        Reject(id, OutOfMemory, OUT_OF_MEMORY_MESSAGE, now);
      case EngineException =>
        Reject(id, ProcessingFailed, GENERIC_MESSAGE, now);
      case Answered(text) =>
        Hold(id, text, elapsedMs);
    }

    /**
     * The steps before the engine call: initialize the engine when it is not ready,
     * then check the raw input against the token limit. A refusal ends the job with
     * the error that the outcome names, whatever the engine would have answered.
     */
    method Admit(id: nat, init: InitReply, now: int) returns (admitted: bool)
      requires Valid() && IsCurrent(id) && id in jobs && jobs[id].Launched?
      modifies this, diagnostics
      ensures Valid() && launched == old(launched) && prompts == old(prompts)
      ensures engineInitialized == (old(engineInitialized) || init.InitCompletes?)
      ensures admitted == EngineCalled(old(engineInitialized), init, count(old(jobs[id].input)))
      ensures admitted ==> jobs == old(jobs) && uiState == old(uiState)
                           && (diagnostics != null ==> diagnostics.metrics == old(diagnostics.metrics))
      ensures !admitted ==>
                var refusal := EngineOutcome(old(engineInitialized), init, count(old(jobs[id].input)),
                                             EngineException);
                jobs == old(jobs) - {id} && uiState == Failed(old(uiState), refusal.message)
                && (diagnostics != null
                    ==> diagnostics.metrics == Logged(old(diagnostics.metrics), [ErrorMetric(refusal.code, now)]))
    {
      var input := jobs[id].input;
      if !engineInitialized {
        match init
        case InitOutOfMemory =>
          Reject(id, OutOfMemory, OUT_OF_MEMORY_MESSAGE, now);
          return false;
        case InitThrows =>
          Reject(id, ProcessingFailed, GENERIC_MESSAGE, now);
          return false;
        case InitCompletes =>
          engineInitialized := true;
      }
      var tokens := count(input);
      if tokens > LIMIT_TOKENS {
        Reject(id, TextTooLong, TOO_LONG_MESSAGE, now);
        return false;
      }
      return true;
    }

    /** Keeps the engine's cleaned answer in job `id`, nothing revealed yet. */
    method Hold(id: nat, text: string, elapsedMs: int)
      requires Valid() && IsCurrent(id) && id in jobs && jobs[id].Launched?
      modifies this
      ensures Valid()
      ensures jobs == old(jobs)[id := Streaming(old(jobs[id].input), Cleaned(text),
                                                StreamWords(Cleaned(text)), 0, "", elapsedMs)]
      ensures uiState == old(uiState) && engineInitialized == old(engineInitialized)
      ensures prompts == old(prompts) && launched == old(launched)
    {
      var cleaned := Cleaned(text);
      var words := StreamWords(cleaned);
      assert Join(words[..0], " ") == "";
      jobs := jobs[id := Streaming(jobs[id].input, cleaned, words, 0, "", elapsedMs)];
    }

    /**
     * One turn of the streaming loop: append the next word (after a space unless the
     * builder is empty) and publish the builder. What is published is always a prefix
     * of the full answer.
     */
    method Append(id: nat)
      requires Valid() && IsCurrent(id) && id in jobs && jobs[id].Streaming?
      requires jobs[id].next < |jobs[id].words|
      modifies this
      ensures Valid()
      ensures jobs == old(jobs)[id := old(jobs[id]).(next := old(jobs[id]).next + 1,
                                                     built := Join(old(jobs[id]).words[..old(jobs[id]).next + 1], " "))]
      ensures uiState == UiState(true, jobs[id].built, None)
      ensures StartsWith(Join(jobs[id].words, " "), uiState.processedText)
      ensures engineInitialized == old(engineInitialized) && prompts == old(prompts)
      ensures launched == old(launched)
    {
      var j := jobs[id];
      var w := j.words[j.next];
      var b := if |j.built| > 0 then j.built + " " + w else w;
      BuilderStep(j.words, j.next);
      var j' := j.(next := j.next + 1, built := b);
      assert JobValid(j');
      jobs := jobs[id := j'];
      uiState := uiState.(processedText := b, isProcessing := true, error := None);
    }

    /**
     * After the last word: show the idle state, then record the session with the
     * time to first token, the speed in tokens per second and the memory in MB.
     */
    method Finish(id: nat, memoryBytes: nat, now: int)
      requires Valid() && IsCurrent(id) && id in jobs && jobs[id].Streaming?
      requires jobs[id].next == |jobs[id].words|
      modifies this, diagnostics
      ensures Valid()
      ensures jobs == old(jobs) - {id}
      ensures uiState == old(uiState).(isProcessing := false, error := None)
      ensures old(jobs[id]).words != [] ==> uiState.processedText == Join(Words(old(jobs[id]).cleaned), " ")
      ensures diagnostics != null
              ==> diagnostics.metrics
                  == Logged(old(diagnostics.metrics),
                            SessionMetrics(Utf16Length(old(jobs[id]).input), Utf16Length(old(jobs[id]).cleaned),
                                           old(jobs[id]).elapsedMs,
                                           Throughput(count(old(jobs[id]).cleaned), old(jobs[id]).elapsedMs),
                                           MemoryMb(memoryBytes), now))
      ensures engineInitialized == old(engineInitialized) && prompts == old(prompts)
      ensures launched == old(launched)
    {
      var j := jobs[id];
      assert j.words[..j.next] == j.words;
      FilterRegexSplit(j.cleaned);
      uiState := uiState.(isProcessing := false, error := None);
      var mb := MemoryMb(memoryBytes);
      var tps := Throughput(count(j.cleaned), j.elapsedMs);
      if diagnostics != null {
        diagnostics.RecordProcessingSession(Utf16Length(j.input), Utf16Length(j.cleaned), j.elapsedMs, tps, mb, now);
      }
      jobs := jobs - {id};
    }

    /** A superseded job resuming after the newer call took over: it ends and leaves the screen alone. */
    method ResumeSuperseded(id: nat)
      requires Valid() && id in jobs && !IsCurrent(id)
      modifies this
      ensures Valid()
      ensures jobs == old(jobs) - {id} && uiState == old(uiState)
      ensures engineInitialized == old(engineInitialized) && prompts == old(prompts)
      ensures launched == old(launched)
    {
      jobs := jobs - {id};
    }

    /**
     * The same resumption as the code is written: the cancellation is caught by the
     * generic handler. With a diagnostics manager, its suspending `recordError` rethrows
     * the cancellation before anything is offered or shown; without one, the handler
     * shows the generic error over the newer call's screen.
     */
    method ResumeSupersededAsWritten(id: nat)
      requires Valid() && id in jobs && !IsCurrent(id)
      modifies this
      ensures Valid()
      ensures jobs == old(jobs) - {id} && uiState == CancelledResumeAsWritten(old(uiState), diagnostics != null)
      ensures diagnostics != null ==> diagnostics.metrics == old(diagnostics.metrics)
      ensures engineInitialized == old(engineInitialized) && prompts == old(prompts)
      ensures launched == old(launched)
    {
      if diagnostics == null {
        uiState := Failed(uiState, GENERIC_MESSAGE);
      }
      jobs := jobs - {id};
    }

    /**
     * The streaming loop run to its end while no newer call arrives: the screen ends
     * idle showing every word of the answer joined by single spaces.
     */
    method StreamToEnd(id: nat, memoryBytes: nat, now: int)
      requires Valid() && IsCurrent(id) && id in jobs && jobs[id].Streaming?
      modifies this, diagnostics
      ensures Valid()
      ensures jobs == old(jobs) - {id}
      ensures old(jobs[id]).words != []
              ==> uiState == UiState(false, Join(Words(old(jobs[id]).cleaned), " "), None)
      ensures old(jobs[id]).words == [] ==> uiState == old(uiState).(isProcessing := false, error := None)
      ensures diagnostics != null
              ==> diagnostics.metrics
                  == Logged(old(diagnostics.metrics),
                            SessionMetrics(Utf16Length(old(jobs[id]).input), Utf16Length(old(jobs[id]).cleaned),
                                           old(jobs[id]).elapsedMs,
                                           Throughput(count(old(jobs[id]).cleaned), old(jobs[id]).elapsedMs),
                                           MemoryMb(memoryBytes), now))
      ensures engineInitialized == old(engineInitialized) && prompts == old(prompts)
      ensures launched == old(launched)
    {
      ghost var j0 := jobs[id];
      while jobs[id].next < |jobs[id].words|
        modifies this
        invariant Valid() && IsCurrent(id) && id in jobs && jobs[id].Streaming?
        invariant jobs == old(jobs)[id := jobs[id]]
        invariant jobs[id] == j0.(next := jobs[id].next, built := jobs[id].built)
        invariant jobs[id].next > j0.next ==> uiState.isProcessing && uiState.error == None
        invariant jobs[id].next == j0.next ==> uiState == old(uiState)
        invariant engineInitialized == old(engineInitialized) && prompts == old(prompts)
        invariant launched == old(launched)
        decreases |jobs[id].words| - jobs[id].next
      {
        Append(id);
      }
      Finish(id, memoryBytes, now);
    }
  }

  /**
   * One call that nothing interrupts, from `processText` to its end: the screen
   * settles as `Settled` says, and the engine sees at most the one templated prompt.
   */
  method ProcessUndisturbed(vm: ProcessTextViewModel, inputText: string, init: InitReply,
                            reply: EngineReply, elapsedMs: int, memoryBytes: nat, now: int)
    requires vm.Valid()
    modifies vm, vm.diagnostics
    ensures vm.Valid() && vm.jobs == old(vm.jobs) && vm.launched == old(vm.launched) + 1
    ensures vm.uiState
            == Settled(old(vm.uiState).(isProcessing := true, error := None),
                       EngineOutcome(old(vm.engineInitialized), init, vm.count(inputText), reply))
    ensures vm.prompts == old(vm.prompts)
                          + if EngineCalled(old(vm.engineInitialized), init, vm.count(inputText))
                            then [BuildFromTemplate(vm.levelingTemplate, inputText)]
                            else []
  {
    ghost var jobs0 := vm.jobs;
    vm.ProcessText(inputText);
    var id := vm.launched - 1;
    assert old(vm.launched) !in jobs0;
    RunToEnd(vm, id, init, reply, elapsedMs, memoryBytes, now);
  }

  /** The launched job `id`, run through the engine and its stream with nothing superseding it. */
  method RunToEnd(vm: ProcessTextViewModel, id: nat, init: InitReply,
                  reply: EngineReply, elapsedMs: int, memoryBytes: nat, now: int)
    requires vm.Valid() && vm.IsCurrent(id) && id in vm.jobs && vm.jobs[id].Launched?
    modifies vm, vm.diagnostics
    ensures vm.Valid() && vm.jobs == old(vm.jobs) - {id} && vm.launched == old(vm.launched)
    ensures vm.uiState
            == Settled(old(vm.uiState),
                       EngineOutcome(old(vm.engineInitialized), init, vm.count(old(vm.jobs[id].input)), reply))
    ensures vm.prompts == old(vm.prompts)
                          + if EngineCalled(old(vm.engineInitialized), init, vm.count(old(vm.jobs[id].input)))
                            then [BuildFromTemplate(vm.levelingTemplate, old(vm.jobs[id].input))]
                            else []
  {
    ghost var outcome := EngineOutcome(vm.engineInitialized, init, vm.count(vm.jobs[id].input), reply);
    vm.RunEngine(id, init, reply, elapsedMs, now);
    if id in vm.jobs {
      assert outcome.Proceed?;
      var job := vm.jobs[id];
      FilterRegexSplit(job.cleaned);
      vm.StreamToEnd(id, memoryBytes, now);
    }
  }

}
