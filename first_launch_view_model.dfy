/**
 * The onboarding screen's state: it shows the model loading with its progress,
 * an error with a retry, and the diagnostics opt-in, and it persists the opt-in and
 * the "first launch complete" flag in the preference store.
 *
 * The model initializer is described by what it does during one run: the progress
 * values it hands to the callback and emits on its flow, in order, and how the run
 * ends: it completes, throws an exception (with its message, which may be null), or
 * throws an `Error` such as `OutOfMemoryError`, which the screen does not catch.
 */
module Onboarding {
  import opened Wrappers
  import opened Preferences
  import Engine
  import AssetProvisioning
  import NativeLibrary

  const FAILURE_PREFIX: string := "Failed to initialize AI model: "

  datatype FirstLaunchUiState = FirstLaunchUiState(
    isModelLoading: bool,
    modelLoadingProgress: real,
    isDiagnosticsEnabled: bool,
    hasError: bool,
    errorMessage: Option<string>)

  const DEFAULT_STATE: FirstLaunchUiState := FirstLaunchUiState(true, 0.0, false, false, None)

  /**
   * How one run of the initializer ends: the flow completes, an `Exception` with a
   * possibly null message is thrown, or an `Error` escapes `catch (e: Exception)`.
   */
  datatype InitEnd = Completes | Throws(message: Option<string>) | ErrorEscapes

  /** One progress value from the initializer: through the callback, or collected from its flow. */
  datatype InitEvent = Reported(progress: real) | Emitted(progress: real)

  /** Kotlin's string template of a nullable message: a null one prints as "null". */
  function MessageText(message: Option<string>): string {
    match message
    case Some(m) => m
    case None => "null"
  }

  /** How one progress value changes the state: a collected value also decides whether loading goes on. */
  function Apply(s: FirstLaunchUiState, e: InitEvent): FirstLaunchUiState {
    match e
    case Reported(p) => s.(modelLoadingProgress := p)
    case Emitted(p) => s.(modelLoadingProgress := p, isModelLoading := p < 1.0)
  }

  /** The last value collected from the flow, if any. */
  function LastEmitted(events: seq<InitEvent>): (r: Option<real>)
    ensures r.Some? ==> Emitted(r.value) in events
    ensures r.None? ==> forall k :: 0 <= k < |events| ==> events[k].Reported?
  {
    if events == [] then None
    else if events[|events| - 1].Emitted? then Some(events[|events| - 1].progress)
    else LastEmitted(events[..|events| - 1])
  }

  /**
   * The state after the initializer's progress values: the progress is the last value
   * of either kind, loading is decided by the last collected value, and the error and
   * diagnostics fields are untouched.
   */
  function Replay(s: FirstLaunchUiState, events: seq<InitEvent>): (r: FirstLaunchUiState)
    ensures r.hasError == s.hasError && r.errorMessage == s.errorMessage
    ensures r.isDiagnosticsEnabled == s.isDiagnosticsEnabled
    ensures r.modelLoadingProgress
            == if events == [] then s.modelLoadingProgress else events[|events| - 1].progress
    ensures r.isModelLoading
            == match LastEmitted(events)
               case None => s.isModelLoading
               case Some(p) => p < 1.0
    decreases |events|
  {
    if events == [] then s else Apply(Replay(s, events[..|events| - 1]), events[|events| - 1])
  }

  /** The `catch` block: loading stops, the error is shown, the progress stays where it was. */
  function OnFailure(s: FirstLaunchUiState, message: Option<string>): (r: FirstLaunchUiState)
    ensures !r.isModelLoading && r.hasError
    ensures r.errorMessage == Some(FAILURE_PREFIX + MessageText(message))
    ensures r.modelLoadingProgress == s.modelLoadingProgress
    ensures r.isDiagnosticsEnabled == s.isDiagnosticsEnabled
  {
    s.(isModelLoading := false, hasError := true, errorMessage := Some(FAILURE_PREFIX + MessageText(message)))
  }

  /**
   * One run of the initializer: its progress values, then the error screen if an
   * exception ends it. An escaping `Error` leaves the state as the progress values left it.
   */
  function InitOutcome(s: FirstLaunchUiState, events: seq<InitEvent>, end: InitEnd)
    : FirstLaunchUiState
  {
    var t := Replay(s, events);
    match end
    case Throws(message) => OnFailure(t, message)
    case Completes => t
    case ErrorEscapes => t
  }

  /**
   * An `Error` that escapes a run whose collected values all stayed below 1.0 (as an
   * engine whose load runs out of memory emits 0.0 and 0.5) is not caught: the state is
   * left as the progress values left it, still marked loading and with no error, and
   * the `Error` goes on to the thread's uncaught-exception handler.
   */
  lemma EscapedErrorLeavesLoading(s: FirstLaunchUiState, events: seq<InitEvent>)
    requires s.isModelLoading && !s.hasError
    requires forall k :: 0 <= k < |events| && events[k].Emitted? ==> events[k].progress < 1.0
    ensures var r := InitOutcome(s, events, ErrorEscapes);
            r.isModelLoading && !r.hasError && r.errorMessage == s.errorMessage
            && r.isDiagnosticsEnabled == s.isDiagnosticsEnabled
  {
    var last := LastEmitted(events);
    if last.Some? {
      var k :| 0 <= k < |events| && events[k] == Emitted(last.value);
    }
  }

  /** How a run of the engine's `initialize` ends, as the screen's `catch (e: Exception)` sees it. */
  function InitEndOf(r: Outcome<Engine.EngineError>): InitEnd {
    if r.Pass? then Completes
    else if r.error.OutOfMemoryError? then ErrorEscapes
    else Throws(Some(r.error.message))
  }

  /**
   * Joined to the engine: when its model load runs out of memory, the `Error` escapes
   * the screen's handler; a state that collected only the engine's emitted values (0.0
   * and 0.5) is left marked loading with no error, and the `Error` goes on to the
   * thread's uncaught-exception handler.
   */
  lemma EngineOutOfMemoryLeavesLoading(p: AssetProvisioning.Provisioning, load: NativeLibrary.LoadReply,
                                       s: FirstLaunchUiState, events: seq<InitEvent>)
    requires p.result.Success? && load.LoadRunsOutOfMemory?
    requires s.isModelLoading && !s.hasError && s.errorMessage == None
    requires forall k :: 0 <= k < |events| && events[k].Emitted? ==> events[k].progress in Engine.InitEmitted(p, load)
    ensures InitEndOf(Engine.InitOutcome(p, load)) == ErrorEscapes
    ensures var r := InitOutcome(s, events, InitEndOf(Engine.InitOutcome(p, load)));
            r.isModelLoading && !r.hasError && r.errorMessage == None
  {
    assert Engine.InitEmitted(p, load) == [0.0, 0.5];
    EscapedErrorLeavesLoading(s, events);
  }

  /** Retry puts every field but the diagnostics opt-in back to its default. */
  function OnRetry(s: FirstLaunchUiState): (r: FirstLaunchUiState)
    ensures r == DEFAULT_STATE.(isDiagnosticsEnabled := s.isDiagnosticsEnabled)
  {
    s.(hasError := false, errorMessage := None, isModelLoading := true, modelLoadingProgress := 0.0)
  }

  /** A flow that ends at 1.0 without throwing leaves the model loaded at full progress. */
  lemma {:induction false} CompletedFlowLoaded(s: FirstLaunchUiState, events: seq<InitEvent>)
    requires events != [] && events[|events| - 1] == Emitted(1.0)
    ensures InitOutcome(s, events, Completes).modelLoadingProgress == 1.0
    ensures !InitOutcome(s, events, Completes).isModelLoading
  {
  }

  /**
   * Whatever state a failed run left, a retry whose run completes clears the error
   * and ends loaded at full progress.
   */
  lemma RetryRecovers(s: FirstLaunchUiState, events: seq<InitEvent>)
    requires events != [] && events[|events| - 1] == Emitted(1.0)
    ensures var r := InitOutcome(OnRetry(s), events, Completes);
            !r.hasError && r.errorMessage == None && !r.isModelLoading && r.modelLoadingProgress == 1.0
            && r.isDiagnosticsEnabled == s.isDiagnosticsEnabled
  {
  }

  /** A run that throws before reporting anything leaves the progress at the value retry put there. */
  lemma FailedRetryAtZero(s: FirstLaunchUiState, message: Option<string>)
    ensures var r := InitOutcome(OnRetry(s), [], Throws(message));
            r.hasError && !r.isModelLoading && r.modelLoadingProgress == 0.0
            && r.errorMessage == Some(FAILURE_PREFIX + MessageText(message))
  {
  }

  class FirstLaunchViewModel {
    const dataStore: PreferenceStore
    var uiState: FirstLaunchUiState

    /** The `init` block: load the opt-in, then run the initializer. */
    constructor(dataStore: PreferenceStore, events: seq<InitEvent>, end: InitEnd)
      ensures this.dataStore == dataStore
      ensures uiState
              == InitOutcome(DEFAULT_STATE.(isDiagnosticsEnabled := dataStore.Get(DIAGNOSTICS_ENABLED_KEY)),
                             events, end)
    {
      this.dataStore := dataStore;
      uiState := DEFAULT_STATE;
      new;
      LoadDiagnosticsPreference();
      InitializeModel(events, end);
    }

    /** Reads the opt-in, false when it was never stored. */
    method LoadDiagnosticsPreference()
      modifies this
      ensures uiState == old(uiState).(isDiagnosticsEnabled := dataStore.Get(DIAGNOSTICS_ENABLED_KEY))
    {
      var enabled := dataStore.Get(DIAGNOSTICS_ENABLED_KEY);
      uiState := uiState.(isDiagnosticsEnabled := enabled);
    }

    /**
     * Applies each progress value in order, then the error screen if an exception ends
     * the run; an escaping `Error` ends the coroutine with the state as it stands.
     */
    method InitializeModel(events: seq<InitEvent>, end: InitEnd)
      modifies this
      ensures uiState == InitOutcome(old(uiState), events, end)
    {
      for i := 0 to |events|
        invariant uiState == Replay(old(uiState), events[..i])
      {
        assert events[..i + 1][..i] == events[..i];
        match events[i]
        case Reported(p) =>
          uiState := uiState.(modelLoadingProgress := p);
        case Emitted(p) =>
          uiState := uiState.(modelLoadingProgress := p, isModelLoading := p < 1.0);
      }
      assert events[..|events|] == events;
      if end.Throws? {
        uiState := uiState.(isModelLoading := false, hasError := true,
                            errorMessage := Some(FAILURE_PREFIX + MessageText(end.message)));
      }
    }

    /** Stores the opt-in and shows it; nothing else on the screen changes. */
    method ToggleDiagnostics(enabled: bool)
      modifies this, dataStore
      ensures dataStore.values == old(dataStore.values)[DIAGNOSTICS_ENABLED_KEY := enabled]
      ensures dataStore.Get(DIAGNOSTICS_ENABLED_KEY) == enabled
      ensures uiState == old(uiState).(isDiagnosticsEnabled := enabled)
    {
      dataStore.Set(DIAGNOSTICS_ENABLED_KEY, enabled);
      uiState := uiState.(isDiagnosticsEnabled := enabled);
    }

    /** Marks the first launch as complete; the screen's state is left alone. */
    method OnDismiss()
      modifies dataStore
      ensures dataStore.values == old(dataStore.values)[FIRST_LAUNCH_COMPLETE_KEY := true]
      ensures dataStore.Get(FIRST_LAUNCH_COMPLETE_KEY)
      ensures uiState == old(uiState)
    {
      dataStore.Set(FIRST_LAUNCH_COMPLETE_KEY, true);
    }

    /** Resets the loading state and runs the initializer again. */
    method RetryModelInitialization(events: seq<InitEvent>, end: InitEnd)
      modifies this
      ensures uiState == InitOutcome(OnRetry(old(uiState)), events, end)
    {
      uiState := uiState.(hasError := false, errorMessage := None, isModelLoading := true,
                          modelLoadingProgress := 0.0);
      InitializeModel(events, end);
    }
  }
}
