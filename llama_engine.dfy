/**
 * The engine's lifecycle: `initialize` provisions the model file and loads it into the
 * native library, reporting progress with extraction scaled into [0, 0.5] and loading
 * into [0.5, 1]; any failure releases the library and surfaces as a model-initialization
 * error, except an `OutOfMemoryError` of the load, which passes through unchanged and
 * without that clean-up. Text processing is refused until initialization succeeded and otherwise
 * forwards the library's deliveries.
 */
module Engine {
  import opened Wrappers
  import opened AssetProvisioning
  import opened NativeLibrary

  const NOT_INITIALIZED_MESSAGE: string := "Model not initialized. Call initialize() first."

  /**
   * What the engine throws: `IllegalStateException` and `ModelInitializationException`
   * with their messages, and an `OutOfMemoryError` of the library, which the engine's
   * `catch (e: Exception)` blocks let pass unchanged.
   */
  datatype EngineError = IllegalState(message: string) | ModelInitialization(message: string) | OutOfMemoryError

  /** Progress `p` of a sub-step reported as `base + 0.5 * p`. */
  function Scaled(ps: seq<real>, base: real): (qs: seq<real>)
    ensures |qs| == |ps|
  {
    seq(|ps|, i requires 0 <= i < |ps| => base + ps[i] * 0.5)
  }

  /** The outcome of loading the file at `path`. */
  function LoadOutcome(path: string, load: LoadReply): Outcome<EngineError> {
    match load
    case LoadThrows(_, m) => Fail(ModelInitialization("Model initialization failed: " + m))
    case LoadRunsOutOfMemory(_) => Fail(OutOfMemoryError)
    case LoadReturns(_, ok) =>
      if ok then Pass else Fail(ModelInitialization("Failed to load model from " + path))
  }

  /** The outcome of `initialize`, from what provisioning and loading did. */
  function InitOutcome(p: Provisioning, load: LoadReply): Outcome<EngineError> {
    match p.result
    case Failure(e) => Fail(ModelInitialization("Model initialization failed: " + e.message))
    case Success(path) => LoadOutcome(path, load)
  }

  /** The values the flow emits: 0, then 0.5 once the file is ready, then 1.0 on success. */
  function InitEmitted(p: Provisioning, load: LoadReply): seq<real> {
    if p.result.Failure? then [0.0]
    else if InitOutcome(p, load).Fail? then [0.0, 0.5]
    else [0.0, 0.5, 1.0]
  }

  /** The values passed to `onProgress`: the emitted milestones with the scaled sub-step reports between them. */
  function InitReported(p: Provisioning, load: LoadReply): seq<real> {
    [0.0] + Scaled(p.progress, 0.0)
    + (if p.result.Failure? then []
       else [0.5] + Scaled(load.progress, 0.5) + (if InitOutcome(p, load).Pass? then [1.0] else []))
  }

  /** A provisioning failure ends `initialize` after the first milestone. */
  lemma InitStopsAtProvisioning(p: Provisioning, load: LoadReply)
    requires p.result.Failure?
    ensures InitOutcome(p, load) == Fail(ModelInitialization("Model initialization failed: " + p.result.error.message))
    ensures InitEmitted(p, load) == [0.0]
    ensures InitReported(p, load) == [0.0] + Scaled(p.progress, 0.0)
  {
  }

  /** A provisioned file leaves the rest of `initialize` to the load. */
  lemma InitGoesOnToLoad(p: Provisioning, load: LoadReply)
    requires p.result.Success?
    ensures InitOutcome(p, load) == LoadOutcome(p.result.value, load)
    ensures InitEmitted(p, load) == if LoadOutcome(p.result.value, load).Pass? then [0.0, 0.5, 1.0] else [0.0, 0.5]
    ensures InitReported(p, load)
            == [0.0] + Scaled(p.progress, 0.0)
               + ([0.5] + Scaled(load.progress, 0.5) + (if LoadOutcome(p.result.value, load).Pass? then [1.0] else []))
  {
    assert [0.0] + Scaled(p.progress, 0.0) + ([0.5] + Scaled(load.progress, 0.5)
                                               + (if LoadOutcome(p.result.value, load).Pass? then [1.0] else []))
           == [0.0] + Scaled(p.progress, 0.0) + ([0.5] + Scaled(load.progress, 0.5)
                                                  + (if LoadOutcome(p.result.value, load).Pass? then [1.0] else []));
  }

  /** Initialization succeeds exactly when provisioning and loading both do, and then emits 0, 0.5, 1. */
  lemma InitSucceeds(p: Provisioning, load: LoadReply)
    ensures InitOutcome(p, load).Pass? <==> p.result.Success? && load.LoadReturns? && load.ok
    ensures InitOutcome(p, load).Pass? ==> InitEmitted(p, load) == [0.0, 0.5, 1.0]
  {
  }

  /**
   * Every failure surfaces as a model-initialization error naming its cause, except a
   * load that runs out of memory: that `Error` passes through unchanged.
   */
  lemma InitFailureWrapped(p: Provisioning, load: LoadReply)
    requires InitOutcome(p, load).Fail?
    ensures InitOutcome(p, load).error.ModelInitialization? <==> !(p.result.Success? && load.LoadRunsOutOfMemory?)
    ensures InitOutcome(p, load).error == OutOfMemoryError <==> p.result.Success? && load.LoadRunsOutOfMemory?
    ensures p.result.Failure? ==>
              InitOutcome(p, load).error.message == "Model initialization failed: " + p.result.error.message
    ensures p.result.Success? && load == LoadReturns(load.progress, false) ==>
              InitOutcome(p, load).error.message == "Failed to load model from " + p.result.value
  {
  }

  predicate Within(ps: seq<real>, lo: real, hi: real) {
    forall i :: 0 <= i < |ps| ==> lo <= ps[i] <= hi
  }

  lemma WithinOfMembers(ps: seq<real>)
    requires forall x :: x in ps ==> 0.0 <= x <= 1.0
    ensures Within(ps, 0.0, 1.0)
  {
    forall i | 0 <= i < |ps| ensures 0.0 <= ps[i] <= 1.0 {
      assert ps[i] in ps;
    }
  }

  /** Scaling maps progress in [0, 1] into [base, base + 0.5] and keeps its order. */
  lemma ScaledRange(ps: seq<real>, base: real)
    requires Within(ps, 0.0, 1.0)
    ensures Within(Scaled(ps, base), base, base + 0.5)
    ensures NonDecreasing(ps) ==> NonDecreasing(Scaled(ps, base))
  {
  }

  lemma NonDecreasingConcat(a: seq<real>, b: seq<real>)
    requires NonDecreasing(a) && NonDecreasing(b)
    requires forall i, j :: 0 <= i < |a| && 0 <= j < |b| ==> a[i] <= b[j]
    ensures NonDecreasing(a + b)
  {
    var c := a + b;
    forall i, j | 0 <= i < j < |c| ensures c[i] <= c[j] {
      if j < |a| {
        assert c[i] == a[i] && c[j] == a[j];
      } else if i >= |a| {
        assert c[i] == b[i - |a|] && c[j] == b[j - |a|];
      } else {
        assert c[i] == a[i] && c[j] == b[j - |a|];
      }
    }
  }

  lemma WithinConcat(a: seq<real>, b: seq<real>, lo: real, hi: real)
    requires Within(a, lo, hi) && Within(b, lo, hi)
    ensures Within(a + b, lo, hi)
  {
    var c := a + b;
    forall i | 0 <= i < |c| ensures lo <= c[i] <= hi {
      if i < |a| {
        assert c[i] == a[i];
      } else {
        assert c[i] == b[i - |a|];
      }
    }
  }

  /**
   * When both sub-steps report non-decreasing progress within [0, 1], so does
   * `initialize`: all it reports lies in [0, 1] and never goes back.
   */
  lemma InitReportedProgress(p: Provisioning, load: LoadReply)
    requires Within(p.progress, 0.0, 1.0) && NonDecreasing(p.progress)
    requires Within(load.progress, 0.0, 1.0) && NonDecreasing(load.progress)
    ensures Within(InitReported(p, load), 0.0, 1.0)
    ensures NonDecreasing(InitReported(p, load))
  {
    var extract := Scaled(p.progress, 0.0);
    var loading := Scaled(load.progress, 0.5);
    ScaledRange(p.progress, 0.0);
    ScaledRange(load.progress, 0.5);
    var head := [0.0] + extract;
    NonDecreasingConcat([0.0], extract);
    WithinConcat([0.0], extract, 0.0, 0.5);
    if p.result.Success? {
      var last: seq<real> := if InitOutcome(p, load).Pass? then [1.0] else [];
      var tail := [0.5] + loading + last;
      NonDecreasingConcat([0.5], loading);
      WithinConcat([0.5], loading, 0.5, 1.0);
      NonDecreasingConcat([0.5] + loading, last);
      WithinConcat([0.5] + loading, last, 0.5, 1.0);
      NonDecreasingConcat(head, tail);
      assert Within(head, 0.0, 1.0);
      assert Within(tail, 0.0, 1.0);
      WithinConcat(head, tail, 0.0, 1.0);
      assert head + tail == InitReported(p, load);
    } else {
      assert head + [] == InitReported(p, load);
    }
  }

  class LlamaEngine {
    const backend: NativeBackend
    const assets: ModelAssetManager
    var initialized: bool

    /** The engine counts as initialized only over a loaded library. */
    ghost predicate Valid()
      reads this, backend
    {
      initialized ==> backend.loaded
    }

    constructor(backend: NativeBackend, assets: ModelAssetManager)
      ensures this.backend == backend && this.assets == assets && !initialized && Valid()
    {
      this.backend := backend;
      this.assets := assets;
      initialized := false;
    }

    /**
     * `initialize`: clears the flag, emits 0, provisions the model file, emits 0.5,
     * loads it, and on success sets the flag and emits 1.0. An exception at any point
     * releases the library and ends the flow with a model-initialization error; an
     * `OutOfMemoryError` of the load ends it without that clean-up.
     */
    method Initialize(metaReadFails: bool, metaWriteFails: bool, load: LoadReply)
      returns (r: Outcome<EngineError>, emitted: seq<real>, reported: seq<real>)
      modifies this, backend, assets
      ensures var p := assets.Provision(old(assets.files), metaReadFails, metaWriteFails);
              r == InitOutcome(p, load) && emitted == InitEmitted(p, load) && reported == InitReported(p, load)
              && assets.files == p.files
      ensures initialized == r.Pass? && backend.loaded == r.Pass? && Valid()
      ensures backend.releaseRequests
              == old(backend.releaseRequests) + (if r.Pass? || r == Fail(OutOfMemoryError) then 0 else 1)
      ensures backend.processRequests == old(backend.processRequests)
      ensures backend.cancelRequests == old(backend.cancelRequests)
    {
      ghost var p := assets.Provision(assets.files, metaReadFails, metaWriteFails);
      initialized := false;
      var path, extractProgress := assets.GetModelPath(metaReadFails, metaWriteFails);
      assert path == p.result && extractProgress == p.progress && assets.files == p.files;
      r, emitted, reported := AfterProvisioning(p, path, extractProgress, load);
    }

    /** What `initialize` does once provisioning has answered `path` after reporting `extractProgress`. */
    method AfterProvisioning(ghost p: Provisioning, path: Result<string, IoError>, extractProgress: seq<real>,
                             load: LoadReply)
      returns (r: Outcome<EngineError>, emitted: seq<real>, reported: seq<real>)
      requires p.result == path && p.progress == extractProgress && !initialized
      modifies this, backend
      ensures r == InitOutcome(p, load) && emitted == InitEmitted(p, load) && reported == InitReported(p, load)
      ensures initialized == r.Pass? && backend.loaded == r.Pass? && Valid()
      ensures backend.releaseRequests
              == old(backend.releaseRequests) + (if r.Pass? || r == Fail(OutOfMemoryError) then 0 else 1)
      ensures backend.processRequests == old(backend.processRequests)
      ensures backend.cancelRequests == old(backend.cancelRequests)
    {
      var head := [0.0] + Scaled(extractProgress, 0.0);
      if path.Failure? {
        InitStopsAtProvisioning(p, load);
        Release();
        r := Fail(ModelInitialization("Model initialization failed: " + path.error.message));
        return r, [0.0], head;
      }
      InitGoesOnToLoad(p, load);
      var loadReports;
      r, loadReports := LoadPhase(path.value, load);
      emitted := if r.Pass? then [0.0, 0.5, 1.0] else [0.0, 0.5];
      reported := head + ([0.5] + loadReports);
    }

    /** The second half of `initialize`: loading the provisioned file into the library. */
    method LoadPhase(path: string, load: LoadReply) returns (r: Outcome<EngineError>, reported: seq<real>)
      requires !initialized
      modifies this, backend
      ensures r == LoadOutcome(path, load)
      ensures reported == Scaled(load.progress, 0.5) + (if r.Pass? then [1.0] else [])
      ensures initialized == r.Pass? && backend.loaded == r.Pass?
      ensures backend.releaseRequests
              == old(backend.releaseRequests) + (if r.Pass? || r == Fail(OutOfMemoryError) then 0 else 1)
      ensures backend.processRequests == old(backend.processRequests)
      ensures backend.cancelRequests == old(backend.cancelRequests)
    {
      var loadSuccess, loadProgress := backend.LoadModel(path, load);
      reported := Scaled(loadProgress, 0.5);
      if loadSuccess == Failure(OutOfMemoryThrown) {
        return Fail(OutOfMemoryError), reported;
      }
      if loadSuccess.Failure? {
        Release();
        return Fail(ModelInitialization("Model initialization failed: " + loadSuccess.error.message)), reported;
      }
      if !loadSuccess.value {
        Release();
        return Fail(ModelInitialization("Failed to load model from " + path)), reported;
      }
      initialized := true;
      reported := reported + [1.0];
      r := Pass;
    }

    /**
     * `processText`: refused before initialization without reaching the library;
     * otherwise the library's deliveries are passed on unchanged and its failure wrapped.
     */
    method ProcessText(inputText: string, reply: GenerateReply) returns (r: Outcome<EngineError>, delivered: seq<Delivery>)
      modifies backend
      ensures !initialized ==>
                r == Fail(IllegalState(NOT_INITIALIZED_MESSAGE)) && delivered == []
                && backend.processRequests == old(backend.processRequests)
      ensures initialized ==>
                delivered == reply.deliveries
                && r == (match reply.failure
                         case None => Pass
                         case Some(ExceptionThrown(m)) => Fail(ModelInitialization("Failed to process text: " + m))
                         case Some(OutOfMemoryThrown) => Fail(OutOfMemoryError))
                && backend.processRequests == old(backend.processRequests) + 1
      ensures backend.loaded == old(backend.loaded)
      ensures backend.releaseRequests == old(backend.releaseRequests)
      ensures backend.cancelRequests == old(backend.cancelRequests)
    {
      if !initialized {
        return Fail(IllegalState(NOT_INITIALIZED_MESSAGE)), [];
      }
      var outcome;
      outcome, delivered := backend.ProcessText(inputText, reply);
      if outcome == Fail(OutOfMemoryThrown) {
        return Fail(OutOfMemoryError), delivered;
      }
      if outcome.Fail? {
        return Fail(ModelInitialization("Failed to process text: " + outcome.error.message)), delivered;
      }
      r := Pass;
    }

    /** `cancelProcessing`: forwarded to the library. */
    method CancelProcessing()
      modifies backend
      ensures backend.cancelRequests == old(backend.cancelRequests) + 1
      ensures backend.loaded == old(backend.loaded)
      ensures backend.processRequests == old(backend.processRequests)
      ensures backend.releaseRequests == old(backend.releaseRequests)
    {
      backend.CancelProcessing();
    }

    /** `isInitialized`: the flag, and the library still holding a model. */
    function IsInitialized(): (ready: bool)
      reads this, backend
      ensures ready ==> initialized && backend.loaded
      ensures Valid() ==> (ready <==> initialized)
    {
      initialized && backend.IsModelLoaded()
    }

    /** `release`: clears the flag and releases the library's model. */
    method Release()
      modifies this, backend
      ensures !initialized && !backend.loaded && !IsInitialized() && Valid()
      ensures backend.releaseRequests == old(backend.releaseRequests) + 1
      ensures backend.processRequests == old(backend.processRequests)
      ensures backend.cancelRequests == old(backend.cancelRequests)
    {
      initialized := false;
      backend.ReleaseModel();
    }
  }

  /**
   * Provisioning feeds `initialize` progress it can scale: whatever the files, its
   * reports are non-decreasing and within [0, 1], so with a library that reports
   * within [0, 1] in order (as the development mock does) so is all of `initialize`.
   */
  lemma InitReportsInOrder(m: ModelAssetManager, files: map<string, seq<byte>>, metaReadFails: bool, metaWriteFails: bool, load: LoadReply)
    requires Within(load.progress, 0.0, 1.0) && NonDecreasing(load.progress)
    ensures var p := m.Provision(files, metaReadFails, metaWriteFails);
            Within(InitReported(p, load), 0.0, 1.0) && NonDecreasing(InitReported(p, load))
  {
    var p := m.Provision(files, metaReadFails, metaWriteFails);
    if m.CanReuse(files, metaReadFails) {
      assert p.progress == [1.0];
    } else if m.asset.Missing? {
      assert p.progress == [];
    } else {
      assert p.progress == ExtractionProgress(m.asset.content, m.asset.ProgressSize(), m.asset.readSizes);
      ExtractionProgressShape(m.asset);
      WithinOfMembers(p.progress);
    }
    InitReportedProgress(p, load);
  }

  /** The development mock's load progress meets the conditions above. */
  lemma MockLoadInOrder()
    ensures Within(Tenths(1, 10), 0.0, 1.0) && NonDecreasing(Tenths(1, 10))
  {
    TenthsProgress(1, 10);
    WithinOfMembers(Tenths(1, 10));
  }
}
