/**
 * The contract between the engine and a native inference library: a model is loaded
 * with progress reports, and text is processed into a stream of `(token, isFinished)`
 * deliveries to a token callback. Holds the Kotlin development mock of that library and
 * an implementation of the interface whose answers are given per call, for the engine.
 *
 * Another thread may request cancellation while a stream runs. That request is a
 * `Cancel` value naming the first read of the cancel flag that sees it.
 */
module NativeLibrary {
  import opened Wrappers
  import opened Text

  /** One call of `TokenCallback.onToken(token, isFinished)`. */
  datatype Delivery = Delivery(token: string, isFinished: bool)

  /** The text the deliveries carry, in order. */
  function TokenText(ds: seq<Delivery>): string {
    if ds == [] then "" else ds[0].token + TokenText(ds[1..])
  }

  /** The callback contract: at least one delivery, and exactly the last one marked finished. */
  predicate FinishesOnce(ds: seq<Delivery>) {
    |ds| > 0 && forall j :: 0 <= j < |ds| ==> (ds[j].isFinished <==> j == |ds| - 1)
  }

  /** No delivery is marked finished: the consumer is never told the stream ended. */
  predicate NeverFinishes(ds: seq<Delivery>) {
    forall j :: 0 <= j < |ds| ==> !ds[j].isFinished
  }

  /** When a concurrent `cancelProcessing()` becomes visible: never, or from a given flag read on. */
  datatype Cancel = NeverCancelled | CancelledAt(check: nat)

  /** The `read`-th read of the cancel flag (counting from 0) sees it set. */
  predicate Observed(c: Cancel, read: nat) {
    c.CancelledAt? && c.check <= read
  }

  /** The number of loop steps that run among `n` when each begins with a read of the flag. */
  function Stop(c: Cancel, n: nat): (k: nat)
    ensures k <= n
    ensures forall i: nat :: i < k ==> !Observed(c, i)
    ensures k < n ==> Observed(c, k)
  {
    if c.CancelledAt? && c.check < n then c.check else n
  }

  /** The progress values `lo/10, (lo+1)/10, ..., hi/10`. */
  function Tenths(lo: nat, hi: nat): seq<real>
    requires lo <= hi
    decreases hi - lo
  {
    if lo == hi then [hi as real / 10.0] else [lo as real / 10.0] + Tenths(lo + 1, hi)
  }

  predicate StrictlyIncreasing(ps: seq<real>) {
    forall i, j :: 0 <= i < j < |ps| ==> ps[i] < ps[j]
  }

  lemma {:induction false} TenthsShape(lo: nat, hi: nat)
    requires lo <= hi
    ensures |Tenths(lo, hi)| == hi - lo + 1
    ensures forall i :: 0 <= i < |Tenths(lo, hi)| ==> Tenths(lo, hi)[i] == (lo + i) as real / 10.0
    decreases hi - lo
  {
    if lo < hi {
      TenthsShape(lo + 1, hi);
    }
  }

  /** `i / 10` for i from `lo` to `hi` rises strictly, ends at hi/10, and stays in [0, 1] up to ten tenths. */
  lemma TenthsProgress(lo: nat, hi: nat)
    requires lo <= hi <= 10
    ensures StrictlyIncreasing(Tenths(lo, hi))
    ensures Tenths(lo, hi)[0] == lo as real / 10.0
    ensures Tenths(lo, hi)[|Tenths(lo, hi)| - 1] == hi as real / 10.0
    ensures forall p :: p in Tenths(lo, hi) ==> 0.0 <= p <= 1.0
  {
    TenthsShape(lo, hi);
    var ps := Tenths(lo, hi);
    forall i, j | 0 <= i < j < |ps| ensures ps[i] < ps[j] {
      assert ps[i] == (lo + i) as real / 10.0 && ps[j] == (lo + j) as real / 10.0;
    }
    forall p | p in ps ensures 0.0 <= p <= 1.0 {
      var i :| 0 <= i < |ps| && ps[i] == p;
      assert ps[i] == (lo + i) as real / 10.0;
    }
  }

  lemma {:induction false} TokenTextAppend(a: seq<Delivery>, b: seq<Delivery>)
    ensures TokenText(a + b) == TokenText(a) + TokenText(b)
    decreases |a|
  {
    if a == [] {
      assert a + b == b;
    } else {
      TokenTextAppend(a[1..], b);
      assert (a + b)[1..] == a[1..] + b;
    }
  }

  /** Each element preceded by a single space: the tail of a space-joined list. */
  function Spaced(xs: seq<string>): string {
    if xs == [] then "" else " " + xs[0] + Spaced(xs[1..])
  }

  lemma {:induction false} JoinSpaced(xs: seq<string>)
    requires xs != []
    ensures Join(xs, " ") == xs[0] + Spaced(xs[1..])
    decreases |xs|
  {
    if |xs| == 1 {
      assert xs[1..] == [];
    } else {
      JoinSpaced(xs[1..]);
      assert xs[1..][1..] == xs[2..];
    }
  }

  lemma SpacedCons(xs: seq<string>, i: nat, n: nat)
    requires i < n <= |xs|
    ensures Spaced(xs[i..n]) == " " + xs[i] + Spaced(xs[i + 1..n])
  {
    assert xs[i..n][1..] == xs[i + 1..n];
  }

  // ---------------------------------------------------------------------------
  // The development mock of the library (MockLlamaNativeLibrary)
  // ---------------------------------------------------------------------------

  const MOCK_MEMORY_BYTES: nat := 100 * 1024 * 1024

  /** The mock's text substitution: three substring replacements applied in turn. */
  function Simplify(s: string): string {
    ReplaceAll(ReplaceAll(ReplaceAll(s, "utilize", "use"), "implement", "make"), "functionality", "feature")
  }

  /** Text holding none of the three words comes back from the mock's substitution unchanged. */
  lemma SimplifyNoTargets(s: string)
    requires !Contains(s, "utilize") && !Contains(s, "implement") && !Contains(s, "functionality")
    ensures Simplify(s) == s
  {
    AbsentUnchanged(s, "utilize", "use");
    AbsentUnchanged(s, "implement", "make");
    AbsentUnchanged(s, "functionality", "feature");
  }

  lemma AbsentUnchanged(s: string, pattern: string, replacement: string)
    requires |pattern| > 0 && !Contains(s, pattern)
    ensures ReplaceAll(s, pattern, replacement) == s
  {
    assert forall j: nat :: OccursAt(s, pattern, j) ==> j <= |s|;
    ReplaceFromAbsent(s, pattern, replacement, 0);
    assert s[0..] == s;
  }

  /**
   * The mock's deliveries from token `i` on: token i as it is when first and after a
   * space otherwise, the last one finished; a step that sees the cancel flag set instead
   * delivers `("", true)` and ends the stream.
   */
  function MockDeliveriesFrom(tokens: seq<string>, c: Cancel, i: nat): seq<Delivery>
    requires i <= |tokens|
    decreases |tokens| - i
  {
    if i == |tokens| then []
    else if Observed(c, i) then [Delivery("", true)]
    else
      [Delivery(if i > 0 then " " + tokens[i] else tokens[i], i == |tokens| - 1)]
      + MockDeliveriesFrom(tokens, c, i + 1)
  }

  function MockDeliveries(input: string, c: Cancel): seq<Delivery> {
    MockDeliveriesFrom(RegexSplit(Simplify(input)), c, 0)
  }

  /** From step i, whether cancelled or not, the mock's stream is finished exactly once, at its end. */
  lemma {:induction false} MockFinishesOnceFrom(tokens: seq<string>, c: Cancel, i: nat)
    requires i < |tokens|
    ensures FinishesOnce(MockDeliveriesFrom(tokens, c, i))
    decreases |tokens| - i
  {
    if !Observed(c, i) && i + 1 < |tokens| {
      MockFinishesOnceFrom(tokens, c, i + 1);
      var rest := MockDeliveriesFrom(tokens, c, i + 1);
      var ds := MockDeliveriesFrom(tokens, c, i);
      assert ds[1..] == rest;
      forall j | 0 <= j < |ds| ensures ds[j].isFinished <==> j == |ds| - 1 {
        if j > 0 {
          assert ds[j] == rest[j - 1];
        }
      }
    }
  }

  /** The text delivered from step i >= 1 is each token up to the stopping step, after a space. */
  lemma {:induction false} MockTextFrom(tokens: seq<string>, c: Cancel, i: nat)
    requires 1 <= i <= Stop(c, |tokens|)
    ensures TokenText(MockDeliveriesFrom(tokens, c, i)) == Spaced(tokens[i..Stop(c, |tokens|)])
    decreases |tokens| - i
  {
    var n := Stop(c, |tokens|);
    if i == n {
      if i < |tokens| {
        assert MockDeliveriesFrom(tokens, c, i) == [Delivery("", true)];
      }
      assert tokens[i..n] == [];
    } else {
      assert !Observed(c, i);
      MockTextFrom(tokens, c, i + 1);
      var rest := MockDeliveriesFrom(tokens, c, i + 1);
      assert MockDeliveriesFrom(tokens, c, i) == [Delivery(" " + tokens[i], i == |tokens| - 1)] + rest;
      assert ([Delivery(" " + tokens[i], i == |tokens| - 1)] + rest)[1..] == rest;
      SpacedCons(tokens, i, n);
    }
  }

  /** The text the mock delivers is the tokens before the stopping step, joined by single spaces. */
  lemma MockText(tokens: seq<string>, c: Cancel)
    requires |tokens| > 0
    ensures TokenText(MockDeliveriesFrom(tokens, c, 0)) == Join(tokens[..Stop(c, |tokens|)], " ")
  {
    var n := Stop(c, |tokens|);
    if n == 0 {
      assert MockDeliveriesFrom(tokens, c, 0) == [Delivery("", true)];
    } else {
      MockTextFrom(tokens, c, 1);
      var rest := MockDeliveriesFrom(tokens, c, 1);
      assert MockDeliveriesFrom(tokens, c, 0) == [Delivery(tokens[0], 0 == |tokens| - 1)] + rest;
      assert ([Delivery(tokens[0], 0 == |tokens| - 1)] + rest)[1..] == rest;
      JoinSpaced(tokens[..n]);
      assert tokens[..n][1..] == tokens[1..n];
    }
  }

  /** The mock's stream length: one delivery per step run, plus the cancellation delivery. */
  lemma {:induction false} MockLengthFrom(tokens: seq<string>, c: Cancel, i: nat)
    requires i <= Stop(c, |tokens|)
    ensures |MockDeliveriesFrom(tokens, c, i)| == Stop(c, |tokens|) - i + (if Stop(c, |tokens|) < |tokens| then 1 else 0)
    decreases |tokens| - i
  {
    if i < Stop(c, |tokens|) {
      MockLengthFrom(tokens, c, i + 1);
    }
  }

  /**
   * Without cancellation the mock delivers one token per regex-split piece of the
   * substituted text, and together they spell it with every whitespace run collapsed to
   * one space; the stream is finished exactly once, at its end.
   */
  lemma MockUncancelled(input: string)
    ensures var ds := MockDeliveries(input, NeverCancelled);
            |ds| == |RegexSplit(Simplify(input))|
            && TokenText(ds) == Collapse(Simplify(input))
            && FinishesOnce(ds)
  {
    var tokens := RegexSplit(Simplify(input));
    MockText(tokens, NeverCancelled);
    assert tokens[..|tokens|] == tokens;
    JoinRegexSplit(Simplify(input));
    MockLengthFrom(tokens, NeverCancelled, 0);
    MockFinishesOnceFrom(tokens, NeverCancelled, 0);
  }

  /**
   * A cancellation seen at step k delivers the first k tokens, then exactly one
   * `("", true)`, and nothing after it.
   */
  lemma MockCancelled(input: string, k: nat)
    requires k < |RegexSplit(Simplify(input))|
    ensures var ds := MockDeliveries(input, CancelledAt(k));
            |ds| == k + 1 && ds[k] == Delivery("", true) && FinishesOnce(ds)
            && TokenText(ds) == Join(RegexSplit(Simplify(input))[..k], " ")
  {
    var tokens := RegexSplit(Simplify(input));
    MockText(tokens, CancelledAt(k));
    MockLengthFrom(tokens, CancelledAt(k), 0);
    MockFinishesOnceFrom(tokens, CancelledAt(k), 0);
    MockCancelledLast(tokens, k, 0);
  }

  lemma {:induction false} MockCancelledLast(tokens: seq<string>, k: nat, i: nat)
    requires i <= k < |tokens|
    ensures var ds := MockDeliveriesFrom(tokens, CancelledAt(k), i);
            |ds| == k - i + 1 && ds[k - i] == Delivery("", true)
    decreases k - i
  {
    if i < k {
      MockCancelledLast(tokens, k, i + 1);
    }
  }

  class MockLlamaNativeLibrary {
    var isLoaded: bool
    var isCancelled: bool

    constructor()
      ensures !isLoaded && !isCancelled
    {
      isLoaded := false;
      isCancelled := false;
    }

    /** `loadModel`: ten progress reports 0.1, 0.2, ..., 1.0, then loaded, returning true. */
    method LoadModel(modelPath: string) returns (ok: bool, progress: seq<real>)
      modifies this
      ensures ok && isLoaded && isCancelled == old(isCancelled)
      ensures progress == Tenths(1, 10)
    {
      progress := [];
      var i := 1;
      while i <= 10
        invariant 1 <= i <= 11
        invariant (i <= 10 && progress + Tenths(i, 10) == Tenths(1, 10)) || (i == 11 && progress == Tenths(1, 10))
      {
        progress := progress + [i as real / 10.0];
        i := i + 1;
      }
      isLoaded := true;
      ok := true;
    }

    /**
     * `processText`: "Model not loaded" before a load; otherwise clears the cancel flag,
     * substitutes, splits on whitespace runs and streams the pieces.
     */
    method ProcessText(inputText: string, cancel: Cancel) returns (r: Outcome<string>, deliveries: seq<Delivery>)
      modifies this
      ensures !old(isLoaded) ==>
                r == Fail("Model not loaded") && deliveries == [] && isCancelled == old(isCancelled)
      ensures old(isLoaded) ==>
                r == Pass && deliveries == MockDeliveries(inputText, cancel)
                && isCancelled == (Stop(cancel, |RegexSplit(Simplify(inputText))|) < |RegexSplit(Simplify(inputText))|)
      ensures isLoaded == old(isLoaded)
    {
      if !isLoaded {
        return Fail("Model not loaded"), [];
      }
      isCancelled := false;
      var simplifiedText := Simplify(inputText);
      var tokens := RegexSplit(simplifiedText);
      deliveries := StreamTokens(tokens, cancel);
      r := Pass;
    }

    /** The streaming loop of `processText`, over the split pieces, with the flag cleared. */
    method StreamTokens(tokens: seq<string>, cancel: Cancel) returns (deliveries: seq<Delivery>)
      requires !isCancelled && isLoaded
      modifies this
      ensures deliveries == MockDeliveriesFrom(tokens, cancel, 0)
      ensures isCancelled == (Stop(cancel, |tokens|) < |tokens|) && isLoaded
    {
      deliveries := [];
      var index := 0;
      while index < |tokens|
        invariant index <= |tokens| && !isCancelled && isLoaded
        invariant index <= Stop(cancel, |tokens|)
        invariant deliveries + MockDeliveriesFrom(tokens, cancel, index) == MockDeliveriesFrom(tokens, cancel, 0)
      {
        if Observed(cancel, index) {
          assert MockDeliveriesFrom(tokens, cancel, index) == [Delivery("", true)];
          isCancelled := true;
          deliveries := deliveries + [Delivery("", true)];
          return;
        }
        var isLast := index == |tokens| - 1;
        var token := tokens[index];
        var d := Delivery(if index > 0 then " " + token else token, isLast);
        ghost var rest := MockDeliveriesFrom(tokens, cancel, index + 1);
        assert MockDeliveriesFrom(tokens, cancel, index) == [d] + rest;
        assert deliveries + [d] + rest == deliveries + ([d] + rest);
        deliveries := deliveries + [d];
        index := index + 1;
      }
      assert deliveries == MockDeliveriesFrom(tokens, cancel, 0);
    }

    /** `cancelProcessing`: sets the flag the streaming loop reads. */
    method CancelProcessing()
      modifies this
      ensures isCancelled && isLoaded == old(isLoaded)
    {
      isCancelled := true;
    }

    /** `releaseModel`. */
    method ReleaseModel()
      modifies this
      ensures !isLoaded && isCancelled == old(isCancelled)
    {
      isLoaded := false;
    }

    function IsModelLoaded(): bool
      reads this
    {
      isLoaded
    }

    /** `getMemoryUsage`: 100 MiB while loaded and nothing otherwise. */
    function GetMemoryUsage(): (bytes: nat)
      reads this
      ensures bytes > 0 <==> isLoaded
      ensures bytes == 0 || bytes == MOCK_MEMORY_BYTES
    {
      if isLoaded then MOCK_MEMORY_BYTES else 0
    }
  }

  // ---------------------------------------------------------------------------
  // A library behind the interface, answering as each call is told to
  // ---------------------------------------------------------------------------

  /** What a library call throws: an `Exception` with its message, or an `OutOfMemoryError`, which is no `Exception`. */
  datatype Throwable = ExceptionThrown(message: string) | OutOfMemoryThrown

  /** What `loadModel` does: reports progress, then returns a verdict, throws an exception, or runs out of memory. */
  datatype LoadReply =
    | LoadReturns(progress: seq<real>, ok: bool)
    | LoadThrows(progress: seq<real>, message: string)
    | LoadRunsOutOfMemory(progress: seq<real>)

  /** What `processText` does: delivers tokens, then returns or throws. */
  datatype GenerateReply = GenerateReply(deliveries: seq<Delivery>, failure: Option<Throwable>)

  /**
   * An implementation of the library interface whose results are parameters of each
   * call, as the engine's clients (and its tests) may supply any implementation. It keeps
   * the loaded flag the interface exposes, and counts process, cancel and release requests.
   */
  class NativeBackend {
    var loaded: bool
    var processRequests: nat
    var cancelRequests: nat
    var releaseRequests: nat

    constructor(loaded: bool)
      ensures this.loaded == loaded && processRequests == 0 && cancelRequests == 0 && releaseRequests == 0
    {
      this.loaded := loaded;
      processRequests := 0;
      cancelRequests := 0;
      releaseRequests := 0;
    }

    /** `loadModel(path, progress)`: loaded exactly when it returns true. */
    method LoadModel(modelPath: string, reply: LoadReply) returns (r: Result<bool, Throwable>, progress: seq<real>)
      modifies this
      ensures progress == reply.progress
      ensures r == (match reply
                    case LoadReturns(_, ok) => Success(ok)
                    case LoadThrows(_, m) => Failure(ExceptionThrown(m))
                    case LoadRunsOutOfMemory(_) => Failure(OutOfMemoryThrown))
      ensures loaded == (r == Success(true))
      ensures processRequests == old(processRequests)
      ensures cancelRequests == old(cancelRequests) && releaseRequests == old(releaseRequests)
    {
      progress := reply.progress;
      match reply
      case LoadReturns(_, ok) =>
        r := Success(ok);
        loaded := ok;
      case LoadThrows(_, m) =>
        r := Failure(ExceptionThrown(m));
        loaded := false;
      case LoadRunsOutOfMemory(_) =>
        r := Failure(OutOfMemoryThrown);
        loaded := false;
    }

    /** `processText(input, callback)`: the deliveries, then a normal return or a throw. */
    method ProcessText(inputText: string, reply: GenerateReply) returns (r: Outcome<Throwable>, deliveries: seq<Delivery>)
      modifies this
      ensures deliveries == reply.deliveries
      ensures r == (match reply.failure case None => Pass case Some(m) => Fail(m))
      ensures processRequests == old(processRequests) + 1 && loaded == old(loaded)
      ensures cancelRequests == old(cancelRequests) && releaseRequests == old(releaseRequests)
    {
      processRequests := processRequests + 1;
      deliveries := reply.deliveries;
      r := match reply.failure case None => Pass case Some(m) => Fail(m);
    }

    method CancelProcessing()
      modifies this
      ensures cancelRequests == old(cancelRequests) + 1
      ensures loaded == old(loaded) && processRequests == old(processRequests)
      ensures releaseRequests == old(releaseRequests)
    {
      cancelRequests := cancelRequests + 1;
    }

    method ReleaseModel()
      modifies this
      ensures !loaded && releaseRequests == old(releaseRequests) + 1
      ensures processRequests == old(processRequests) && cancelRequests == old(cancelRequests)
    {
      loaded := false;
      releaseRequests := releaseRequests + 1;
    }

    function IsModelLoaded(): bool
      reads this
    {
      loaded
    }
  }
}
