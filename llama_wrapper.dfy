/**
 * The C++ inference wrapper as it stands: a stub that simulates loading in eleven
 * progress steps and streams back the whitespace-separated words of its input with a
 * few whole-word substitutions. Callbacks are optional (a null `std::function` is
 * skipped); the cancel flag is read before each word and once more before the final
 * delivery.
 */
module NativeStub {
  import opened Text
  import opened NativeLibrary

  const STUB_MEMORY_BYTES: nat := 100 * 1024 * 1024

  /** Whole-word substitution: only a word equal to one of the three targets changes. */
  function SimplifyWord(word: string): (w: string)
    ensures w != word ==> word in {"utilize", "implement", "functionality"}
  {
    if word == "utilize" then "use"
    else if word == "implement" then "make"
    else if word == "functionality" then "feature"
    else word
  }

  function SimplifyWords(words: seq<string>): (ws: seq<string>)
    ensures |ws| == |words|
    ensures forall i :: 0 <= i < |words| ==> ws[i] == SimplifyWord(words[i])
  {
    if words == [] then [] else [SimplifyWord(words[0])] + SimplifyWords(words[1..])
  }

  /**
   * The stub's deliveries from word `i` on: a `" "` before every word but the first,
   * each word simplified, none finished; when the words run out, a final `("", true)`
   * unless that last read of the flag sees the cancellation. A step that sees it ends
   * the stream with nothing more.
   */
  function StubDeliveriesFrom(words: seq<string>, c: Cancel, i: nat): seq<Delivery>
    requires i <= |words|
    decreases |words| - i
  {
    if i == |words| then (if Observed(c, i) then [] else [Delivery("", true)])
    else if Observed(c, i) then []
    else
      (if i > 0 then [Delivery(" ", false)] else [])
      + [Delivery(SimplifyWord(words[i]), false)]
      + StubDeliveriesFrom(words, c, i + 1)
  }

  function StubDeliveries(input: string, c: Cancel): seq<Delivery> {
    StubDeliveriesFrom(Words(input), c, 0)
  }

  /**
   * Up to the stopping word, the text delivered from word i >= 1 is each simplified word
   * after a space.
   */
  lemma {:induction false} StubTextFrom(words: seq<string>, c: Cancel, i: nat)
    requires 1 <= i <= Stop(c, |words|)
    ensures TokenText(StubDeliveriesFrom(words, c, i)) == Spaced(SimplifyWords(words)[i..Stop(c, |words|)])
    decreases |words| - i
  {
    var n := Stop(c, |words|);
    var ws := SimplifyWords(words);
    if i == n {
      StubTextStopped(words, c, i);
      assert ws[i..n] == [];
    } else {
      StubTextFrom(words, c, i + 1);
      StubTextMore(words, c, i);
    }
  }

  /** One more delivered word extends the spaced text by that word. */
  lemma StubTextMore(words: seq<string>, c: Cancel, i: nat)
    requires 1 <= i < Stop(c, |words|)
    requires TokenText(StubDeliveriesFrom(words, c, i + 1))
             == Spaced(SimplifyWords(words)[i + 1..Stop(c, |words|)])
    ensures TokenText(StubDeliveriesFrom(words, c, i)) == Spaced(SimplifyWords(words)[i..Stop(c, |words|)])
  {
    var n := Stop(c, |words|);
    var ws := SimplifyWords(words);
    StubTextStep(words, c, i);
    SpacedCons(ws, i, n);
  }

  /** From the stopping step on, nothing more is said: at most the empty final delivery. */
  lemma StubTextStopped(words: seq<string>, c: Cancel, i: nat)
    requires i == Stop(c, |words|)
    ensures TokenText(StubDeliveriesFrom(words, c, i)) == ""
  {
    if i == |words| && !Observed(c, i) {
      assert StubDeliveriesFrom(words, c, i) == [Delivery("", true)];
    }
  }

  /** A word delivered after the first adds a space and the simplified word to the text. */
  lemma StubTextStep(words: seq<string>, c: Cancel, i: nat)
    requires 1 <= i < Stop(c, |words|)
    ensures TokenText(StubDeliveriesFrom(words, c, i))
            == " " + SimplifyWord(words[i]) + TokenText(StubDeliveriesFrom(words, c, i + 1))
  {
    var rest := StubDeliveriesFrom(words, c, i + 1);
    var head := [Delivery(" ", false), Delivery(SimplifyWord(words[i]), false)];
    assert StubDeliveriesFrom(words, c, i) == head + rest;
    TokenTextAppend(head, rest);
    assert TokenText(head) == " " + SimplifyWord(words[i]);
  }

  /** The stub's text is its simplified words before the stopping step, joined by single spaces. */
  lemma StubText(words: seq<string>, c: Cancel)
    ensures TokenText(StubDeliveriesFrom(words, c, 0)) == Join(SimplifyWords(words)[..Stop(c, |words|)], " ")
  {
    var n := Stop(c, |words|);
    if n == 0 {
      assert SimplifyWords(words)[..0] == [];
      if |words| == 0 && !Observed(c, 0) {
        assert StubDeliveriesFrom(words, c, 0) == [Delivery("", true)];
      }
    } else {
      StubTextFirst(words, c);
    }
  }

  /** When the first word is delivered, the text is that word and then the spaced rest. */
  lemma StubTextFirst(words: seq<string>, c: Cancel)
    requires Stop(c, |words|) > 0
    ensures TokenText(StubDeliveriesFrom(words, c, 0)) == Join(SimplifyWords(words)[..Stop(c, |words|)], " ")
  {
    var n := Stop(c, |words|);
    var ws := SimplifyWords(words);
    var rest := StubDeliveriesFrom(words, c, 1);
    var head := [Delivery(ws[0], false)];
    assert StubDeliveriesFrom(words, c, 0) == head + rest;
    StubTextFrom(words, c, 1);
    TokenTextAppend(head, rest);
    assert TokenText(head) == ws[0];
    JoinSpaced(ws[..n]);
    assert ws[..n][1..] == ws[1..n];
  }

  /** With no cancellation the stream ends in exactly one finished delivery. */
  lemma {:induction false} StubFinishesOnceFrom(words: seq<string>, i: nat)
    requires i <= |words|
    ensures FinishesOnce(StubDeliveriesFrom(words, NeverCancelled, i))
    decreases |words| - i
  {
    if i < |words| {
      StubFinishesOnceFrom(words, i + 1);
      var rest := StubDeliveriesFrom(words, NeverCancelled, i + 1);
      var head := (if i > 0 then [Delivery(" ", false)] else []) + [Delivery(SimplifyWord(words[i]), false)];
      var ds := StubDeliveriesFrom(words, NeverCancelled, i);
      assert ds == head + rest;
      forall j | 0 <= j < |ds| ensures ds[j].isFinished <==> j == |ds| - 1 {
        if j >= |head| {
          assert ds[j] == rest[j - |head|];
        } else {
          assert ds[j] == head[j];
        }
      }
    }
  }

  /** Once the flag read before the final delivery sees a cancellation, nothing is marked finished. */
  lemma {:induction false} StubCancelledNeverFinishes(words: seq<string>, c: Cancel, i: nat)
    requires i <= |words| && Observed(c, |words|)
    ensures NeverFinishes(StubDeliveriesFrom(words, c, i))
    decreases |words| - i
  {
    if i < |words| && !Observed(c, i) {
      StubCancelledNeverFinishes(words, c, i + 1);
      var rest := StubDeliveriesFrom(words, c, i + 1);
      var head := (if i > 0 then [Delivery(" ", false)] else []) + [Delivery(SimplifyWord(words[i]), false)];
      var ds := StubDeliveriesFrom(words, c, i);
      assert ds == head + rest;
      forall j | 0 <= j < |ds| ensures !ds[j].isFinished {
        if j >= |head| {
          assert ds[j] == rest[j - |head|];
        } else {
          assert ds[j] == head[j];
        }
      }
    }
  }

  /**
   * Without cancellation the deliveries spell the simplified words of the input joined
   * by single spaces and end in exactly one `("", true)`.
   */
  lemma StubUncancelled(input: string)
    ensures TokenText(StubDeliveries(input, NeverCancelled)) == Join(SimplifyWords(Words(input)), " ")
    ensures FinishesOnce(StubDeliveries(input, NeverCancelled))
    ensures StubDeliveries(input, NeverCancelled)[|StubDeliveries(input, NeverCancelled)| - 1] == Delivery("", true)
  {
    var words := Words(input);
    StubText(words, NeverCancelled);
    assert SimplifyWords(words)[..|words|] == SimplifyWords(words);
    StubFinishesOnceFrom(words, 0);
    StubLast(words, 0);
  }

  lemma {:induction false} StubLast(words: seq<string>, i: nat)
    requires i <= |words|
    ensures var ds := StubDeliveriesFrom(words, NeverCancelled, i);
            |ds| > 0 && ds[|ds| - 1] == Delivery("", true)
    decreases |words| - i
  {
    if i < |words| {
      StubLast(words, i + 1);
      var rest := StubDeliveriesFrom(words, NeverCancelled, i + 1);
      var head := (if i > 0 then [Delivery(" ", false)] else []) + [Delivery(SimplifyWord(words[i]), false)];
      assert StubDeliveriesFrom(words, NeverCancelled, i) == head + rest;
    }
  }

  /**
   * A cancellation seen at word k delivers only the first k simplified words (with their
   * separators) and no final delivery at all, unlike the Kotlin mock.
   */
  lemma StubCancelled(input: string, k: nat)
    requires k <= |Words(input)|
    ensures NeverFinishes(StubDeliveries(input, CancelledAt(k)))
    ensures TokenText(StubDeliveries(input, CancelledAt(k))) == Join(SimplifyWords(Words(input))[..k], " ")
  {
    var words := Words(input);
    StubText(words, CancelledAt(k));
    assert Stop(CancelledAt(k), |words|) == k;
    StubCancelledNeverFinishes(words, CancelledAt(k), 0);
  }

  class LlamaWrapper {
    var modelLoaded: bool
    var memoryUsage: nat
    /** How many times `releaseModel` has run on this wrapper. */
    ghost var releases: nat

    /** The state pImpl always keeps: memory is in use exactly while a model is loaded. */
    ghost predicate Valid()
      reads this
    {
      memoryUsage == (if modelLoaded then STUB_MEMORY_BYTES else 0)
    }

    constructor()
      ensures !modelLoaded && memoryUsage == 0 && releases == 0 && Valid()
    {
      modelLoaded := false;
      memoryUsage := 0;
      releases := 0;
    }

    /** `loadModel`: reports 0/10 through 10/10 (when a callback is given), then loads. */
    method LoadModel(modelPath: string, hasCallback: bool) returns (ok: bool, progress: seq<real>)
      modifies this
      ensures ok && modelLoaded && memoryUsage == STUB_MEMORY_BYTES && releases == old(releases) && Valid()
      ensures progress == if hasCallback then Tenths(0, 10) else []
    {
      progress := [];
      for i := 0 to 11
        invariant hasCallback ==> (i == 0 && progress == []) || (1 <= i && progress == Tenths(0, i - 1))
        invariant !hasCallback ==> progress == []
        invariant releases == old(releases)
      {
        if hasCallback {
          TenthsSnoc(i);
          progress := progress + [i as real / 10.0];
        }
      }
      modelLoaded := true;
      memoryUsage := STUB_MEMORY_BYTES;
      ok := true;
    }

    /**
     * `processText`: an unloaded wrapper delivers only `("", true)`; a loaded one streams
     * the words of the input. Nothing is delivered without a callback.
     */
    method ProcessText(inputText: string, hasCallback: bool, cancel: Cancel) returns (deliveries: seq<Delivery>)
      ensures !hasCallback ==> deliveries == []
      ensures hasCallback && !modelLoaded ==> deliveries == [Delivery("", true)]
      ensures hasCallback && modelLoaded ==> deliveries == StubDeliveries(inputText, cancel)
    {
      if !modelLoaded {
        deliveries := if hasCallback then [Delivery("", true)] else [];
        return;
      }
      var words := Words(inputText);
      deliveries := [];
      var tokenCount := 0;
      while tokenCount < |words| && !Observed(cancel, tokenCount)
        invariant tokenCount <= |words| && tokenCount <= Stop(cancel, |words|)
        invariant hasCallback ==> deliveries + StubDeliveriesFrom(words, cancel, tokenCount) == StubDeliveriesFrom(words, cancel, 0)
        invariant !hasCallback ==> deliveries == []
      {
        var word := words[tokenCount];
        if tokenCount > 0 && hasCallback {
          deliveries := deliveries + [Delivery(" ", false)];
        }
        word := SimplifyWord(word);
        if hasCallback {
          deliveries := deliveries + [Delivery(word, false)];
        }
        tokenCount := tokenCount + 1;
      }
      if hasCallback && !Observed(cancel, tokenCount) {
        deliveries := deliveries + [Delivery("", true)];
      }
    }

    /** `releaseModel`. */
    method ReleaseModel()
      modifies this
      ensures !modelLoaded && memoryUsage == 0 && releases == old(releases) + 1 && Valid()
    {
      modelLoaded := false;
      memoryUsage := 0;
      releases := releases + 1;
    }

    /** The destructor: releases the model only when one is loaded. */
    method Destroy()
      requires Valid()
      modifies this
      ensures !modelLoaded && memoryUsage == 0 && Valid()
      ensures releases == old(releases) + (if old(modelLoaded) then 1 else 0)
    {
      if modelLoaded {
        ReleaseModel();
      }
    }

    function IsModelLoaded(): bool
      reads this
    {
      modelLoaded
    }

    /** `getMemoryUsage`: 100 MiB while a model is loaded and 0 otherwise. */
    function GetMemoryUsage(): (bytes: nat)
      requires Valid()
      reads this
      ensures bytes > 0 <==> modelLoaded
    {
      memoryUsage
    }
  }

  lemma {:induction false} TenthsSnoc(i: nat)
    ensures Tenths(0, i) == (if i == 0 then [] else Tenths(0, i - 1)) + [i as real / 10.0]
  {
    TenthsShape(0, i);
    if i > 0 {
      TenthsShape(0, i - 1);
      var a := Tenths(0, i);
      var b := Tenths(0, i - 1) + [i as real / 10.0];
      assert |a| == |b|;
      forall j | 0 <= j < |a| ensures a[j] == b[j] {
        if j < i {
          assert b[j] == Tenths(0, i - 1)[j];
        }
      }
    }
  }
}
