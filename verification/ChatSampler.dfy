/** Sampling chat conversations for a benchmark: turns outside the length limits are dropped, and
    the surviving conversations are repeated in order until enough are collected. */
module ChatSampler {
  import opened Base

  datatype Exchange = Exchange(prompt: string, completion: string)

  datatype Sample = Sample(prompt: string, promptLen: nat, outputLen: nat)

  datatype Limits = Limits(
    minPrompt: Option<int>,
    minOutput: Option<int>,
    maxPrompt: Option<int>,
    maxOutput: Option<int>,
    fixedOutput: Option<nat>)

  predicate TooFar(lim: Limits, promptLen: nat, outputLen: nat) {
    || (lim.minPrompt.Some? && promptLen < lim.minPrompt.value)
    || (lim.minOutput.Some? && outputLen < lim.minOutput.value)
    || (lim.maxPrompt.Some? && promptLen > lim.maxPrompt.value)
    || (lim.maxOutput.Some? && outputLen > lim.maxOutput.value)
  }

  /** `tokens` is the tokenizer: the number of tokens of a text. */
  function Measure(tokens: string -> nat, lim: Limits, x: Exchange): Sample {
    Sample(x.prompt, tokens(x.prompt), if lim.fixedOutput.None? then tokens(x.completion) else lim.fixedOutput.value)
  }

  /** The turns of a conversation that are within the limits. */
  function Processed(tokens: string -> nat, lim: Limits, conv: seq<Exchange>): seq<Sample> {
    if conv == [] then [] else
      var m := Measure(tokens, lim, conv[|conv| - 1]);
      Processed(tokens, lim, conv[..|conv| - 1]) + if TooFar(lim, m.promptLen, m.outputLen) then [] else [m]
  }

  /** The conversations that keep a turn, in order. */
  function Survivors(tokens: string -> nat, lim: Limits, dataset: seq<seq<Exchange>>): seq<seq<Sample>> {
    if dataset == [] then [] else
      var p := Processed(tokens, lim, dataset[|dataset| - 1]);
      Survivors(tokens, lim, dataset[..|dataset| - 1]) + if p == [] then [] else [p]
  }

  lemma {:induction false} SurvivorsGrow(tokens: string -> nat, lim: Limits, dataset: seq<seq<Exchange>>, i: nat)
    requires i <= |dataset|
    ensures Survivors(tokens, lim, dataset[..i]) <= Survivors(tokens, lim, dataset)
  {
    if i < |dataset| {
      var front := dataset[..|dataset| - 1];
      SurvivorsGrow(tokens, lim, front, i);
      assert front[..i] == dataset[..i];
    } else {
      assert dataset[..i] == dataset;
    }
  }

  // ----- the endless repetition -----

  /** The first n items of survivors, survivors, ... */
  function Cycle<T>(items: seq<T>, n: nat): seq<T>
    requires n == 0 || items != []
    decreases n
  {
    if n <= |items| then items[..n] else items + Cycle(items, n - |items|)
  }

  lemma {:induction false} QuotientNotAbove(m: nat, q: nat, r: nat, q': nat, r': nat)
    requires m * q + r == m * q' + r' && r < m && r' < m
    ensures q <= q'
  {
    if q > 0 {
      assert m * q == m * (q - 1) + m;
      if q' > 0 {
        assert m * q' == m * (q' - 1) + m;
        QuotientNotAbove(m, q - 1, r, q' - 1, r');
      }
    }
  }

  lemma ModUnique(k: nat, m: nat, q: nat, r: nat)
    requires m > 0 && k == m * q + r && r < m
    ensures k % m == r
  {
    var q', r' := k / m, k % m;
    assert k == m * q' + r';
    QuotientNotAbove(m, q, r, q', r');
    QuotientNotAbove(m, q', r', q, r);
  }

  lemma ModStep(k: nat, m: nat)
    requires 0 < m <= k
    ensures (k - m) % m == k % m
  {
    var q, r := (k - m) / m, (k - m) % m;
    assert k - m == m * q + r;
    assert m * (q + 1) == m * q + m;
    ModUnique(k, m, q + 1, r);
  }

  /** Item k of the repetition is item k modulo the number of survivors. */
  lemma {:induction false} CycleAt<T>(items: seq<T>, n: nat, k: nat)
    requires items != [] && k < n
    ensures |Cycle(items, n)| == n && Cycle(items, n)[k] == items[k % |items|]
    decreases n
  {
    if n > |items| {
      var m := |items|;
      if k < m {
        ModUnique(k, m, 0, k);
        CycleAt(items, n - m, 0);
      } else {
        CycleAt(items, n - m, k - m);
        ModStep(k, m);
      }
    } else {
      ModUnique(k, |items|, 0, k);
    }
  }

  function Repeat<T>(items: seq<T>, passes: nat): seq<T> {
    if passes == 0 then [] else items + Repeat(items, passes - 1)
  }

  lemma {:induction false} RepeatMore<T>(items: seq<T>, passes: nat)
    ensures Repeat(items, passes) + items == Repeat(items, passes + 1)
  {
    if passes > 0 {
      RepeatMore(items, passes - 1);
      assert items + (Repeat(items, passes - 1) + items) == Repeat(items, passes) + items;
    } else {
      assert Repeat(items, 0) == [];
    }
  }

  lemma {:induction false} CycleIs<T>(items: seq<T>, passes: nat, j: nat)
    requires items != [] && j <= |items|
    ensures Cycle(items, |Repeat(items, passes)| + j) == Repeat(items, passes) + items[..j]
  {
    if passes > 0 {
      CycleIs(items, passes - 1, j);
      var n := |Repeat(items, passes)| + j;
      assert Cycle(items, n) == items + Cycle(items, n - |items|);
    }
  }

  // ----- the sampler -----

  method ProcessConversation(tokens: string -> nat, lim: Limits, conv: seq<Exchange>) returns (processed: seq<Sample>)
    ensures processed == Processed(tokens, lim, conv)
  {
    processed := [];
    for j := 0 to |conv|
      invariant processed == Processed(tokens, lim, conv[..j])
    {
      assert conv[..j + 1][..j] == conv[..j];
      var promptLen := tokens(conv[j].prompt);
      var outputLen := if lim.fixedOutput.None? then tokens(conv[j].completion) else lim.fixedOutput.value;
      if TooFar(lim, promptLen, outputLen) {
        continue;
      }
      processed := processed + [Sample(conv[j].prompt, promptLen, outputLen)];
    }
    assert conv[..|conv|] == conv;
  }

  /** One pass of the outer loop, which stops as soon as enough are collected. */
  method OnePass(tokens: string -> nat, lim: Limits, dataset: seq<seq<Exchange>>, numRequests: nat,
                 out: seq<seq<Sample>>)
    returns (filtered: seq<seq<Sample>>)
    requires |out| < numRequests
    ensures filtered == AfterPass(Survivors(tokens, lim, dataset), numRequests, out)
  {
    filtered := out;
    ghost var survivors := Survivors(tokens, lim, dataset);
    for i := 0 to |dataset|
      invariant |filtered| <= numRequests
      invariant filtered == out + Survivors(tokens, lim, dataset[..i])
    {
      SurvivorsGrow(tokens, lim, dataset, i);
      if |filtered| == numRequests {
        return;
      }
      var processed := ProcessConversation(tokens, lim, dataset[i]);
      assert dataset[..i + 1][..i] == dataset[..i];
      if |processed| != 0 {
        filtered := filtered + [processed];
      }
    }
    assert dataset[..|dataset|] == dataset;
  }

  function AfterPass<T>(survivors: seq<T>, n: nat, out: seq<T>): seq<T>
    requires |out| <= n
  {
    out + if |survivors| <= n - |out| then survivors else survivors[..n - |out|]
  }

  /** Exactly the first numRequests items of the endless repetition of the survivors. The
      precondition is what makes the loop end. */
  method FilterChat(tokens: string -> nat, lim: Limits, dataset: seq<seq<Exchange>>, numRequests: int)
    returns (filtered: seq<seq<Sample>>)
    requires numRequests <= 0 || Survivors(tokens, lim, dataset) != []
    ensures numRequests <= 0 ==> filtered == []
    ensures numRequests > 0 ==> filtered == Cycle(Survivors(tokens, lim, dataset), numRequests)
  {
    filtered := [];
    ghost var survivors := Survivors(tokens, lim, dataset);
    ghost var passes := 0;
    while |filtered| < numRequests
      invariant numRequests > 0 ==> |filtered| <= numRequests
      invariant |filtered| < numRequests ==> filtered == Repeat(survivors, passes)
      invariant numRequests <= 0 ==> filtered == []
      invariant |filtered| == numRequests > 0 ==> filtered == Cycle(survivors, numRequests)
      decreases numRequests - |filtered|
    {
      ghost var before := filtered;
      var next := OnePass(tokens, lim, dataset, numRequests, filtered);
      PassCycles(survivors, numRequests, passes);
      RepeatMore(survivors, passes);
      filtered := next;
      passes := passes + 1;
    }
  }

  lemma PassCycles<T>(survivors: seq<T>, n: nat, passes: nat)
    requires survivors != [] && |Repeat(survivors, passes)| < n
    ensures var next := AfterPass(survivors, n, Repeat(survivors, passes));
      && |Repeat(survivors, passes)| < |next| <= n
      && (|next| == n ==> next == Cycle(survivors, n))
      && (|next| < n ==> next == Repeat(survivors, passes) + survivors)
  {
    var done := |Repeat(survivors, passes)|;
    if |survivors| <= n - done {
      CycleIs(survivors, passes, |survivors|);
      assert survivors[..|survivors|] == survivors;
    } else {
      CycleIs(survivors, passes, n - done);
    }
  }

  // ----- termination -----

  /** What is collected after some number of passes. */
  function AfterPasses<T>(survivors: seq<T>, n: nat, passes: nat): (r: seq<T>)
    ensures |r| <= n
  {
    if passes == 0 then [] else AfterPass(survivors, n, AfterPasses(survivors, n, passes - 1))
  }

  lemma {:induction false} Progress<T>(survivors: seq<T>, n: nat, passes: nat)
    ensures survivors == [] ==> AfterPasses(survivors, n, passes) == []
    ensures survivors != [] ==> |AfterPasses(survivors, n, passes)| >= if passes <= n then passes else n
  {
    if passes > 0 {
      Progress(survivors, n, passes - 1);
    }
  }

  /** The loop ends exactly when nothing is asked for or a conversation survives. */
  lemma EndsIffSurvivor<T>(survivors: seq<T>, n: nat)
    ensures (exists passes: nat :: |AfterPasses(survivors, n, passes)| == n) <==> n == 0 || survivors != []
  {
    if n == 0 || survivors != [] {
      Progress(survivors, n, n);
      assert |AfterPasses(survivors, n, n)| == n;
    } else {
      forall passes: nat
        ensures |AfterPasses(survivors, n, passes)| != n
      {
        Progress(survivors, n, passes);
      }
    }
  }

  // ----- what is kept -----

  /** The length is not below the least one and not above the greatest one, where there are such. */
  predicate Within(length: nat, least: Option<int>, greatest: Option<int>) {
    (least.None? || least.value <= length) && (greatest.None? || length <= greatest.value)
  }

  /** The output length that counts for a turn: the fixed one, or else that of its completion. */
  function OutputLength(tokens: string -> nat, lim: Limits, x: Exchange): nat {
    if lim.fixedOutput.Some? then lim.fixedOutput.value else tokens(x.completion)
  }

  /** Both lengths of the turn are within the limits. */
  predicate Fits(tokens: string -> nat, lim: Limits, x: Exchange) {
    && Within(tokens(x.prompt), lim.minPrompt, lim.maxPrompt)
    && Within(OutputLength(tokens, lim, x), lim.minOutput, lim.maxOutput)
  }

  ghost predicate Ascending(ks: seq<nat>) {
    forall i, j :: 0 <= i < j < |ks| ==> ks[i] < ks[j]
  }

  /** The sample is that of the turn. */
  ghost predicate SampleOf(tokens: string -> nat, lim: Limits, x: Exchange, r: Sample) {
    r.prompt == x.prompt && r.promptLen == tokens(x.prompt) && r.outputLen == OutputLength(tokens, lim, x)
  }

  /** The samples are those of the turns ks, which are exactly the fitting ones, in order. */
  ghost predicate Keeps(tokens: string -> nat, lim: Limits, conv: seq<Exchange>, ks: seq<nat>, kept: seq<Sample>) {
    && |ks| == |kept| && Ascending(ks)
    && (forall k: nat :: k in ks <==> k < |conv| && Fits(tokens, lim, conv[k]))
    && (forall j :: 0 <= j < |ks| ==> ks[j] < |conv| && SampleOf(tokens, lim, conv[ks[j]], kept[j]))
  }

  lemma KeepsNext(tokens: string -> nat, lim: Limits, conv: seq<Exchange>, n: nat, ks: seq<nat>, kept: seq<Sample>)
    requires n < |conv| && Keeps(tokens, lim, conv[..n], ks, kept)
    ensures !Fits(tokens, lim, conv[n]) ==> Keeps(tokens, lim, conv[..n + 1], ks, kept)
    ensures Fits(tokens, lim, conv[n]) ==>
              Keeps(tokens, lim, conv[..n + 1], ks + [n], kept + [Measure(tokens, lim, conv[n])])
  {
    var front, all := conv[..n], conv[..n + 1];
    assert forall k: nat :: k < n ==> front[k] == all[k];
    forall j | 0 <= j < |ks|
      ensures ks[j] < n
    {
      assert ks[j] in ks;
    }
  }

  lemma FitsOrTooFar(tokens: string -> nat, lim: Limits, x: Exchange)
    ensures Fits(tokens, lim, x) <==> !TooFar(lim, Measure(tokens, lim, x).promptLen, Measure(tokens, lim, x).outputLen)
  {
  }

  /** The kept turns of a conversation are exactly those within the four limits, each once and in
      their order. */
  lemma {:induction false} ProcessedOk(tokens: string -> nat, lim: Limits, conv: seq<Exchange>) returns (ks: seq<nat>)
    ensures Keeps(tokens, lim, conv, ks, Processed(tokens, lim, conv))
  {
    if conv == [] {
      ks := [];
    } else {
      var n := |conv| - 1;
      ks := ProcessedOk(tokens, lim, conv[..n]);
      KeepsNext(tokens, lim, conv, n, ks, Processed(tokens, lim, conv[..n]));
      FitsOrTooFar(tokens, lim, conv[n]);
      assert conv[..n + 1] == conv;
      if Fits(tokens, lim, conv[n]) {
        ks := ks + [n];
      }
    }
  }

  ghost predicate HasFitting(tokens: string -> nat, lim: Limits, conv: seq<Exchange>) {
    exists i :: 0 <= i < |conv| && Fits(tokens, lim, conv[i])
  }

  /** The conversations number ks are exactly those with a fitting turn, in order. */
  ghost predicate KeepsConversations(tokens: string -> nat, lim: Limits, dataset: seq<seq<Exchange>>, ks: seq<nat>,
                                     kept: seq<seq<Sample>>)
  {
    && |ks| == |kept| && Ascending(ks)
    && (forall k: nat :: k in ks <==> k < |dataset| && HasFitting(tokens, lim, dataset[k]))
    && (forall j :: 0 <= j < |ks| ==> ks[j] < |dataset| && kept[j] == Processed(tokens, lim, dataset[ks[j]]))
  }

  lemma ConversationNext(tokens: string -> nat, lim: Limits, dataset: seq<seq<Exchange>>, n: nat, ks: seq<nat>,
                         kept: seq<seq<Sample>>)
    requires n < |dataset| && KeepsConversations(tokens, lim, dataset[..n], ks, kept)
    ensures !HasFitting(tokens, lim, dataset[n]) ==> KeepsConversations(tokens, lim, dataset[..n + 1], ks, kept)
    ensures HasFitting(tokens, lim, dataset[n]) ==>
              KeepsConversations(tokens, lim, dataset[..n + 1], ks + [n], kept + [Processed(tokens, lim, dataset[n])])
  {
    var front, all := dataset[..n], dataset[..n + 1];
    assert forall k: nat :: k < n ==> front[k] == all[k];
    forall j | 0 <= j < |ks|
      ensures ks[j] < n
    {
      assert ks[j] in ks;
    }
  }

  lemma KeepsSome(tokens: string -> nat, lim: Limits, conv: seq<Exchange>)
    ensures Processed(tokens, lim, conv) != [] <==> HasFitting(tokens, lim, conv)
  {
    var ks := ProcessedOk(tokens, lim, conv);
    if ks != [] {
      assert ks[0] in ks;
    }
  }

  /** The surviving conversations are exactly those with a turn within the limits, each once and in
      the order of the data. */
  lemma {:induction false} SurvivorsOk(tokens: string -> nat, lim: Limits, dataset: seq<seq<Exchange>>)
    returns (ks: seq<nat>)
    ensures KeepsConversations(tokens, lim, dataset, ks, Survivors(tokens, lim, dataset))
  {
    if dataset == [] {
      ks := [];
    } else {
      var n := |dataset| - 1;
      ks := SurvivorsOk(tokens, lim, dataset[..n]);
      ConversationNext(tokens, lim, dataset, n, ks, Survivors(tokens, lim, dataset[..n]));
      KeepsSome(tokens, lim, dataset[n]);
      assert dataset[..n + 1] == dataset;
      if Processed(tokens, lim, dataset[n]) != [] {
        ks := ks + [n];
      }
    }
  }
}
