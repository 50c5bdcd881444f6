/** The `for iteration in range(number_iterations)` loop of perform_inference: which
    optimizer calls each iteration makes, what it appends to the loss list, and where the
    IndexError on an empty optimizer list stops it. */
module TrainingLoop {
  import opened ModelTypes

  /** `[opt.zero_grad() for opt in opts]` on iteration `i`. */
  function ZeroGrads(opts: seq<Role>, i: nat): (es: seq<Event>)
    ensures |es| == |opts|
  {
    if opts == [] then [] else ZeroGrads(opts[..|opts| - 1], i) + [ZeroGrad(opts[|opts| - 1], i)]
  }

  /** `[opt.update() for opt in opts]` on iteration `i`. */
  function Updates(opts: seq<Role>, i: nat): (es: seq<Event>)
    ensures |es| == |opts|
  {
    if opts == [] then [] else Updates(opts[..|opts| - 1], i) + [Update(opts[|opts| - 1], i)]
  }

  /** The calls of a finite iteration up to `optimizers_list[0]`. */
  function Prepare(i: nat, opts: seq<Role>): seq<Event>
  {
    [ComputeLoss(i)] + ZeroGrads(opts, i) + [Backward(i), CorrectGradient(i)]
  }

  /** The optimizer steps of a finite iteration with at least one optimizer. */
  function Steps(i: nat, opts: seq<Role>, pretraining: int): seq<Event>
    requires opts != []
  {
    [Update(opts[0], i)] + (if i > pretraining then Updates(opts[1..], i) else [])
  }

  /** The calls of one pass of the loop body, iteration `i`, given the loss `compute_loss`
      returned; with no optimizer it stops at `optimizers_list[0]`. */
  function IterationEvents(i: nat, loss: Loss, opts: seq<Role>, pretraining: int): (es: seq<Event>)
    ensures |es| >= 2 && es[0] == ComputeLoss(i)
    ensures loss.NonFinite? ==> es == [ComputeLoss(i), NumericalWarning(i)]
  {
    if loss.NonFinite? then [ComputeLoss(i), NumericalWarning(i)]
    else if opts == [] then Prepare(i, opts)
    else Prepare(i, opts) + Steps(i, opts, pretraining)
  }

  /** Whether that pass raises the IndexError of `optimizers_list[0]`. */
  predicate IterationFails(loss: Loss, opts: seq<Role>)
  {
    loss.Finite? && opts == []
  }

  /** What that pass appends to the loss list. */
  function IterationEntries(loss: Loss, opts: seq<Role>): (es: seq<Entry>)
    ensures |es| == if loss.NonFinite? then 1 else if opts == [] then 0 else 2
    ensures forall k :: 0 <= k < |es| ==> es[k].loss == loss
  {
    if loss.NonFinite? then [Plain(loss)]
    else if opts == [] then []
    else [Flattened(loss), Plain(loss)]
  }

  /** Whether the loop over the iterations whose losses are `losses` raises. */
  predicate LoopFails(losses: seq<Loss>, opts: seq<Role>)
    ensures LoopFails(losses, opts) ==> opts == [] && losses != []
    decreases |losses|
  {
    losses != [] &&
    (LoopFails(losses[..|losses| - 1], opts) || IterationFails(losses[|losses| - 1], opts))
  }

  /** The calls of that loop, which stops at the first IndexError. */
  function LoopEvents(losses: seq<Loss>, opts: seq<Role>, pretraining: int): (es: seq<Event>)
    ensures losses != [] ==> |es| >= 2 && es[0] == ComputeLoss(0)
    decreases |losses|
  {
    if losses == [] then []
    else
      var init := losses[..|losses| - 1];
      if LoopFails(init, opts) then LoopEvents(init, opts, pretraining)
      else LoopEvents(init, opts, pretraining) + IterationEvents(|losses| - 1, losses[|losses| - 1], opts, pretraining)
  }

  /** The loss list that loop builds. */
  function LoopEntries(losses: seq<Loss>, opts: seq<Role>): (es: seq<Entry>)
    ensures |es| <= 2 * |losses|
    decreases |losses|
  {
    if losses == [] then []
    else
      var init := losses[..|losses| - 1];
      if LoopFails(init, opts) then LoopEntries(init, opts)
      else LoopEntries(init, opts) + IterationEntries(losses[|losses| - 1], opts)
  }

  // ---------------------------------------------------------------- reference definitions

  /** The finite losses, in order. */
  function FiniteLosses(losses: seq<Loss>): seq<Loss>
    decreases |losses|
  {
    if losses == [] then []
    else FiniteLosses(losses[..|losses| - 1]) +
         (if losses[|losses| - 1].Finite? then [losses[|losses| - 1]] else [])
  }

  /** Number of finite losses at an iteration strictly above `pretraining`. */
  function FiniteAfter(losses: seq<Loss>, pretraining: int): nat
    decreases |losses|
  {
    if losses == [] then 0
    else FiniteAfter(losses[..|losses| - 1], pretraining) +
         (if losses[|losses| - 1].Finite? && |losses| - 1 > pretraining then 1 else 0)
  }

  /** The losses of the plain entries of a loss list, in order. */
  function PlainLosses(entries: seq<Entry>): seq<Loss>
    decreases |entries|
  {
    if entries == [] then []
    else PlainLosses(entries[..|entries| - 1]) +
         (if entries[|entries| - 1].Plain? then [entries[|entries| - 1].loss] else [])
  }

  /** The losses of the flattened entries of a loss list, in order. */
  function FlattenedLosses(entries: seq<Entry>): seq<Loss>
    decreases |entries|
  {
    if entries == [] then []
    else FlattenedLosses(entries[..|entries| - 1]) +
         (if entries[|entries| - 1].Flattened? then [entries[|entries| - 1].loss] else [])
  }

  /** No role occurs twice. */
  predicate NoDuplicates(opts: seq<Role>)
  {
    forall p, q :: 0 <= p < q < |opts| ==> opts[p] != opts[q]
  }

  /** Events made inside the loop body. */
  predicate IsLoopEvent(e: Event)
  {
    e.ComputeLoss? || e.ZeroGrad? || e.Backward? || e.CorrectGradient? || e.Update? || e.NumericalWarning?
  }

  /** The iteration a loop event belongs to. */
  function IterOf(e: Event): nat
  {
    if IsLoopEvent(e) then e.iteration else 0
  }

  /** Events that touch gradients or parameters. */
  predicate IsStepEvent(e: Event)
  {
    e.ZeroGrad? || e.Backward? || e.CorrectGradient? || e.Update?
  }

  /** How often iteration `i`, with loss `loss`, makes event `e`: the source's rules
      stated per event. */
  function CountAt(e: Event, i: nat, loss: Loss, opts: seq<Role>, pretraining: int): nat
  {
    match e
    case ComputeLoss(j) => if j == i then 1 else 0
    case NumericalWarning(j) => if j == i && loss.NonFinite? then 1 else 0
    case ZeroGrad(r, j) => if j == i && loss.Finite? && r in opts then 1 else 0
    case Backward(j) => if j == i && loss.Finite? then 1 else 0
    case CorrectGradient(j) => if j == i && loss.Finite? then 1 else 0
    case Update(r, j) =>
      if j == i && loss.Finite? && r in opts && (r == opts[0] || i > pretraining) then 1 else 0
    case _ => 0
  }

  /** How often a whole run over `losses` makes event `e`. */
  function ExpectedCount(e: Event, losses: seq<Loss>, opts: seq<Role>, pretraining: int): nat
  {
    if IsLoopEvent(e) && IterOf(e) < |losses| then
      CountAt(e, IterOf(e), losses[IterOf(e)], opts, pretraining)
    else 0
  }

  /** Number of `update()` calls on optimizer `r`. */
  function UpdateCount(events: seq<Event>, r: Role): nat
    decreases |events|
  {
    if events == [] then 0
    else UpdateCount(events[..|events| - 1], r) +
         (if events[|events| - 1].Update? && events[|events| - 1].role == r then 1 else 0)
  }

  /** Number of `zero_grad()` calls on optimizer `r`. */
  function ZeroGradCount(events: seq<Event>, r: Role): nat
    decreases |events|
  {
    if events == [] then 0
    else ZeroGradCount(events[..|events| - 1], r) +
         (if events[|events| - 1].ZeroGrad? && events[|events| - 1].role == r then 1 else 0)
  }

  /** Every occurrence of `a` comes before every occurrence of `b`. */
  predicate Before(s: seq<Event>, a: Event, b: Event)
  {
    forall p, q :: 0 <= p < |s| && 0 <= q < |s| && s[p] == a && s[q] == b ==> p < q
  }

  // ---------------------------------------------------------------- the loop as methods

  /** The body of the loop for iteration `i`, as the source runs it. */
  method RunIteration(i: nat, loss: Loss, opts: seq<Role>, pretraining: int)
    returns (events: seq<Event>, entries: seq<Entry>, failed: bool)
    ensures events == IterationEvents(i, loss, opts, pretraining)
    ensures entries == IterationEntries(loss, opts)
    ensures failed <==> loss.Finite? && opts == []
  {
    events, entries, failed := [ComputeLoss(i)], [], false;
    if loss.NonFinite? {
      events := events + [NumericalWarning(i)];
      entries := entries + [Plain(loss)];
      return;
    }
    for k := 0 to |opts|
      invariant events == [ComputeLoss(i)] + ZeroGrads(opts[..k], i)
    {
      assert opts[..k + 1][..k] == opts[..k];
      events := events + [ZeroGrad(opts[k], i)];
    }
    assert opts[..|opts|] == opts;
    events := events + [Backward(i), CorrectGradient(i)];
    assert events == Prepare(i, opts);
    if opts == [] {
      failed := true;
      return;
    }
    ghost var prepared := events;
    events := events + [Update(opts[0], i)];
    if i > pretraining {
      ghost var updated := events;
      for k := 1 to |opts|
        invariant events == updated + Updates(opts[1..k], i)
      {
        assert opts[1..k + 1][..k - 1] == opts[1..k];
        events := events + [Update(opts[k], i)];
      }
      assert opts[1..|opts|] == opts[1..];
    }
    assert events == prepared + Steps(i, opts, pretraining);
    entries := entries + [Flattened(loss), Plain(loss)];
  }

  /** The loop, written as the source runs it: it stops at the first IndexError. */
  method RunLoop(losses: seq<Loss>, opts: seq<Role>, pretraining: int)
    returns (events: seq<Event>, entries: seq<Entry>, failed: bool)
    ensures events == LoopEvents(losses, opts, pretraining)
    ensures entries == LoopEntries(losses, opts)
    ensures failed == LoopFails(losses, opts)
    ensures failed <==> opts == [] && |FiniteLosses(losses)| > 0
    ensures !failed ==> |entries| == |losses| + |FiniteLosses(losses)|
  {
    events, entries, failed := [], [], false;
    var i: nat := 0;
    while i < |losses| && !failed
      invariant i <= |losses|
      invariant events == LoopEvents(losses[..i], opts, pretraining)
      invariant entries == LoopEntries(losses[..i], opts)
      invariant failed == LoopFails(losses[..i], opts)
    {
      var stepEvents, stepEntries, stepFailed := RunIteration(i, losses[i], opts, pretraining);
      LoopStep(losses, i, opts, pretraining);
      events, entries, failed := events + stepEvents, entries + stepEntries, stepFailed;
      i := i + 1;
    }
    LoopOutcome(losses, i, opts, pretraining);
    LoopFailsIff(losses, opts);
    if !failed {
      LoopLossList(losses, opts);
    }
  }

  // ---------------------------------------------------------------- lemmas

  /** Where the loop stops, its calls, loss list and failure are those of the whole run. */
  lemma LoopOutcome(losses: seq<Loss>, i: nat, opts: seq<Role>, pretraining: int)
    requires i <= |losses| && (i == |losses| || LoopFails(losses[..i], opts))
    ensures LoopFails(losses[..i], opts) == LoopFails(losses, opts)
    ensures LoopEvents(losses[..i], opts, pretraining) == LoopEvents(losses, opts, pretraining)
    ensures LoopEntries(losses[..i], opts) == LoopEntries(losses, opts)
  {
    if i < |losses| {
      FailureIsFinal(losses, i, |losses|, opts, pretraining);
    }
    assert losses[..|losses|] == losses;
  }

  /** One more iteration of a loop that has not raised so far. */
  lemma LoopStep(losses: seq<Loss>, i: nat, opts: seq<Role>, pretraining: int)
    requires i < |losses| && !LoopFails(losses[..i], opts)
    ensures LoopFails(losses[..i + 1], opts) == IterationFails(losses[i], opts)
    ensures LoopEvents(losses[..i + 1], opts, pretraining) ==
            LoopEvents(losses[..i], opts, pretraining) + IterationEvents(i, losses[i], opts, pretraining)
    ensures LoopEntries(losses[..i + 1], opts) == LoopEntries(losses[..i], opts) + IterationEntries(losses[i], opts)
  {
    assert losses[..i + 1][..i] == losses[..i];
  }

  /** Once the IndexError is raised, later iterations change nothing. */
  lemma {:induction false} FailureIsFinal(losses: seq<Loss>, i: nat, n: nat, opts: seq<Role>, pretraining: int)
    requires i <= n <= |losses|
    requires LoopFails(losses[..i], opts)
    ensures LoopFails(losses[..n], opts)
    ensures LoopEvents(losses[..n], opts, pretraining) == LoopEvents(losses[..i], opts, pretraining)
    ensures LoopEntries(losses[..n], opts) == LoopEntries(losses[..i], opts)
    decreases n
  {
    if n > i {
      FailureIsFinal(losses, i, n - 1, opts, pretraining);
      assert losses[..n][..n - 1] == losses[..n - 1];
    }
  }

  /** The loop raises IndexError exactly when no optimizer was built and some loss is finite. */
  lemma {:induction false} LoopFailsIff(losses: seq<Loss>, opts: seq<Role>)
    ensures LoopFails(losses, opts) <==> opts == [] && |FiniteLosses(losses)| > 0
    decreases |losses|
  {
    if losses != [] {
      LoopFailsIff(losses[..|losses| - 1], opts);
    }
  }

  lemma {:induction false} PlainLossesConcat(a: seq<Entry>, b: seq<Entry>)
    ensures PlainLosses(a + b) == PlainLosses(a) + PlainLosses(b)
    decreases |b|
  {
    if b == [] {
      assert a + b == a;
    } else {
      assert (a + b)[..|a + b| - 1] == a + b[..|b| - 1];
      PlainLossesConcat(a, b[..|b| - 1]);
    }
  }

  lemma {:induction false} FlattenedLossesConcat(a: seq<Entry>, b: seq<Entry>)
    ensures FlattenedLosses(a + b) == FlattenedLosses(a) + FlattenedLosses(b)
    decreases |b|
  {
    if b == [] {
      assert a + b == a;
    } else {
      assert (a + b)[..|a + b| - 1] == a + b[..|b| - 1];
      FlattenedLossesConcat(a, b[..|b| - 1]);
    }
  }

  /** What one completed iteration appends to the loss list. */
  lemma IterationLosses(loss: Loss, opts: seq<Role>)
    requires !IterationFails(loss, opts)
    ensures var es := IterationEntries(loss, opts);
            PlainLosses(es) == [loss] &&
            FlattenedLosses(es) == (if loss.Finite? then [loss] else []) &&
            |es| == if loss.Finite? then 2 else 1
  {
    var es := IterationEntries(loss, opts);
    if loss.Finite? {
      var f := [Flattened(loss)];
      assert es == f + [Plain(loss)];
      assert es[..1] == f;
      assert f[..0] == [];
      assert PlainLosses(f) == [];
      assert FlattenedLosses(f) == [loss];
      assert PlainLosses(es) == PlainLosses(f) + [loss];
      assert FlattenedLosses(es) == FlattenedLosses(f);
    } else {
      assert es == [Plain(loss)];
      assert es[..0] == [];
      assert PlainLosses(es) == PlainLosses([]) + [loss];
      assert FlattenedLosses(es) == FlattenedLosses([]);
    }
  }

  /** Unfolding a loop that does not raise: its last iteration did not raise either. */
  lemma LoopEntriesStep(losses: seq<Loss>, opts: seq<Role>)
    requires losses != []
    requires !LoopFails(losses, opts)
    ensures !LoopFails(losses[..|losses| - 1], opts)
    ensures !IterationFails(losses[|losses| - 1], opts)
    ensures LoopEntries(losses, opts) == LoopEntries(losses[..|losses| - 1], opts) + IterationEntries(losses[|losses| - 1], opts)
  {
  }

  lemma InitAndLast(s: seq<Loss>)
    requires s != []
    ensures s[..|s| - 1] + [s[|s| - 1]] == s
  {
  }

  lemma {:induction false} LoopPlainLosses(losses: seq<Loss>, opts: seq<Role>)
    requires !LoopFails(losses, opts)
    ensures PlainLosses(LoopEntries(losses, opts)) == losses
    decreases |losses|
  {
    if losses != [] {
      var n := |losses| - 1;
      LoopEntriesStep(losses, opts);
      LoopPlainLosses(losses[..n], opts);
      IterationLosses(losses[n], opts);
      PlainLossesConcat(LoopEntries(losses[..n], opts), IterationEntries(losses[n], opts));
      InitAndLast(losses);
    }
  }

  lemma {:induction false} LoopFlattenedLosses(losses: seq<Loss>, opts: seq<Role>)
    requires !LoopFails(losses, opts)
    ensures FlattenedLosses(LoopEntries(losses, opts)) == FiniteLosses(losses)
    decreases |losses|
  {
    if losses != [] {
      var n := |losses| - 1;
      var init, last := losses[..n], losses[n];
      LoopEntriesStep(losses, opts);
      LoopFlattenedLosses(init, opts);
      IterationLosses(last, opts);
      FlattenedLossesConcat(LoopEntries(init, opts), IterationEntries(last, opts));
    }
  }

  /** Every entry is either plain or flattened. */
  lemma {:induction false} EntriesSplit(es: seq<Entry>)
    ensures |es| == |PlainLosses(es)| + |FlattenedLosses(es)|
    decreases |es|
  {
    if es != [] {
      EntriesSplit(es[..|es| - 1]);
    }
  }

  /** A completed loop leaves one plain entry per iteration, holding that iteration's loss,
      and one flattened entry per finite iteration; so the loss list is
      `len(losses) + #finite` long. */
  lemma LoopLossList(losses: seq<Loss>, opts: seq<Role>)
    requires !LoopFails(losses, opts)
    ensures PlainLosses(LoopEntries(losses, opts)) == losses
    ensures FlattenedLosses(LoopEntries(losses, opts)) == FiniteLosses(losses)
    ensures |LoopEntries(losses, opts)| == |losses| + |FiniteLosses(losses)|
  {
    LoopPlainLosses(losses, opts);
    LoopFlattenedLosses(losses, opts);
    EntriesSplit(LoopEntries(losses, opts));
  }

  /** Dropping the last role of a list without duplicates. */
  lemma NoDuplicatesInit(opts: seq<Role>)
    requires NoDuplicates(opts) && opts != []
    ensures NoDuplicates(opts[..|opts| - 1])
    ensures opts[|opts| - 1] !in opts[..|opts| - 1]
    ensures forall r :: r in opts <==> r in opts[..|opts| - 1] || r == opts[|opts| - 1]
  {
    var init := opts[..|opts| - 1];
    assert opts == init + [opts[|opts| - 1]];
    forall k | 0 <= k < |init| ensures init[k] != opts[|opts| - 1] {
      assert init[k] == opts[k];
    }
  }

  lemma MultisetSnoc(s: seq<Event>, x: Event, e: Event)
    ensures multiset(s + [x])[e] == multiset(s)[e] + (if x == e then 1 else 0)
  {
    assert multiset(s + [x]) == multiset(s) + multiset{x};
  }

  lemma ZeroGradsSnoc(opts: seq<Role>, i: nat)
    requires opts != []
    ensures ZeroGrads(opts, i) == ZeroGrads(opts[..|opts| - 1], i) + [ZeroGrad(opts[|opts| - 1], i)]
  {
  }

  lemma UpdatesSnoc(opts: seq<Role>, i: nat)
    requires opts != []
    ensures Updates(opts, i) == Updates(opts[..|opts| - 1], i) + [Update(opts[|opts| - 1], i)]
  {
  }

  lemma {:induction false} ZeroGradsCount(opts: seq<Role>, i: nat, e: Event)
    requires NoDuplicates(opts)
    ensures multiset(ZeroGrads(opts, i))[e] == if e.ZeroGrad? && e.iteration == i && e.role in opts then 1 else 0
    decreases |opts|
  {
    if opts != [] {
      var init, last := opts[..|opts| - 1], opts[|opts| - 1];
      NoDuplicatesInit(opts);
      ZeroGradsCount(init, i, e);
      ZeroGradsSnoc(opts, i);
      MultisetSnoc(ZeroGrads(init, i), ZeroGrad(last, i), e);
    }
  }

  lemma {:induction false} UpdatesCount(opts: seq<Role>, i: nat, e: Event)
    requires NoDuplicates(opts)
    ensures multiset(Updates(opts, i))[e] == if e.Update? && e.iteration == i && e.role in opts then 1 else 0
    decreases |opts|
  {
    if opts != [] {
      var init, last := opts[..|opts| - 1], opts[|opts| - 1];
      NoDuplicatesInit(opts);
      UpdatesCount(init, i, e);
      UpdatesSnoc(opts, i);
      MultisetSnoc(Updates(init, i), Update(last, i), e);
    }
  }

  lemma PrepareCount(i: nat, opts: seq<Role>, e: Event)
    requires NoDuplicates(opts)
    ensures multiset(Prepare(i, opts))[e] ==
            (if e == ComputeLoss(i) || e == Backward(i) || e == CorrectGradient(i) then 1 else 0) +
            (if e.ZeroGrad? && e.iteration == i && e.role in opts then 1 else 0)
  {
    ZeroGradsCount(opts, i, e);
  }

  /** Splitting off the first role of a list without duplicates. */
  lemma NoDuplicatesTail(opts: seq<Role>)
    requires NoDuplicates(opts) && opts != []
    ensures NoDuplicates(opts[1..])
    ensures opts[0] !in opts[1..]
    ensures forall r :: r in opts <==> r == opts[0] || r in opts[1..]
  {
    assert opts == [opts[0]] + opts[1..];
    forall k | 0 <= k < |opts[1..]| ensures opts[1..][k] != opts[0] {
      assert opts[1..][k] == opts[k + 1];
    }
  }

  lemma StepsCount(i: nat, opts: seq<Role>, pretraining: int, e: Event)
    requires NoDuplicates(opts)
    requires opts != []
    ensures multiset(Steps(i, opts, pretraining))[e] ==
            if e.Update? && e.iteration == i && e.role in opts && (e.role == opts[0] || i > pretraining)
            then 1 else 0
  {
    NoDuplicatesTail(opts);
    var rest := if i > pretraining then Updates(opts[1..], i) else [];
    assert Steps(i, opts, pretraining) == [Update(opts[0], i)] + rest;
    MultisetConcat([Update(opts[0], i)], rest, e);
    if i > pretraining {
      UpdatesCount(opts[1..], i, e);
    }
  }

  /** The calls of a finite iteration, counted per event. */
  lemma FinitePassCount(i: nat, loss: Loss, opts: seq<Role>, pretraining: int, e: Event)
    requires NoDuplicates(opts)
    requires loss.Finite? && opts != []
    ensures multiset(Prepare(i, opts) + Steps(i, opts, pretraining))[e] == CountAt(e, i, loss, opts, pretraining)
  {
    var pre, st := Prepare(i, opts), Steps(i, opts, pretraining);
    assert multiset(pre + st) == multiset(pre) + multiset(st);
    PrepareCount(i, opts, e);
    StepsCount(i, opts, pretraining, e);
  }

  /** One completed iteration makes each event as often as `CountAt` says. */
  lemma IterationCount(i: nat, loss: Loss, opts: seq<Role>, pretraining: int, e: Event)
    requires NoDuplicates(opts)
    requires !IterationFails(loss, opts)
    ensures multiset(IterationEvents(i, loss, opts, pretraining))[e] == CountAt(e, i, loss, opts, pretraining)
  {
    if loss.Finite? {
      FinitePassCount(i, loss, opts, pretraining, e);
    } else {
      assert multiset([ComputeLoss(i), NumericalWarning(i)]) == multiset{ComputeLoss(i), NumericalWarning(i)};
    }
  }

  /** Unfolding the calls of a loop that does not raise. */
  lemma LoopEventsStep(losses: seq<Loss>, opts: seq<Role>, pretraining: int)
    requires losses != []
    requires !LoopFails(losses, opts)
    ensures !LoopFails(losses[..|losses| - 1], opts)
    ensures !IterationFails(losses[|losses| - 1], opts)
    ensures LoopEvents(losses, opts, pretraining) ==
            LoopEvents(losses[..|losses| - 1], opts, pretraining) +
            IterationEvents(|losses| - 1, losses[|losses| - 1], opts, pretraining)
  {
  }

  /** Iteration `i` makes no event tagged with another iteration. */
  lemma CountAtOther(e: Event, i: nat, loss: Loss, opts: seq<Role>, pretraining: int)
    requires !IsLoopEvent(e) || IterOf(e) != i
    ensures CountAt(e, i, loss, opts, pretraining) == 0
  {
  }

  /** The expected counts of a loop, one iteration at a time. */
  lemma ExpectedCountStep(e: Event, losses: seq<Loss>, opts: seq<Role>, pretraining: int)
    requires losses != []
    ensures ExpectedCount(e, losses, opts, pretraining) ==
            ExpectedCount(e, losses[..|losses| - 1], opts, pretraining) +
            CountAt(e, |losses| - 1, losses[|losses| - 1], opts, pretraining)
  {
    var n := |losses| - 1;
    if IsLoopEvent(e) && IterOf(e) == n {
      assert ExpectedCount(e, losses[..n], opts, pretraining) == 0;
    } else {
      CountAtOther(e, n, losses[n], opts, pretraining);
      if IsLoopEvent(e) && IterOf(e) < n {
        assert losses[IterOf(e)] == losses[..n][IterOf(e)];
      }
    }
  }

  lemma MultisetConcat(a: seq<Event>, b: seq<Event>, e: Event)
    ensures multiset(a + b)[e] == multiset(a)[e] + multiset(b)[e]
  {
    assert multiset(a + b) == multiset(a) + multiset(b);
  }

  /** In a completed loop every event occurs exactly as often as the source's rules say:
      one loss computation per iteration, a warning only on a non-finite iteration, and on a
      finite one a zero_grad per optimizer, one backward, one correct_gradient, an update of
      the first optimizer and, past the pretraining threshold only, of each other one. */
  lemma {:induction false} LoopEventCounts(losses: seq<Loss>, opts: seq<Role>, pretraining: int, e: Event)
    requires NoDuplicates(opts)
    requires !LoopFails(losses, opts)
    ensures multiset(LoopEvents(losses, opts, pretraining))[e] == ExpectedCount(e, losses, opts, pretraining)
    decreases |losses|
  {
    if losses != [] {
      var n := |losses| - 1;
      var init := losses[..n];
      LoopEventsStep(losses, opts, pretraining);
      LoopEventCounts(init, opts, pretraining, e);
      IterationCount(n, losses[n], opts, pretraining, e);
      ExpectedCountStep(e, losses, opts, pretraining);
      MultisetConcat(LoopEvents(init, opts, pretraining), IterationEvents(n, losses[n], opts, pretraining), e);
    }
  }

  /** All events of `es` belong to iterations below `n`. */
  predicate TaggedBelow(es: seq<Event>, n: nat)
  {
    forall k :: 0 <= k < |es| ==> IsLoopEvent(es[k]) && IterOf(es[k]) < n
  }

  lemma {:induction false} ZeroGradsTagged(opts: seq<Role>, i: nat)
    ensures forall k :: 0 <= k < |ZeroGrads(opts, i)| ==> ZeroGrads(opts, i)[k] == ZeroGrad(opts[k], i)
    decreases |opts|
  {
    if opts != [] {
      ZeroGradsTagged(opts[..|opts| - 1], i);
    }
  }

  lemma {:induction false} UpdatesTagged(opts: seq<Role>, i: nat)
    ensures forall k :: 0 <= k < |Updates(opts, i)| ==> Updates(opts, i)[k] == Update(opts[k], i)
    decreases |opts|
  {
    if opts != [] {
      UpdatesTagged(opts[..|opts| - 1], i);
    }
  }

  /** Every event of `es` is a loop event of iteration `i`. */
  predicate AllAt(es: seq<Event>, i: nat)
  {
    forall k :: 0 <= k < |es| ==> IsLoopEvent(es[k]) && IterOf(es[k]) == i
  }

  lemma AllAtConcat(a: seq<Event>, b: seq<Event>, i: nat)
    requires AllAt(a, i) && AllAt(b, i)
    ensures AllAt(a + b, i)
  {
    assert forall k :: 0 <= k < |a| ==> (a + b)[k] == a[k];
    assert forall k :: |a| <= k < |a + b| ==> (a + b)[k] == b[k - |a|];
  }

  lemma PrepareAt(i: nat, opts: seq<Role>)
    ensures AllAt(Prepare(i, opts), i)
  {
    ZeroGradsTagged(opts, i);
    AllAtConcat([ComputeLoss(i)], ZeroGrads(opts, i), i);
    AllAtConcat([ComputeLoss(i)] + ZeroGrads(opts, i), [Backward(i), CorrectGradient(i)], i);
  }

  lemma StepsAt(i: nat, opts: seq<Role>, pretraining: int)
    requires opts != []
    ensures AllAt(Steps(i, opts, pretraining), i)
  {
    UpdatesTagged(opts[1..], i);
    var rest := if i > pretraining then Updates(opts[1..], i) else [];
    AllAtConcat([Update(opts[0], i)], rest, i);
  }

  /** Every event of one iteration is a loop event of that iteration, and only a finite
      loss lets a step event through. */
  lemma IterationEventsTagged(i: nat, loss: Loss, opts: seq<Role>, pretraining: int)
    ensures var es := IterationEvents(i, loss, opts, pretraining);
            forall k :: 0 <= k < |es| ==> IsLoopEvent(es[k]) && IterOf(es[k]) == i &&
                                          (IsStepEvent(es[k]) ==> loss.Finite?)
  {
    if loss.Finite? {
      PrepareAt(i, opts);
      if opts != [] {
        StepsAt(i, opts, pretraining);
        AllAtConcat(Prepare(i, opts), Steps(i, opts, pretraining), i);
      }
    }
  }

  /** Every step event of `es` belongs to an iteration whose loss is finite. */
  predicate StepsOnFinite(es: seq<Event>, losses: seq<Loss>)
  {
    forall k :: 0 <= k < |es| && IsStepEvent(es[k]) ==>
      IterOf(es[k]) < |losses| && losses[IterOf(es[k])].Finite?
  }

  /** No zero_grad, backward, correct_gradient or update happens on a non-finite iteration,
      and every loop event belongs to an iteration that was run (whether or not the loop
      raised). */
  lemma {:induction false} LoopStepsOnlyOnFinite(losses: seq<Loss>, opts: seq<Role>, pretraining: int)
    ensures TaggedBelow(LoopEvents(losses, opts, pretraining), |losses|)
    ensures StepsOnFinite(LoopEvents(losses, opts, pretraining), losses)
    decreases |losses|
  {
    if losses != [] {
      var n := |losses| - 1;
      var init := losses[..n];
      LoopStepsOnlyOnFinite(init, opts, pretraining);
      var done := LoopEvents(init, opts, pretraining);
      assert forall j :: 0 <= j < n ==> losses[j] == init[j];
      if LoopFails(init, opts) {
        assert LoopEvents(losses, opts, pretraining) == done;
      } else {
        var step := IterationEvents(n, losses[n], opts, pretraining);
        IterationEventsTagged(n, losses[n], opts, pretraining);
        var es := done + step;
        assert LoopEvents(losses, opts, pretraining) == es;
        forall k | 0 <= k < |es|
          ensures IsLoopEvent(es[k]) && IterOf(es[k]) < |losses|
          ensures IsStepEvent(es[k]) ==> losses[IterOf(es[k])].Finite?
        {
          if k < |done| {
            assert es[k] == done[k];
          } else {
            assert es[k] == step[k - |done|];
          }
        }
      }
    }
  }

  /** Events of earlier iterations come before events of later ones. */
  predicate InIterationOrder(es: seq<Event>)
  {
    forall p, q :: 0 <= p < q < |es| ==> IterOf(es[p]) <= IterOf(es[q])
  }

  /** The events of the loop come in iteration order. */
  lemma {:induction false} LoopInIterationOrder(losses: seq<Loss>, opts: seq<Role>, pretraining: int)
    ensures InIterationOrder(LoopEvents(losses, opts, pretraining))
    decreases |losses|
  {
    if losses != [] {
      var n := |losses| - 1;
      var init := losses[..n];
      LoopInIterationOrder(init, opts, pretraining);
      LoopStepsOnlyOnFinite(init, opts, pretraining);
      var done := LoopEvents(init, opts, pretraining);
      if LoopFails(init, opts) {
        assert LoopEvents(losses, opts, pretraining) == done;
      } else {
        var step := IterationEvents(n, losses[n], opts, pretraining);
        IterationEventsTagged(n, losses[n], opts, pretraining);
        var es := done + step;
        assert LoopEvents(losses, opts, pretraining) == es;
        forall p, q | 0 <= p < q < |es| ensures IterOf(es[p]) <= IterOf(es[q]) {
          if q < |done| {
            assert es[p] == done[p] && es[q] == done[q];
          } else if p < |done| {
            assert es[p] == done[p] && es[q] == step[q - |done|];
            assert IterOf(done[p]) < n;
          } else {
            assert es[p] == step[p - |done|] && es[q] == step[q - |done|];
          }
        }
      }
    }
  }

  lemma BeforeInside(s1: seq<Event>, s: seq<Event>, s2: seq<Event>, a: Event, b: Event)
    requires Before(s, a, b)
    requires a !in s1 && b !in s1 && a !in s2 && b !in s2
    ensures Before(s1 + s + s2, a, b)
  {
    assert forall k :: 0 <= k < |s1| ==> s1[k] != a && s1[k] != b;
    assert forall k :: 0 <= k < |s2| ==> s2[k] != a && s2[k] != b;
    var t := s1 + s + s2;
    forall p, q | 0 <= p < |t| && 0 <= q < |t| && t[p] == a && t[q] == b ensures p < q {
      assert |s1| <= p < |s1| + |s| && |s1| <= q < |s1| + |s|;
      assert s[p - |s1|] == a && s[q - |s1|] == b;
    }
  }

  /** Where each call sits in a finite iteration with at least one optimizer. */
  lemma IterationLayout(i: nat, loss: Loss, opts: seq<Role>, pretraining: int)
    requires loss.Finite? && opts != []
    ensures var es := IterationEvents(i, loss, opts, pretraining);
            var z := |opts|;
            |es| == z + 3 + (if i > pretraining then z else 1) &&
            es[0] == ComputeLoss(i) &&
            (forall k :: 1 <= k <= z ==> es[k] == ZeroGrad(opts[k - 1], i)) &&
            es[z + 1] == Backward(i) && es[z + 2] == CorrectGradient(i) &&
            es[z + 3] == Update(opts[0], i) &&
            (forall k :: z + 4 <= k < |es| ==> es[k] == Update(opts[k - z - 3], i))
  {
    var pre := Prepare(i, opts);
    var st := Steps(i, opts, pretraining);
    PrepareLayout(i, opts);
    StepsLayout(i, opts, pretraining);
    var es := pre + st;
    assert IterationEvents(i, loss, opts, pretraining) == es;
    assert forall k :: 0 <= k < |pre| ==> es[k] == pre[k];
    assert forall k :: |pre| <= k < |es| ==> es[k] == st[k - |pre|];
  }

  lemma PrepareLayout(i: nat, opts: seq<Role>)
    ensures var es := Prepare(i, opts);
            var z := |opts|;
            |es| == z + 3 && es[0] == ComputeLoss(i) &&
            (forall k :: 1 <= k <= z ==> es[k] == ZeroGrad(opts[k - 1], i)) &&
            es[z + 1] == Backward(i) && es[z + 2] == CorrectGradient(i)
  {
    ZeroGradsTagged(opts, i);
    var es := Prepare(i, opts);
    assert forall k :: 1 <= k <= |opts| ==> es[k] == ZeroGrads(opts, i)[k - 1];
  }

  lemma StepsLayout(i: nat, opts: seq<Role>, pretraining: int)
    requires opts != []
    ensures var es := Steps(i, opts, pretraining);
            |es| == (if i > pretraining then |opts| else 1) && es[0] == Update(opts[0], i) &&
            (forall k :: 1 <= k < |es| ==> es[k] == Update(opts[k], i))
  {
    UpdatesTagged(opts[1..], i);
    var es := Steps(i, opts, pretraining);
    assert forall k :: 1 <= k < |es| ==> es[k] == Updates(opts[1..], i)[k - 1];
  }

  /** The order of the calls, read off their positions in a finite iteration. */
  lemma LayoutOrder(es: seq<Event>, i: nat, opts: seq<Role>, steps: bool, r: Role)
    requires NoDuplicates(opts)
    requires r in opts
    requires |es| == |opts| + 3 + (if steps then |opts| else 1)
    requires es[0] == ComputeLoss(i)
    requires forall j :: 1 <= j <= |opts| ==> es[j] == ZeroGrad(opts[j - 1], i)
    requires es[|opts| + 1] == Backward(i) && es[|opts| + 2] == CorrectGradient(i)
    requires es[|opts| + 3] == Update(opts[0], i)
    requires forall j :: |opts| + 4 <= j < |es| ==> es[j] == Update(opts[j - |opts| - 3], i)
    ensures Before(es, ComputeLoss(i), ZeroGrad(r, i))
    ensures Before(es, ZeroGrad(r, i), Backward(i))
    ensures Before(es, Backward(i), CorrectGradient(i))
    ensures Before(es, CorrectGradient(i), Update(opts[0], i))
    ensures forall k :: 0 < k < |opts| ==> Before(es, Update(opts[0], i), Update(opts[k], i))
  {
    var z := |opts|;
    forall q | z + 4 <= q < |es| ensures es[q] != Update(opts[0], i) {
      assert opts[q - z - 3] != opts[0];
    }
    forall p | 0 <= p < |es| && es[p] == ZeroGrad(r, i) ensures 1 <= p <= z {
    }
    forall p | 0 <= p < |es| && es[p] == Update(opts[0], i) ensures p == z + 3 {
    }
    forall k | 0 < k < |opts| ensures Before(es, Update(opts[0], i), Update(opts[k], i)) {
      forall p | 0 <= p < |es| && es[p] == Update(opts[k], i) ensures p >= z + 4 {
        assert opts[0] != opts[k];
      }
    }
  }

  /** Within a finite iteration: the loss is computed, then every optimizer is zeroed, then
      backward, then correct_gradient, then the first optimizer is updated, then the rest. */
  lemma IterationOrder(i: nat, loss: Loss, opts: seq<Role>, pretraining: int, r: Role)
    requires NoDuplicates(opts)
    requires r in opts
    ensures var es := IterationEvents(i, loss, opts, pretraining);
            Before(es, ComputeLoss(i), ZeroGrad(r, i)) &&
            Before(es, ZeroGrad(r, i), Backward(i)) &&
            Before(es, Backward(i), CorrectGradient(i)) &&
            Before(es, CorrectGradient(i), Update(opts[0], i)) &&
            (forall k :: 0 < k < |opts| ==> Before(es, Update(opts[0], i), Update(opts[k], i)))
  {
    var es := IterationEvents(i, loss, opts, pretraining);
    if loss.Finite? {
      IterationLayout(i, loss, opts, pretraining);
      LayoutOrder(es, i, opts, i > pretraining, r);
    } else {
      assert es == [ComputeLoss(i), NumericalWarning(i)];
    }
  }

  /** The order within the last iteration holds in the whole loop: earlier iterations
      make none of its events. */
  lemma LastIterationKeepsOrder(losses: seq<Loss>, opts: seq<Role>, pretraining: int, a: Event, b: Event)
    requires losses != []
    requires IsLoopEvent(a) && IsLoopEvent(b) && IterOf(a) == |losses| - 1 && IterOf(b) == |losses| - 1
    requires Before(IterationEvents(|losses| - 1, losses[|losses| - 1], opts, pretraining), a, b)
    ensures Before(LoopEvents(losses, opts, pretraining), a, b)
  {
    var n := |losses| - 1;
    var init := losses[..n];
    var done := LoopEvents(init, opts, pretraining);
    LoopStepsOnlyOnFinite(init, opts, pretraining);
    assert forall k :: 0 <= k < |done| ==> IterOf(done[k]) < n;
    assert a !in done && b !in done;
    if !LoopFails(init, opts) {
      var step := IterationEvents(n, losses[n], opts, pretraining);
      BeforeInside(done, step, [], a, b);
      assert done + step + [] == done + step;
    }
  }

  /** Iteration `i`'s order holds in the whole loop: other iterations' events never
      interleave with it. */
  lemma {:induction false} LoopKeepsIterationOrder(losses: seq<Loss>, opts: seq<Role>, pretraining: int,
                                                   i: nat, a: Event, b: Event)
    requires i < |losses|
    requires IsLoopEvent(a) && IsLoopEvent(b) && IterOf(a) == i && IterOf(b) == i
    requires Before(IterationEvents(i, losses[i], opts, pretraining), a, b)
    ensures Before(LoopEvents(losses, opts, pretraining), a, b)
    decreases |losses|
  {
    var n := |losses| - 1;
    if i == n {
      LastIterationKeepsOrder(losses, opts, pretraining, a, b);
    } else {
      var init := losses[..n];
      assert losses[i] == init[i];
      LoopKeepsIterationOrder(init, opts, pretraining, i, a, b);
      LoopEventsUnfold(losses, opts, pretraining);
      if !LoopFails(init, opts) {
        IterationEventsTagged(n, losses[n], opts, pretraining);
        BeforeAppend(LoopEvents(init, opts, pretraining), IterationEvents(n, losses[n], opts, pretraining), a, b);
      }
    }
  }

  /** Unfolding the calls of a loop by its last iteration. */
  lemma LoopEventsUnfold(losses: seq<Loss>, opts: seq<Role>, pretraining: int)
    requires losses != []
    ensures LoopEvents(losses, opts, pretraining) ==
            if LoopFails(losses[..|losses| - 1], opts) then LoopEvents(losses[..|losses| - 1], opts, pretraining)
            else LoopEvents(losses[..|losses| - 1], opts, pretraining) +
                 IterationEvents(|losses| - 1, losses[|losses| - 1], opts, pretraining)
  {
  }

  lemma BeforeAppend(s: seq<Event>, t: seq<Event>, a: Event, b: Event)
    requires Before(s, a, b)
    requires forall k :: 0 <= k < |t| ==> t[k] != a && t[k] != b
    ensures Before(s + t, a, b)
  {
    var u := s + t;
    assert forall k :: 0 <= k < |s| ==> u[k] == s[k];
    assert forall k :: |s| <= k < |u| ==> u[k] == t[k - |s|];
  }

  /** On every finite iteration of the loop, the calls come in the source's order. */
  lemma FiniteIterationOrder(losses: seq<Loss>, opts: seq<Role>, pretraining: int, i: nat, r: Role)
    requires NoDuplicates(opts)
    requires i < |losses|
    requires r in opts
    ensures var es := LoopEvents(losses, opts, pretraining);
            Before(es, ComputeLoss(i), ZeroGrad(r, i)) &&
            Before(es, ZeroGrad(r, i), Backward(i)) &&
            Before(es, Backward(i), CorrectGradient(i)) &&
            Before(es, CorrectGradient(i), Update(opts[0], i)) &&
            (forall k :: 0 < k < |opts| ==> Before(es, Update(opts[0], i), Update(opts[k], i)))
  {
    IterationOrder(i, losses[i], opts, pretraining, r);
    LoopKeepsIterationOrder(losses, opts, pretraining, i, ComputeLoss(i), ZeroGrad(r, i));
    LoopKeepsIterationOrder(losses, opts, pretraining, i, ZeroGrad(r, i), Backward(i));
    LoopKeepsIterationOrder(losses, opts, pretraining, i, Backward(i), CorrectGradient(i));
    LoopKeepsIterationOrder(losses, opts, pretraining, i, CorrectGradient(i), Update(opts[0], i));
    forall k | 0 < k < |opts|
      ensures Before(LoopEvents(losses, opts, pretraining), Update(opts[0], i), Update(opts[k], i))
    {
      LoopKeepsIterationOrder(losses, opts, pretraining, i, Update(opts[0], i), Update(opts[k], i));
    }
  }

  // ---------------------------------------------------------------- step counters

  lemma {:induction false} UpdateCountConcat(a: seq<Event>, b: seq<Event>, r: Role)
    ensures UpdateCount(a + b, r) == UpdateCount(a, r) + UpdateCount(b, r)
    decreases |b|
  {
    if b == [] {
      assert a + b == a;
    } else {
      assert (a + b)[..|a + b| - 1] == a + b[..|b| - 1];
      UpdateCountConcat(a, b[..|b| - 1], r);
    }
  }

  lemma {:induction false} ZeroGradCountConcat(a: seq<Event>, b: seq<Event>, r: Role)
    ensures ZeroGradCount(a + b, r) == ZeroGradCount(a, r) + ZeroGradCount(b, r)
    decreases |b|
  {
    if b == [] {
      assert a + b == a;
    } else {
      assert (a + b)[..|a + b| - 1] == a + b[..|b| - 1];
      ZeroGradCountConcat(a, b[..|b| - 1], r);
    }
  }

  lemma {:induction false} ZeroGradsRoleCount(opts: seq<Role>, i: nat, r: Role)
    requires NoDuplicates(opts)
    ensures ZeroGradCount(ZeroGrads(opts, i), r) == (if r in opts then 1 else 0)
    ensures UpdateCount(ZeroGrads(opts, i), r) == 0
    decreases |opts|
  {
    if opts != [] {
      var init := opts[..|opts| - 1];
      ZeroGradsRoleCount(init, i, r);
      assert opts == init + [opts[|opts| - 1]];
      assert opts[|opts| - 1] !in init;
    }
  }

  lemma {:induction false} UpdatesRoleCount(opts: seq<Role>, i: nat, r: Role)
    requires NoDuplicates(opts)
    ensures UpdateCount(Updates(opts, i), r) == (if r in opts then 1 else 0)
    ensures ZeroGradCount(Updates(opts, i), r) == 0
    decreases |opts|
  {
    if opts != [] {
      var init := opts[..|opts| - 1];
      UpdatesRoleCount(init, i, r);
      assert opts == init + [opts[|opts| - 1]];
      assert opts[|opts| - 1] !in init;
    }
  }

  lemma SingleCounts(e: Event, r: Role)
    ensures UpdateCount([e], r) == (if e.Update? && e.role == r then 1 else 0)
    ensures ZeroGradCount([e], r) == (if e.ZeroGrad? && e.role == r then 1 else 0)
  {
    assert [e][..0] == [];
  }

  lemma PrepareRoleCount(i: nat, opts: seq<Role>, r: Role)
    requires NoDuplicates(opts)
    ensures ZeroGradCount(Prepare(i, opts), r) == (if r in opts then 1 else 0)
    ensures UpdateCount(Prepare(i, opts), r) == 0
  {
    var cl, zs, bc := [ComputeLoss(i)], ZeroGrads(opts, i), [Backward(i), CorrectGradient(i)];
    ZeroGradsRoleCount(opts, i, r);
    SingleCounts(ComputeLoss(i), r);
    SingleCounts(Backward(i), r);
    SingleCounts(CorrectGradient(i), r);
    assert bc == [Backward(i)] + [CorrectGradient(i)];
    UpdateCountConcat([Backward(i)], [CorrectGradient(i)], r);
    ZeroGradCountConcat([Backward(i)], [CorrectGradient(i)], r);
    UpdateCountConcat(cl + zs, bc, r);
    UpdateCountConcat(cl, zs, r);
    ZeroGradCountConcat(cl + zs, bc, r);
    ZeroGradCountConcat(cl, zs, r);
  }

  lemma StepsRoleCount(i: nat, opts: seq<Role>, pretraining: int, k: nat)
    requires NoDuplicates(opts)
    requires k < |opts|
    ensures ZeroGradCount(Steps(i, opts, pretraining), opts[k]) == 0
    ensures UpdateCount(Steps(i, opts, pretraining), opts[k]) == (if k == 0 || i > pretraining then 1 else 0)
  {
    var r := opts[k];
    var us := if i > pretraining then Updates(opts[1..], i) else [];
    assert NoDuplicates(opts[1..]);
    UpdatesRoleCount(opts[1..], i, r);
    SingleCounts(Update(opts[0], i), r);
    UpdateCountConcat([Update(opts[0], i)], us, r);
    ZeroGradCountConcat([Update(opts[0], i)], us, r);
    assert r in opts[1..] <==> k > 0 by {
      if k > 0 {
        assert opts[1..][k - 1] == r;
      }
      if r in opts[1..] {
        var j :| 0 <= j < |opts[1..]| && opts[1..][j] == r;
        assert opts[j + 1] == r;
      }
    }
    assert opts[0] == r <==> k == 0;
  }

  lemma IterationStepCounts(i: nat, loss: Loss, opts: seq<Role>, pretraining: int, k: nat)
    requires NoDuplicates(opts)
    requires k < |opts|
    ensures var es := IterationEvents(i, loss, opts, pretraining);
            ZeroGradCount(es, opts[k]) == (if loss.Finite? then 1 else 0) &&
            UpdateCount(es, opts[k]) == (if loss.Finite? && (k == 0 || i > pretraining) then 1 else 0)
  {
    var r := opts[k];
    if loss.NonFinite? {
      SingleCounts(ComputeLoss(i), r);
      SingleCounts(NumericalWarning(i), r);
      UpdateCountConcat([ComputeLoss(i)], [NumericalWarning(i)], r);
      ZeroGradCountConcat([ComputeLoss(i)], [NumericalWarning(i)], r);
      assert [ComputeLoss(i), NumericalWarning(i)] == [ComputeLoss(i)] + [NumericalWarning(i)];
    } else {
      PrepareRoleCount(i, opts, r);
      StepsRoleCount(i, opts, pretraining, k);
      UpdateCountConcat(Prepare(i, opts), Steps(i, opts, pretraining), r);
      ZeroGradCountConcat(Prepare(i, opts), Steps(i, opts, pretraining), r);
    }
  }

  /** Over a completed loop, optimizer `opts[0]` is updated once per finite loss, every
      other optimizer once per finite loss past the pretraining threshold, and every
      optimizer is zeroed once per finite loss. */
  lemma {:induction false} LoopStepCounts(losses: seq<Loss>, opts: seq<Role>, pretraining: int, k: nat)
    requires NoDuplicates(opts)
    requires k < |opts|
    ensures var es := LoopEvents(losses, opts, pretraining);
            ZeroGradCount(es, opts[k]) == |FiniteLosses(losses)| &&
            UpdateCount(es, opts[k]) == if k == 0 then |FiniteLosses(losses)| else FiniteAfter(losses, pretraining)
    decreases |losses|
  {
    if losses != [] {
      var n := |losses| - 1;
      var init := losses[..n];
      LoopStepCounts(init, opts, pretraining, k);
      var done := LoopEvents(init, opts, pretraining);
      var step := IterationEvents(n, losses[n], opts, pretraining);
      LoopFailsIff(init, opts);
      UpdateCountConcat(done, step, opts[k]);
      ZeroGradCountConcat(done, step, opts[k]);
      IterationStepCounts(n, losses[n], opts, pretraining, k);
    }
  }
}
