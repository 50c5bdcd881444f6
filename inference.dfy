/** `perform_inference` of brancher/inference.py: how it resolves the inference method,
    the posterior and the sampler, which optimizers it builds, the training loop, and the
    hooks it calls afterwards. `Run` states the whole call on values; `PerformInference`
    runs it step by step on a `JointModel` object. */
module Inference {
  import opened ModelTypes
  import opened Strategies
  import opened TrainingLoop

  /** What perform_inference reads of the joint model: its variables (for MAP's automatic
      posterior), its posterior slot, and its `posterior_sampler` attribute (None where the
      attribute does not exist). */
  datatype JointView = JointView(variables: seq<Variable>, attachedPosterior: ModelValue,
                                 posteriorSampler: Option<ModelValue>)

  /** The arguments of one call. `losses` holds the value `compute_loss` returns on each
      iteration, one per iteration; `nonEmpty` holds the roles for which
      `ProbabilisticOptimizer` ends up with a non-empty `optimizer`. */
  datatype Call = Call(strategy: Option<Strategy>, posterior: ModelValue, sampler: ModelValue,
                       pretraining: int, losses: seq<Loss>, nonEmpty: set<Role>)

  /** What one call does: the calls and warnings it makes, the exception that escapes it
      (None when it returns), the loss curve it writes to the diagnostics (None when it
      raises before), and the joint model's posterior slot afterwards. */
  datatype Outcome = Outcome(events: seq<Event>, error: Option<Failure>,
                             lossCurve: Option<seq<Entry>>, posteriorSlot: ModelValue)

  /** The diagnostics key the loss curve is stored under. */
  const LossCurveKey: string := "loss curve"

  // ---------------------------------------------------------------- resolution

  /** A missing inference method becomes ReverseKL. */
  function MethodOf(c: Call): (s: Strategy)
    ensures s.ReverseKL? <==> c.strategy.None? || c.strategy == Some(ReverseKL)
    ensures c.strategy.Some? ==> s == c.strategy.value
  {
    if c.strategy.None? then ReverseKL else c.strategy.value
  }

  /** The posterior: the argument, else the joint model's, else the constructed one. */
  function PosteriorOf(j: JointView, c: Call): (r: Result<ModelValue>)
    ensures !c.posterior.NoModel? ==> r == Ok(c.posterior)
    ensures c.posterior.NoModel? && !j.attachedPosterior.NoModel? ==> r == Ok(j.attachedPosterior)
    ensures r.Err? ==> NeedsConstruction(j, c) &&
                       (r.error == LatentStructureUnknown || r.error == ConstructionNotImplemented)
    ensures r.Ok? && r.value.NoModel? ==> NeedsConstruction(j, c) && MethodOf(c).MaximumLikelihood?
  {
    if !c.posterior.NoModel? then Ok(c.posterior)
    else if !j.attachedPosterior.NoModel? then Ok(j.attachedPosterior)
    else ConstructPosterior(MethodOf(c), j.variables)
  }

  /** The sampler: a truthy argument, else the method's `sampler_model`, else the joint
      model's `posterior_sampler`, else None. */
  function SamplerOf(j: JointView, c: Call): (r: ModelValue)
    ensures !Falsy(c.sampler) ==> r == c.sampler
    ensures Falsy(c.sampler) && MethodOf(c).Wasserstein? ==>
              r == Many(TruncatedSamplers(MethodOf(c).variationalSamplers, |MethodOf(c).particles|))
    ensures Falsy(c.sampler) && !MethodOf(c).Wasserstein? ==>
              r == if j.posteriorSampler.Some? then j.posteriorSampler.value else NoModel
  {
    if !Falsy(c.sampler) then c.sampler
    else match SamplerAttribute(MethodOf(c))
      case Some(v) => v
      case None => if j.posteriorSampler.Some? then j.posteriorSampler.value else NoModel
  }

  /** Whether `construct_posterior_model` is called. */
  predicate NeedsConstruction(j: JointView, c: Call)
  {
    c.posterior.NoModel? && j.attachedPosterior.NoModel?
  }

  // ---------------------------------------------------------------- optimizers

  /** The position of a role in the order the roles are tried. */
  function Rank(r: Role): nat
  {
    match r
    case PosteriorRole => 0
    case JointRole => 1
    case SamplerRole => 2
  }

  /** The roles for which a `ProbabilisticOptimizer` is built, in order. */
  function TriedRoles(f: Flags): (rs: seq<Role>)
    ensures forall r :: r in rs <==> Learnable(f, r)
    ensures forall p, q :: 0 <= p < q < |rs| ==> Rank(rs[p]) < Rank(rs[q])
  {
    (if f.learnablePosterior then [PosteriorRole] else []) +
    (if f.learnableModel then [JointRole] else []) +
    (if f.learnableSampler then [SamplerRole] else [])
  }

  /** `optimizers_list` after the three `append_prob_optimizer` calls. */
  function BuildOptimizers(f: Flags, nonEmpty: set<Role>): (opts: seq<Role>)
    ensures forall r :: r in opts <==> Learnable(f, r) && r in nonEmpty
    ensures forall p, q :: 0 <= p < q < |opts| ==> Rank(opts[p]) < Rank(opts[q])
    ensures NoDuplicates(opts)
  {
    var p := if f.learnablePosterior && PosteriorRole in nonEmpty then [PosteriorRole] else [];
    var j := if f.learnableModel && JointRole in nonEmpty then [JointRole] else [];
    var s := if f.learnableSampler && SamplerRole in nonEmpty then [SamplerRole] else [];
    ThreeSlots(f, nonEmpty, p, j, s);
    p + j + s
  }

  /** At most one role per slot, in rank order, makes an ordered list without duplicates. */
  lemma ThreeSlots(f: Flags, nonEmpty: set<Role>, p: seq<Role>, j: seq<Role>, s: seq<Role>)
    requires p == if f.learnablePosterior && PosteriorRole in nonEmpty then [PosteriorRole] else []
    requires j == if f.learnableModel && JointRole in nonEmpty then [JointRole] else []
    requires s == if f.learnableSampler && SamplerRole in nonEmpty then [SamplerRole] else []
    ensures forall r :: r in p + j + s <==> Learnable(f, r) && r in nonEmpty
    ensures forall a, b :: 0 <= a < b < |p + j + s| ==> Rank((p + j + s)[a]) < Rank((p + j + s)[b])
    ensures NoDuplicates(p + j + s)
  {
    var es := p + j + s;
    forall r ensures r in es <==> Learnable(f, r) && r in nonEmpty {
      assert r in es <==> r in p || r in j || r in s;
      match r
      case PosteriorRole =>
      case JointRole =>
      case SamplerRole =>
    }
    forall a, b | 0 <= a < b < |es| ensures Rank(es[a]) < Rank(es[b]) {
      assert es[a] in es && es[b] in es;
    }
  }

  /** The optimizer list of a call. */
  function OptimizersOf(c: Call): seq<Role>
  {
    BuildOptimizers(FlagsOf(MethodOf(c)), c.nonEmpty)
  }

  /** The `ProbabilisticOptimizer` constructions, one per tried role. */
  function OptimizerEvents(f: Flags): (es: seq<Event>)
    ensures |es| == |TriedRoles(f)|
    ensures forall k :: 0 <= k < |es| ==> es[k] == MakeOptimizer(TriedRoles(f)[k])
  {
    (if f.learnablePosterior then [MakeOptimizer(PosteriorRole)] else []) +
    (if f.learnableModel then [MakeOptimizer(JointRole)] else []) +
    (if f.learnableSampler then [MakeOptimizer(SamplerRole)] else [])
  }

  // ---------------------------------------------------------------- the whole call

  /** The events up to and including `construct_posterior_model`. */
  function PreludeEvents(j: JointView, c: Call): seq<Event>
  {
    (if c.strategy.None? then [DefaultMethodWarning] else []) +
    (if NeedsConstruction(j, c) then [ConstructPosteriorModel] else [])
  }

  /** The events up to and including `check_model_compatibility`. */
  function SetupEvents(j: JointView, c: Call): seq<Event>
  {
    PreludeEvents(j, c) + [UpdateObservedSubmodel] + OptimizerEvents(FlagsOf(MethodOf(c))) +
    [CheckModelCompatibility]
  }

  /** No event of `es` is made inside the loop body. */
  predicate OutsideLoop(es: seq<Event>)
  {
    forall k :: 0 <= k < |es| ==> !IsLoopEvent(es[k])
  }

  /** Whether the call reaches the loop: the posterior resolves and the check passes. */
  predicate ReachesLoop(j: JointView, c: Call)
  {
    PosteriorOf(j, c).Ok? &&
    CheckCompatibility(MethodOf(c), PosteriorOf(j, c).value, SamplerOf(j, c)).None?
  }

  /** Whether `set_posterior_model_after_inference` is called once the loop is done. */
  predicate InstallsPosterior(j: JointView, c: Call)
  {
    j.attachedPosterior.NoModel? && FlagsOf(MethodOf(c)).learnablePosterior
  }

  /** The loop and the hooks after it, once the check has passed; `attached` is the joint
      model's posterior slot. */
  function Train(s: Strategy, attached: ModelValue, posterior: ModelValue, sampler: ModelValue,
                 opts: seq<Role>, losses: seq<Loss>, pretraining: int): (t: Outcome)
    ensures LoopEvents(losses, opts, pretraining) <= t.events
    ensures t.lossCurve.Some? <==> !LoopFails(losses, opts)
    ensures t.lossCurve.Some? ==> t.lossCurve.value == LoopEntries(losses, opts)
    ensures t.error == Some(NoOptimizer) <==> LoopFails(losses, opts)
    ensures t.posteriorSlot != attached ==> attached.NoModel? && t.error.None? && t.lossCurve.Some?
  {
    var trained := LoopEvents(losses, opts, pretraining);
    if LoopFails(losses, opts) then Outcome(trained, Some(NoOptimizer), None, attached)
    else
      var curve := Some(LoopEntries(losses, opts));
      var finished := trained + [WriteLossCurve, PostProcess];
      if !(attached.NoModel? && FlagsOf(s).learnablePosterior) then Outcome(finished, None, curve, attached)
      else
        match SetPosteriorAfterInference(s, posterior, sampler)
        case Ok(p) => Outcome(finished + [SetPosteriorModelAfterInference], None, curve, p)
        case Err(e) => Outcome(finished + [SetPosteriorModelAfterInference], Some(e), curve, attached)
  }

  /** `perform_inference(joint_model, len(c.losses), ...)` on values. */
  function Run(j: JointView, c: Call): (o: Outcome)
    ensures PreludeEvents(j, c) <= o.events
    ensures o.error.None? ==> o.lossCurve.Some?
    ensures o.lossCurve.None? ==> o.posteriorSlot == j.attachedPosterior
  {
    var s := MethodOf(c);
    match PosteriorOf(j, c)
    case Err(e) => Outcome(PreludeEvents(j, c), Some(e), None, j.attachedPosterior)
    case Ok(posterior) =>
      var sampler := SamplerOf(j, c);
      match CheckCompatibility(s, posterior, sampler)
      case Some(e) => Outcome(SetupEvents(j, c), Some(e), None, j.attachedPosterior)
      case None =>
        var t := Train(s, j.attachedPosterior, posterior, sampler, OptimizersOf(c), c.losses, c.pretraining);
        Outcome(SetupEvents(j, c) + t.events, t.error, t.lossCurve, t.posteriorSlot)
  }

  // ---------------------------------------------------------------- the joint model object

  /** The joint model object, as far as perform_inference reads and writes it. */
  class JointModel {
    const variables: seq<Variable>
    const posteriorSampler: Option<ModelValue>
    var posteriorModel: ModelValue
    var diagnostics: map<string, seq<Entry>>

    constructor(variables: seq<Variable>, posteriorModel: ModelValue, posteriorSampler: Option<ModelValue>)
      ensures this.variables == variables && this.posteriorModel == posteriorModel
      ensures this.posteriorSampler == posteriorSampler && diagnostics == map[]
    {
      this.variables := variables;
      this.posteriorModel := posteriorModel;
      this.posteriorSampler := posteriorSampler;
      diagnostics := map[];
    }

    function View(): JointView
      reads this
    {
      JointView(variables, posteriorModel, posteriorSampler)
    }
  }

  /** The three guarded `append_prob_optimizer` calls: an optimizer is built for each
      learnable role and kept when it is non-empty. */
  method MakeOptimizers(flags: Flags, nonEmpty: set<Role>) returns (events: seq<Event>, optimizers: seq<Role>)
    ensures events == OptimizerEvents(flags)
    ensures optimizers == BuildOptimizers(flags, nonEmpty)
  {
    ghost var p := if flags.learnablePosterior && PosteriorRole in nonEmpty then [PosteriorRole] else [];
    ghost var j := if flags.learnableModel && JointRole in nonEmpty then [JointRole] else [];
    ghost var s := if flags.learnableSampler && SamplerRole in nonEmpty then [SamplerRole] else [];
    ghost var ep := if flags.learnablePosterior then [MakeOptimizer(PosteriorRole)] else [];
    ghost var ej := if flags.learnableModel then [MakeOptimizer(JointRole)] else [];
    ghost var es := if flags.learnableSampler then [MakeOptimizer(SamplerRole)] else [];
    events, optimizers := [], [];
    if flags.learnablePosterior {
      events := events + [MakeOptimizer(PosteriorRole)];
      if PosteriorRole in nonEmpty {
        optimizers := optimizers + [PosteriorRole];
      }
    }
    assert events == ep && optimizers == p;
    if flags.learnableModel {
      events := events + [MakeOptimizer(JointRole)];
      if JointRole in nonEmpty {
        optimizers := optimizers + [JointRole];
      }
    }
    assert events == ep + ej && optimizers == p + j;
    if flags.learnableSampler {
      events := events + [MakeOptimizer(SamplerRole)];
      if SamplerRole in nonEmpty {
        optimizers := optimizers + [SamplerRole];
      }
    }
    assert events == ep + ej + es && optimizers == p + j + s;
  }

  /** The loop and the hooks after it, on the joint model object. */
  method TrainAndInstall(joint: JointModel, strategy: Strategy, posterior: ModelValue, sampler: ModelValue,
                         optimizers: seq<Role>, losses: seq<Loss>, pretraining: int)
    returns (events: seq<Event>, error: Option<Failure>)
    modifies joint
    ensures var o := Train(strategy, old(joint.posteriorModel), posterior, sampler, optimizers, losses, pretraining);
            events == o.events && error == o.error && joint.posteriorModel == o.posteriorSlot &&
            joint.diagnostics == (if o.lossCurve.Some? then old(joint.diagnostics)[LossCurveKey := o.lossCurve.value]
                                  else old(joint.diagnostics))
  {
    var lossList, failed;
    events, lossList, failed := RunLoop(losses, optimizers, pretraining);
    if failed {
      return events, Some(NoOptimizer);
    }
    error := None;
    joint.diagnostics := joint.diagnostics[LossCurveKey := lossList];
    events := events + [WriteLossCurve, PostProcess];
    if joint.posteriorModel.NoModel? && FlagsOf(strategy).learnablePosterior {
      events := events + [SetPosteriorModelAfterInference];
      var installed := SetPosteriorAfterInference(strategy, posterior, sampler);
      if installed.Ok? {
        joint.posteriorModel := installed.value;
      } else {
        error := Some(installed.error);
      }
    }
  }

  /** The default method, then the posterior: the argument, else the joint model's, else
      the one `construct_posterior_model` builds or the ValueError it raises. */
  method ResolvePosterior(joint: JointModel, inferenceMethod: Option<Strategy>, posteriorModel: ModelValue,
                          ghost c: Call)
    returns (events: seq<Event>, strategy: Strategy, posterior: Result<ModelValue>)
    requires c.strategy == inferenceMethod && c.posterior == posteriorModel
    ensures events == PreludeEvents(joint.View(), c)
    ensures strategy == MethodOf(c) && posterior == PosteriorOf(joint.View(), c)
  {
    events := [];
    if inferenceMethod.None? {
      events := events + [DefaultMethodWarning];
      strategy := ReverseKL;
    } else {
      strategy := inferenceMethod.value;
    }
    var candidate := posteriorModel;
    if candidate.NoModel? && !joint.posteriorModel.NoModel? {
      candidate := joint.posteriorModel;
    }
    if candidate.NoModel? {
      events := events + [ConstructPosteriorModel];
      posterior := ConstructPosterior(strategy, joint.variables);
    } else {
      posterior := Ok(candidate);
    }
  }

  /** The sampler: a truthy argument, else the method's `sampler_model`, else the joint
      model's `posterior_sampler`, else None. */
  method ResolveSampler(joint: JointModel, strategy: Strategy, samplerModel: ModelValue, ghost c: Call)
    returns (sampler: ModelValue)
    requires strategy == MethodOf(c) && c.sampler == samplerModel
    ensures sampler == SamplerOf(joint.View(), c)
  {
    sampler := samplerModel;
    if Falsy(sampler) {
      var attribute := SamplerAttribute(strategy);
      if attribute.Some? {
        sampler := attribute.value;
      } else if joint.posteriorSampler.Some? {
        sampler := joint.posteriorSampler.value;
      } else {
        sampler := NoModel;
      }
    }
  }

  /** perform_inference, step by step as the source runs it. `losses` holds what
      `compute_loss` returns on each of the `numberIterations` iterations. */
  method PerformInference(joint: JointModel, numberIterations: int, losses: seq<Loss>,
                          inferenceMethod: Option<Strategy>, posteriorModel: ModelValue,
                          samplerModel: ModelValue, pretrainingIterations: int, nonEmpty: set<Role>)
    returns (events: seq<Event>, error: Option<Failure>)
    requires |losses| == if numberIterations > 0 then numberIterations else 0
    modifies joint
    ensures var o := Run(old(joint.View()), Call(inferenceMethod, posteriorModel, samplerModel,
                                                 pretrainingIterations, losses, nonEmpty));
            events == o.events && error == o.error && joint.posteriorModel == o.posteriorSlot &&
            joint.diagnostics == (if o.lossCurve.Some? then old(joint.diagnostics)[LossCurveKey := o.lossCurve.value]
                                  else old(joint.diagnostics))
  {
    ghost var j := joint.View();
    ghost var c := Call(inferenceMethod, posteriorModel, samplerModel, pretrainingIterations, losses, nonEmpty);
    var strategy, resolved;
    events, strategy, resolved := ResolvePosterior(joint, inferenceMethod, posteriorModel, c);
    if resolved.Err? {
      error := Some(resolved.error);
      RunFailingConstruction(j, c);
      return;
    }
    var posterior := resolved.value;
    var sampler := ResolveSampler(joint, strategy, samplerModel, c);
    events := events + [UpdateObservedSubmodel];
    var built, optimizers := MakeOptimizers(FlagsOf(strategy), nonEmpty);
    events := events + built;
    events := events + [CheckModelCompatibility];
    assert events == SetupEvents(j, c) && optimizers == OptimizersOf(c) && sampler == SamplerOf(j, c);
    var check := CheckCompatibility(strategy, posterior, sampler);
    if check.Some? {
      error := check;
      RunFailingCheck(j, c);
      return;
    }
    RunReachingLoop(j, c);
    var trained, failure := TrainAndInstall(joint, strategy, posterior, sampler, optimizers,
                                            losses, pretrainingIterations);
    events, error := events + trained, failure;
  }

  // ---------------------------------------------------------------- lemmas

  /** The calls up to `construct_posterior_model`: a warning exactly when no method was
      given, and one construction exactly when neither the argument nor the joint model
      holds a posterior. */
  lemma PreludeShape(j: JointView, c: Call)
    ensures var es := PreludeEvents(j, c);
            multiset(es)[DefaultMethodWarning] == (if c.strategy.None? then 1 else 0) &&
            multiset(es)[ConstructPosteriorModel] == (if NeedsConstruction(j, c) then 1 else 0) &&
            forall e :: e in es ==> e == DefaultMethodWarning || e == ConstructPosteriorModel
  {
  }

  lemma OptimizerEventsShape(f: Flags)
    ensures forall e :: e in OptimizerEvents(f) ==> e.MakeOptimizer?
  {
  }

  lemma SetupConcat(pre: seq<Event>, opt: seq<Event>)
    requires forall e :: e in pre ==> e == DefaultMethodWarning || e == ConstructPosteriorModel
    requires forall e :: e in opt ==> e.MakeOptimizer?
    ensures var es := pre + [UpdateObservedSubmodel] + opt + [CheckModelCompatibility];
            OutsideLoop(es) && es[|es| - 1] == CheckModelCompatibility &&
            multiset(es)[CheckModelCompatibility] == 1 &&
            multiset(es)[DefaultMethodWarning] == multiset(pre)[DefaultMethodWarning] &&
            forall e :: e in es ==> !(e.WriteLossCurve? || e.PostProcess? || e.SetPosteriorModelAfterInference?)
  {
    var es := pre + [UpdateObservedSubmodel] + opt + [CheckModelCompatibility];
    assert multiset(es) == multiset(pre) + multiset{UpdateObservedSubmodel} + multiset(opt) + multiset{CheckModelCompatibility};
    assert CheckModelCompatibility !in pre && CheckModelCompatibility !in opt;
    assert DefaultMethodWarning !in opt;
    forall k | 0 <= k < |es| ensures !IsLoopEvent(es[k]) {
      assert es[k] in es;
    }
  }

  /** The calls before the loop: none made inside the loop body, a warning exactly when no
      method was given, and `check_model_compatibility` once, last. */
  lemma SetupShape(j: JointView, c: Call)
    ensures var es := SetupEvents(j, c);
            OutsideLoop(es) && |es| > 0 && es[|es| - 1] == CheckModelCompatibility &&
            multiset(es)[CheckModelCompatibility] == 1 &&
            multiset(es)[DefaultMethodWarning] == (if c.strategy.None? then 1 else 0) &&
            forall e :: e in es ==> !(e.WriteLossCurve? || e.PostProcess? || e.SetPosteriorModelAfterInference?)
  {
    var pre := PreludeEvents(j, c);
    var opt := OptimizerEvents(FlagsOf(MethodOf(c)));
    PreludeShape(j, c);
    OptimizerEventsShape(FlagsOf(MethodOf(c)));
    SetupConcat(pre, opt);
  }

  /** The hooks after a loop that did not raise. */
  function HookEvents(j: JointView, c: Call): seq<Event>
  {
    if LoopFails(c.losses, OptimizersOf(c)) then []
    else [WriteLossCurve, PostProcess] + (if InstallsPosterior(j, c) then [SetPosteriorModelAfterInference] else [])
  }

  /** A call that reaches the loop makes the setup calls, then the loop's, then the hooks. */
  lemma RunLayout(j: JointView, c: Call)
    requires ReachesLoop(j, c)
    ensures Run(j, c).events == SetupEvents(j, c) + LoopEvents(c.losses, OptimizersOf(c), c.pretraining) + HookEvents(j, c)
    ensures Run(j, c).lossCurve == if LoopFails(c.losses, OptimizersOf(c)) then None
                                   else Some(LoopEntries(c.losses, OptimizersOf(c)))
  {
    RunReachingLoop(j, c);
    TrainLayout(MethodOf(c), j.attachedPosterior, PosteriorOf(j, c).value, SamplerOf(j, c),
                OptimizersOf(c), c.losses, c.pretraining);
  }

  /** A call whose posterior construction raises stops after the prelude. */
  lemma RunFailingConstruction(j: JointView, c: Call)
    requires PosteriorOf(j, c).Err?
    ensures Run(j, c) == Outcome(PreludeEvents(j, c), Some(PosteriorOf(j, c).error), None, j.attachedPosterior)
  {
  }

  /** A call whose compatibility check raises stops after the setup. */
  lemma RunFailingCheck(j: JointView, c: Call)
    requires PosteriorOf(j, c).Ok?
    requires CheckCompatibility(MethodOf(c), PosteriorOf(j, c).value, SamplerOf(j, c)).Some?
    ensures Run(j, c) == Outcome(SetupEvents(j, c), CheckCompatibility(MethodOf(c), PosteriorOf(j, c).value, SamplerOf(j, c)),
                                 None, j.attachedPosterior)
  {
  }

  /** A call that reaches the loop is the setup followed by `Train`. */
  lemma RunReachingLoop(j: JointView, c: Call)
    requires ReachesLoop(j, c)
    ensures var t := Train(MethodOf(c), j.attachedPosterior, PosteriorOf(j, c).value, SamplerOf(j, c),
                           OptimizersOf(c), c.losses, c.pretraining);
            Run(j, c) == Outcome(SetupEvents(j, c) + t.events, t.error, t.lossCurve, t.posteriorSlot)
  {
  }

  /** The loop's calls, then the hooks; the loss curve exactly when the loop does not raise. */
  lemma TrainLayout(s: Strategy, attached: ModelValue, posterior: ModelValue, sampler: ModelValue,
                    opts: seq<Role>, losses: seq<Loss>, pretraining: int)
    ensures var t := Train(s, attached, posterior, sampler, opts, losses, pretraining);
            t.events == LoopEvents(losses, opts, pretraining) +
                        (if LoopFails(losses, opts) then []
                         else [WriteLossCurve, PostProcess] +
                              (if attached.NoModel? && FlagsOf(s).learnablePosterior
                               then [SetPosteriorModelAfterInference] else [])) &&
            t.lossCurve == if LoopFails(losses, opts) then None else Some(LoopEntries(losses, opts))
  {
  }

  /** A call that does not reach the loop writes no loss curve and installs nothing. */
  lemma RunStopsBeforeLoop(j: JointView, c: Call)
    requires !ReachesLoop(j, c)
    ensures Run(j, c).lossCurve.None? && Run(j, c).posteriorSlot == j.attachedPosterior
    ensures Run(j, c).error.Some? && Run(j, c).error != Some(NoOptimizer)
    ensures Run(j, c).events == if PosteriorOf(j, c).Err? then PreludeEvents(j, c) else SetupEvents(j, c)
  {
  }

  /** The loss curve is written exactly when the call reaches the loop and the loop does
      not raise; it then holds every iteration's loss in a plain entry and every finite one
      also in a flattened entry, so it is `number_iterations + #finite` long. */
  lemma RunLossCurve(j: JointView, c: Call)
    ensures Run(j, c).lossCurve.Some? <==>
            ReachesLoop(j, c) && !(OptimizersOf(c) == [] && |FiniteLosses(c.losses)| > 0)
    ensures Run(j, c).lossCurve.Some? ==>
            PlainLosses(Run(j, c).lossCurve.value) == c.losses &&
            FlattenedLosses(Run(j, c).lossCurve.value) == FiniteLosses(c.losses) &&
            |Run(j, c).lossCurve.value| == |c.losses| + |FiniteLosses(c.losses)|
  {
    LoopFailsIff(c.losses, OptimizersOf(c));
    if ReachesLoop(j, c) {
      RunLayout(j, c);
      if !LoopFails(c.losses, OptimizersOf(c)) {
        LoopLossList(c.losses, OptimizersOf(c));
      }
    } else {
      RunStopsBeforeLoop(j, c);
    }
  }

  /** The IndexError of `optimizers_list[0]` escapes exactly when the loop is reached with
      no optimizer built and some loss is finite. */
  lemma RunIndexError(j: JointView, c: Call)
    ensures Run(j, c).error == Some(NoOptimizer) <==>
            ReachesLoop(j, c) && OptimizersOf(c) == [] && |FiniteLosses(c.losses)| > 0
  {
    LoopFailsIff(c.losses, OptimizersOf(c));
    if !ReachesLoop(j, c) {
      RunStopsBeforeLoop(j, c);
    }
  }

  /** Events outside the loop body hold no optimizer step. */
  lemma {:induction false} NoStepCounts(es: seq<Event>, r: Role)
    requires OutsideLoop(es)
    ensures UpdateCount(es, r) == 0 && ZeroGradCount(es, r) == 0
    decreases |es|
  {
    if es != [] {
      assert !IsLoopEvent(es[|es| - 1]);
      NoStepCounts(es[..|es| - 1], r);
    }
  }

  lemma HookShape(j: JointView, c: Call)
    ensures OutsideLoop(HookEvents(j, c))
  {
    var h := HookEvents(j, c);
    HookEventsAreHooks(j, c);
    forall k | 0 <= k < |h| ensures !IsLoopEvent(h[k]) {
      assert h[k] in h;
    }
  }

  /** Over a whole call, optimizer `opts[0]` is zeroed and updated once per finite loss,
      and every other optimizer is zeroed once per finite loss and updated once per finite
      loss past the pretraining threshold. */
  lemma RunStepCounts(j: JointView, c: Call, k: nat)
    requires ReachesLoop(j, c)
    requires k < |OptimizersOf(c)|
    ensures var opts := OptimizersOf(c);
            ZeroGradCount(Run(j, c).events, opts[k]) == |FiniteLosses(c.losses)| &&
            UpdateCount(Run(j, c).events, opts[k]) ==
              (if k == 0 then |FiniteLosses(c.losses)| else FiniteAfter(c.losses, c.pretraining))
  {
    var opts := OptimizersOf(c);
    RunLayout(j, c);
    SetupShape(j, c);
    HookShape(j, c);
    LoopStepCounts(c.losses, opts, c.pretraining, k);
    StepCountsInside(SetupEvents(j, c), LoopEvents(c.losses, opts, c.pretraining), HookEvents(j, c), opts[k]);
  }

  /** Optimizer steps are counted in the loop body only. */
  lemma StepCountsInside(setup: seq<Event>, body: seq<Event>, hooks: seq<Event>, r: Role)
    requires OutsideLoop(setup) && OutsideLoop(hooks)
    ensures UpdateCount(setup + body + hooks, r) == UpdateCount(body, r)
    ensures ZeroGradCount(setup + body + hooks, r) == ZeroGradCount(body, r)
  {
    NoStepCounts(setup, r);
    NoStepCounts(hooks, r);
    UpdateCountConcat(setup, body, r);
    UpdateCountConcat(setup + body, hooks, r);
    ZeroGradCountConcat(setup, body, r);
    ZeroGradCountConcat(setup + body, hooks, r);
  }

  /** In a call that completes the loop, each event of the loop body occurs exactly as often
      as the per-iteration rules of `ExpectedCount` say. */
  lemma RunEventCounts(j: JointView, c: Call, e: Event)
    requires ReachesLoop(j, c)
    requires !LoopFails(c.losses, OptimizersOf(c))
    requires IsLoopEvent(e)
    ensures multiset(Run(j, c).events)[e] == ExpectedCount(e, c.losses, OptimizersOf(c), c.pretraining)
  {
    var opts := OptimizersOf(c);
    RunLayout(j, c);
    SetupShape(j, c);
    HookShape(j, c);
    LoopEventCounts(c.losses, opts, c.pretraining, e);
    LoopEventCountInside(SetupEvents(j, c), LoopEvents(c.losses, opts, c.pretraining), HookEvents(j, c), e);
  }

  /** A loop event is counted in the loop body only. */
  lemma LoopEventCountInside(setup: seq<Event>, body: seq<Event>, hooks: seq<Event>, e: Event)
    requires OutsideLoop(setup) && OutsideLoop(hooks) && IsLoopEvent(e)
    ensures multiset(setup + body + hooks)[e] == multiset(body)[e]
  {
    assert e !in setup by {
      forall k | 0 <= k < |setup| ensures setup[k] != e {
        assert !IsLoopEvent(setup[k]);
      }
    }
    assert e !in hooks by {
      forall k | 0 <= k < |hooks| ensures hooks[k] != e {
        assert !IsLoopEvent(hooks[k]);
      }
    }
    assert multiset(setup + body + hooks) == multiset(setup) + multiset(body) + multiset(hooks);
  }

  lemma StepsOnFiniteConcat(pre: seq<Event>, body: seq<Event>, post: seq<Event>, losses: seq<Loss>)
    requires OutsideLoop(pre) && OutsideLoop(post)
    requires StepsOnFinite(body, losses)
    ensures StepsOnFinite(pre + body + post, losses)
  {
    var es := pre + body + post;
    assert forall k :: 0 <= k < |pre| ==> es[k] == pre[k];
    assert forall k :: |pre| <= k < |pre| + |body| ==> es[k] == body[k - |pre|];
    assert forall k :: |pre| + |body| <= k < |es| ==> es[k] == post[k - |pre| - |body|];
  }

  lemma StepsOnFiniteWhenReached(j: JointView, c: Call)
    requires ReachesLoop(j, c)
    ensures StepsOnFinite(Run(j, c).events, c.losses)
  {
    var opts := OptimizersOf(c);
    RunLayout(j, c);
    SetupShape(j, c);
    HookShape(j, c);
    LoopStepsOnlyOnFinite(c.losses, opts, c.pretraining);
    StepsOnFiniteConcat(SetupEvents(j, c), LoopEvents(c.losses, opts, c.pretraining), HookEvents(j, c), c.losses);
  }

  /** The prelude holds no event of the loop body. */
  lemma PreludeOutsideLoop(j: JointView, c: Call)
    ensures OutsideLoop(PreludeEvents(j, c))
  {
    var es := PreludeEvents(j, c);
    PreludeShape(j, c);
    forall k | 0 <= k < |es| ensures !IsLoopEvent(es[k]) {
      assert es[k] in es;
    }
  }

  lemma StepsOnFiniteWhenStopped(j: JointView, c: Call)
    requires !ReachesLoop(j, c)
    ensures StepsOnFinite(Run(j, c).events, c.losses)
  {
    RunStopsBeforeLoop(j, c);
    if PosteriorOf(j, c).Err? {
      PreludeOutsideLoop(j, c);
    } else {
      SetupShape(j, c);
    }
  }

  /** No zero_grad, backward, correct_gradient or update happens on an iteration whose
      loss is not finite. */
  lemma RunStepsOnlyOnFinite(j: JointView, c: Call)
    ensures StepsOnFinite(Run(j, c).events, c.losses)
  {
    if ReachesLoop(j, c) {
      StepsOnFiniteWhenReached(j, c);
    } else {
      StepsOnFiniteWhenStopped(j, c);
    }
  }

  /** The calls perform_inference makes after the loop. */
  predicate IsHookEvent(e: Event)
  {
    e.WriteLossCurve? || e.PostProcess? || e.SetPosteriorModelAfterInference?
  }

  lemma CheckBeforeBody(setup: seq<Event>, body: seq<Event>, hooks: seq<Event>, n: nat)
    requires OutsideLoop(setup) && |setup| > 0 && setup[|setup| - 1] == CheckModelCompatibility
    requires multiset(setup)[CheckModelCompatibility] == 1
    requires TaggedBelow(body, n)
    requires forall e :: e in hooks ==> IsHookEvent(e)
    ensures CheckedOnceBefore(setup + body + hooks)
  {
    var es := setup + body + hooks;
    assert CheckModelCompatibility !in body by {
      forall k | 0 <= k < |body| ensures body[k] != CheckModelCompatibility {
        assert IsLoopEvent(body[k]);
      }
    }
    assert CheckModelCompatibility !in hooks;
    assert multiset(es) == multiset(setup) + multiset(body) + multiset(hooks);
    assert forall k :: 0 <= k < |setup| ==> es[k] == setup[k];
    assert forall k :: |setup| <= k < |setup| + |body| ==> es[k] == body[k - |setup|];
    assert forall k :: |setup| + |body| <= k < |es| ==> es[k] == hooks[k - |setup| - |body|];
    assert forall k :: |setup| <= k < |es| ==> es[k] != CheckModelCompatibility by {
      forall k | |setup| <= k < |es| ensures es[k] != CheckModelCompatibility {
        if k < |setup| + |body| {
          assert es[k] in body;
        } else {
          assert es[k] in hooks;
        }
      }
    }
  }

  /** The setup events followed by nothing, as when the check raises. */
  predicate CheckedOnceBefore(es: seq<Event>)
  {
    multiset(es)[CheckModelCompatibility] == 1 &&
    forall p, q :: 0 <= p < |es| && 0 <= q < |es| && es[p] == CheckModelCompatibility && IsLoopEvent(es[q]) ==> p < q
  }

  lemma HookEventsAreHooks(j: JointView, c: Call)
    ensures forall e :: e in HookEvents(j, c) ==> IsHookEvent(e)
  {
  }

  lemma ChecksWhenReached(j: JointView, c: Call)
    requires ReachesLoop(j, c)
    ensures CheckedOnceBefore(Run(j, c).events)
  {
    var opts := OptimizersOf(c);
    RunLayout(j, c);
    SetupShape(j, c);
    LoopStepsOnlyOnFinite(c.losses, opts, c.pretraining);
    HookEventsAreHooks(j, c);
    CheckBeforeBody(SetupEvents(j, c), LoopEvents(c.losses, opts, c.pretraining), HookEvents(j, c), |c.losses|);
  }

  lemma ChecksWhenStopped(j: JointView, c: Call)
    requires PosteriorOf(j, c).Ok? && !ReachesLoop(j, c)
    ensures CheckedOnceBefore(Run(j, c).events)
  {
    var setup := SetupEvents(j, c);
    SetupShape(j, c);
    RunStopsBeforeLoop(j, c);
    assert Run(j, c).events == setup;
  }

  /** `check_model_compatibility` is called exactly once when the posterior resolves, and
      before every call of the loop body. */
  lemma RunChecksOnceBeforeLoop(j: JointView, c: Call)
    requires PosteriorOf(j, c).Ok?
    ensures CheckedOnceBefore(Run(j, c).events)
  {
    if ReachesLoop(j, c) {
      ChecksWhenReached(j, c);
    } else {
      ChecksWhenStopped(j, c);
    }
  }

  /** After the loop, `diagnostics["loss curve"]` is written once and then `post_process`
      is called once (when `written`), then `set_posterior_model_after_inference` once (when
      `installs`), and none of them before any event of the loop body. */
  predicate HooksFollowLoop(es: seq<Event>, written: bool, installs: bool)
  {
    multiset(es)[WriteLossCurve] == (if written then 1 else 0) &&
    multiset(es)[PostProcess] == (if written then 1 else 0) &&
    multiset(es)[SetPosteriorModelAfterInference] == (if installs then 1 else 0) &&
    Before(es, WriteLossCurve, PostProcess) &&
    Before(es, PostProcess, SetPosteriorModelAfterInference) &&
    forall p, q :: 0 <= p < |es| && 0 <= q < |es| && IsLoopEvent(es[p]) && IsHookEvent(es[q]) ==> p < q
  }

  lemma NoHooks(es: seq<Event>)
    requires forall e :: e in es ==> !IsHookEvent(e)
    ensures HooksFollowLoop(es, false, false)
  {
    assert forall k :: 0 <= k < |es| ==> !IsHookEvent(es[k]);
  }

  /** Hook events appended after a prefix that holds none keep their counts and order. */
  lemma HooksAppended(pre: seq<Event>, hooks: seq<Event>, written: bool, installs: bool)
    requires forall k :: 0 <= k < |pre| ==> !IsHookEvent(pre[k])
    requires hooks == if written then [WriteLossCurve, PostProcess] +
                                      (if installs then [SetPosteriorModelAfterInference] else [])
                      else []
    ensures var es := pre + hooks;
            multiset(es)[WriteLossCurve] == (if written then 1 else 0) &&
            multiset(es)[PostProcess] == (if written then 1 else 0) &&
            multiset(es)[SetPosteriorModelAfterInference] == (if written && installs then 1 else 0) &&
            Before(es, WriteLossCurve, PostProcess) &&
            Before(es, PostProcess, SetPosteriorModelAfterInference)
  {
    HookCountsAppended(pre, hooks, written, installs);
    HookOrderAppended(pre, hooks, written, installs);
  }

  lemma HookCountsAppended(pre: seq<Event>, hooks: seq<Event>, written: bool, installs: bool)
    requires forall k :: 0 <= k < |pre| ==> !IsHookEvent(pre[k])
    requires hooks == if written then [WriteLossCurve, PostProcess] +
                                      (if installs then [SetPosteriorModelAfterInference] else [])
                      else []
    ensures var es := pre + hooks;
            multiset(es)[WriteLossCurve] == (if written then 1 else 0) &&
            multiset(es)[PostProcess] == (if written then 1 else 0) &&
            multiset(es)[SetPosteriorModelAfterInference] == (if written && installs then 1 else 0)
  {
    assert WriteLossCurve !in pre && PostProcess !in pre && SetPosteriorModelAfterInference !in pre;
    assert multiset(pre + hooks) == multiset(pre) + multiset(hooks);
  }

  lemma HookOrderAppended(pre: seq<Event>, hooks: seq<Event>, written: bool, installs: bool)
    requires forall k :: 0 <= k < |pre| ==> !IsHookEvent(pre[k])
    requires hooks == if written then [WriteLossCurve, PostProcess] +
                                      (if installs then [SetPosteriorModelAfterInference] else [])
                      else []
    ensures Before(pre + hooks, WriteLossCurve, PostProcess)
    ensures Before(pre + hooks, PostProcess, SetPosteriorModelAfterInference)
  {
    var es := pre + hooks;
    assert forall k :: 0 <= k < |pre| ==> es[k] == pre[k];
    assert forall k :: |pre| <= k < |es| ==> es[k] == hooks[k - |pre|];
  }

  /** Every event of the loop body precedes every hook event. */
  lemma HooksAfterLoopEvents(setup: seq<Event>, body: seq<Event>, hooks: seq<Event>, n: nat)
    requires forall e :: e in setup ==> !IsHookEvent(e)
    requires OutsideLoop(setup) && OutsideLoop(hooks)
    requires TaggedBelow(body, n)
    ensures var es := setup + body + hooks;
            forall p, q :: 0 <= p < |es| && 0 <= q < |es| && IsLoopEvent(es[p]) && IsHookEvent(es[q]) ==> p < q
  {
    var es := setup + body + hooks;
    var m := |setup| + |body|;
    assert forall k :: 0 <= k < |setup| ==> es[k] == setup[k];
    assert forall k :: |setup| <= k < m ==> es[k] == body[k - |setup|];
    assert forall k :: m <= k < |es| ==> es[k] == hooks[k - m];
    assert forall k :: 0 <= k < |setup| ==> !IsHookEvent(es[k]) && !IsLoopEvent(es[k]) by {
      forall k | 0 <= k < |setup| ensures !IsHookEvent(es[k]) && !IsLoopEvent(es[k]) {
        assert setup[k] in setup;
      }
    }
    assert forall k :: |setup| <= k < m ==> !IsHookEvent(es[k]) by {
      forall k | |setup| <= k < m ensures !IsHookEvent(es[k]) {
        assert IsLoopEvent(body[k - |setup|]);
      }
    }
  }

  lemma HooksAfterBody(setup: seq<Event>, body: seq<Event>, hooks: seq<Event>, n: nat,
                       written: bool, installs: bool)
    requires forall e :: e in setup ==> !IsHookEvent(e)
    requires OutsideLoop(setup)
    requires TaggedBelow(body, n)
    requires hooks == if written then [WriteLossCurve, PostProcess] +
                                      (if installs then [SetPosteriorModelAfterInference] else [])
                      else []
    ensures HooksFollowLoop(setup + body + hooks, written, written && installs)
  {
    NoHookBeforeHooks(setup, body, n);
    HooksAppended(setup + body, hooks, written, installs);
    HooksAfterLoopEvents(setup, body, hooks, n);
  }

  lemma NoHookBeforeHooks(setup: seq<Event>, body: seq<Event>, n: nat)
    requires forall e :: e in setup ==> !IsHookEvent(e)
    requires TaggedBelow(body, n)
    ensures forall k :: 0 <= k < |setup + body| ==> !IsHookEvent((setup + body)[k])
  {
    var sb := setup + body;
    forall k | 0 <= k < |sb| ensures !IsHookEvent(sb[k]) {
      if k < |setup| {
        assert sb[k] == setup[k] && setup[k] in setup;
      } else {
        assert sb[k] == body[k - |setup|] && IsLoopEvent(body[k - |setup|]);
      }
    }
  }

  /** The hooks after the loop happen exactly when the loss curve is written, once each, in
      the source's order and after the whole loop; `set_posterior_model_after_inference` is
      called exactly when the joint model had no posterior and the method learns one. */
  lemma RunHooksAfterLoop(j: JointView, c: Call)
    ensures HooksFollowLoop(Run(j, c).events, Run(j, c).lossCurve.Some?,
                            Run(j, c).lossCurve.Some? && InstallsPosterior(j, c))
  {
    if ReachesLoop(j, c) {
      HooksWhenReached(j, c);
    } else {
      HooksWhenStopped(j, c);
    }
  }

  lemma HooksWhenReached(j: JointView, c: Call)
    requires ReachesLoop(j, c)
    ensures HooksFollowLoop(Run(j, c).events, Run(j, c).lossCurve.Some?,
                            Run(j, c).lossCurve.Some? && InstallsPosterior(j, c))
  {
    var opts := OptimizersOf(c);
    RunLayout(j, c);
    SetupShape(j, c);
    LoopStepsOnlyOnFinite(c.losses, opts, c.pretraining);
    HooksAfterBody(SetupEvents(j, c), LoopEvents(c.losses, opts, c.pretraining), HookEvents(j, c),
                   |c.losses|, !LoopFails(c.losses, opts), InstallsPosterior(j, c));
  }

  lemma HooksWhenStopped(j: JointView, c: Call)
    requires !ReachesLoop(j, c)
    ensures HooksFollowLoop(Run(j, c).events, Run(j, c).lossCurve.Some?,
                            Run(j, c).lossCurve.Some? && InstallsPosterior(j, c))
  {
    RunStopsBeforeLoop(j, c);
    StoppedHasNoHooks(j, c);
    NoHooks(Run(j, c).events);
  }

  lemma StoppedHasNoHooks(j: JointView, c: Call)
    ensures var es := if PosteriorOf(j, c).Err? then PreludeEvents(j, c) else SetupEvents(j, c);
            forall e :: e in es ==> !IsHookEvent(e)
  {
    if PosteriorOf(j, c).Err? {
      PreludeShape(j, c);
    } else {
      SetupShape(j, c);
    }
  }


  // ---------------------------------------------------------------- scenarios

  /** The "no inference method" warning is issued exactly when no method is given, once,
      as the very first event. */
  lemma RunDefaultMethod(j: JointView, c: Call)
    ensures multiset(Run(j, c).events)[DefaultMethodWarning] == (if c.strategy.None? then 1 else 0)
    ensures c.strategy.None? ==> |Run(j, c).events| > 0 && Run(j, c).events[0] == DefaultMethodWarning
  {
    PreludeShape(j, c);
    if ReachesLoop(j, c) {
      DefaultWhenReached(j, c);
    } else {
      RunStopsBeforeLoop(j, c);
      if PosteriorOf(j, c).Ok? {
        SetupShape(j, c);
      }
    }
  }

  lemma DefaultInConcat(setup: seq<Event>, body: seq<Event>, hooks: seq<Event>, n: nat, warned: bool)
    requires |setup| > 0 && multiset(setup)[DefaultMethodWarning] == (if warned then 1 else 0)
    requires warned ==> setup[0] == DefaultMethodWarning
    requires TaggedBelow(body, n)
    requires forall e :: e in hooks ==> IsHookEvent(e)
    ensures multiset(setup + body + hooks)[DefaultMethodWarning] == (if warned then 1 else 0)
    ensures warned ==> (setup + body + hooks)[0] == DefaultMethodWarning
  {
    assert DefaultMethodWarning !in body by {
      forall k | 0 <= k < |body| ensures body[k] != DefaultMethodWarning {
        assert IsLoopEvent(body[k]);
      }
    }
    assert DefaultMethodWarning !in hooks;
    assert multiset(setup + body + hooks) == multiset(setup) + multiset(body) + multiset(hooks);
  }

  lemma DefaultWhenReached(j: JointView, c: Call)
    requires ReachesLoop(j, c)
    ensures multiset(Run(j, c).events)[DefaultMethodWarning] == (if c.strategy.None? then 1 else 0)
    ensures c.strategy.None? ==> |Run(j, c).events| > 0 && Run(j, c).events[0] == DefaultMethodWarning
  {
    var opts := OptimizersOf(c);
    RunLayout(j, c);
    SetupShape(j, c);
    SetupStartsWithPrelude(j, c);
    LoopStepsOnlyOnFinite(c.losses, opts, c.pretraining);
    HookEventsAreHooks(j, c);
    DefaultInConcat(SetupEvents(j, c), LoopEvents(c.losses, opts, c.pretraining), HookEvents(j, c),
                    |c.losses|, c.strategy.None?);
  }

  lemma SetupStartsWithPrelude(j: JointView, c: Call)
    ensures c.strategy.None? ==> SetupEvents(j, c)[0] == DefaultMethodWarning
  {
  }

  /** With no method, no posterior argument and none in the joint model, ReverseKL cannot
      construct one: the call warns, tries, and raises ValueError before anything else. */
  lemma DefaultMethodNeedsPosterior(j: JointView, c: Call)
    requires c.strategy.None? && c.posterior.NoModel? && j.attachedPosterior.NoModel?
    ensures Run(j, c) == Outcome([DefaultMethodWarning, ConstructPosteriorModel],
                                 Some(LatentStructureUnknown), None, NoModel)
  {
  }

  /** Wasserstein and Stein cannot construct a posterior either. */
  lemma ConstructionNotImplementedFor(j: JointView, c: Call)
    requires NeedsConstruction(j, c)
    ensures PosteriorOf(j, c) == Err(ConstructionNotImplemented) <==>
            (MethodOf(c).Wasserstein? || MethodOf(c).Stein?)
    ensures PosteriorOf(j, c).Err? ==> Run(j, c).error == Some(PosteriorOf(j, c).error) &&
                                       Run(j, c).events == PreludeEvents(j, c)
  {
  }

  /** MAP with no posterior at all builds its point-mass posterior, passes its check and
      trains; once training finishes, the missing `set_posterior_model_after_inference`
      raises AttributeError after the loss curve has been written. */
  lemma MapAutoPosteriorRaisesAfterLoop(j: JointView, c: Call)
    requires c.strategy == Some(MAP) && NeedsConstruction(j, c)
    ensures ReachesLoop(j, c)
    ensures ConstructPosteriorModel in Run(j, c).events
    ensures !LoopFails(c.losses, OptimizersOf(c)) ==>
              Run(j, c).error == Some(MissingAttribute) && Run(j, c).lossCurve.Some? &&
              Run(j, c).posteriorSlot == NoModel
  {
    MapConstructionPassesCheck(j.variables, SamplerOf(j, c));
    RunLayout(j, c);
    assert SetupEvents(j, c)[0] == ConstructPosteriorModel;
    assert Run(j, c).events[0] == ConstructPosteriorModel;
  }

  /** For MAP and Stein the training completes and then AttributeError escapes whenever the
      joint model had no posterior of its own. */
  lemma SetPosteriorMissingAfterTraining(j: JointView, c: Call)
    requires MethodOf(c).MAP? || MethodOf(c).Stein?
    requires ReachesLoop(j, c) && !LoopFails(c.losses, OptimizersOf(c))
    ensures Run(j, c).lossCurve.Some?
    ensures Run(j, c).error == (if j.attachedPosterior.NoModel? then Some(MissingAttribute) else None)
    ensures Run(j, c).posteriorSlot == j.attachedPosterior
  {
    SetPosteriorMissingFor(MethodOf(c), PosteriorOf(j, c).value, SamplerOf(j, c));
  }

  /** Without a sampler argument, Wasserstein uses its own truncated samplers, one per
      particle that has a sampler, and so passes its check. */
  lemma WassersteinDefaultSampler(j: JointView, c: Call)
    requires MethodOf(c).Wasserstein? && Falsy(c.sampler)
    ensures SamplerOf(j, c) ==
            Many(TruncatedSamplers(MethodOf(c).variationalSamplers, |MethodOf(c).particles|))
    ensures PosteriorOf(j, c).Ok? ==> ReachesLoop(j, c)
  {
  }

  /** Wasserstein ends a finished call by installing an Ensemble with one member per
      particle, member `i` carrying sampler `i` where there is one; a posterior that is not
      a list makes it raise TypeError instead. */
  lemma WassersteinInstallsEnsemble(j: JointView, c: Call)
    requires MethodOf(c).Wasserstein? && ReachesLoop(j, c) && !LoopFails(c.losses, OptimizersOf(c))
    requires j.attachedPosterior.NoModel?
    ensures var ps, ss := PosteriorOf(j, c).value, SamplerOf(j, c);
            if ps.Many? then
              Run(j, c).error.None? && Run(j, c).posteriorSlot.Ensemble? &&
              |Run(j, c).posteriorSlot.members| == |ps.models| &&
              (forall i :: 0 <= i < |ps.models| ==>
                 (Run(j, c).posteriorSlot.members[i].Some? <==> i < |ss.models|)) &&
              (forall i :: 0 <= i < |ps.models| && i < |ss.models| ==>
                 Run(j, c).posteriorSlot.members[i].value == ss.models[i])
            else
              Run(j, c).error == Some(NotIterable) && Run(j, c).posteriorSlot == NoModel
  {
    var ps, ss := PosteriorOf(j, c).value, SamplerOf(j, c);
    if ps.Many? {
      WassersteinEnsemble(MethodOf(c), ps.models, ss.models);
    }
  }

  /** ReverseKL needs a posterior model from the argument or the joint model; a finished
      call installs that posterior in a joint model that had none. */
  lemma ReverseKLInstallsPosterior(j: JointView, c: Call)
    requires MethodOf(c).ReverseKL?
    ensures ReachesLoop(j, c) <==> !NeedsConstruction(j, c)
    ensures NeedsConstruction(j, c) ==> Run(j, c).error == Some(LatentStructureUnknown)
    ensures j.attachedPosterior.NoModel? && ReachesLoop(j, c) && !LoopFails(c.losses, OptimizersOf(c)) ==>
              Run(j, c).error.None? && Run(j, c).posteriorSlot == c.posterior
  {
  }

  /** Maximum likelihood learns no posterior: it always reaches the loop, never installs a
      posterior, and can only fail with the IndexError of an empty optimizer list. */
  lemma MaximumLikelihoodRun(j: JointView, c: Call)
    requires MethodOf(c).MaximumLikelihood?
    ensures ReachesLoop(j, c)
    ensures Run(j, c).posteriorSlot == j.attachedPosterior
    ensures SetPosteriorModelAfterInference !in Run(j, c).events
    ensures Run(j, c).error.None? || Run(j, c).error == Some(NoOptimizer)
    ensures OptimizersOf(c) == if JointRole in c.nonEmpty then [JointRole] else []
  {
    MaximumLikelihoodKeepsSlot(j, c);
    MaximumLikelihoodError(j, c);
  }

  lemma MaximumLikelihoodKeepsSlot(j: JointView, c: Call)
    requires MethodOf(c).MaximumLikelihood?
    ensures Run(j, c).posteriorSlot == j.attachedPosterior
    ensures SetPosteriorModelAfterInference !in Run(j, c).events
  {
    assert !InstallsPosterior(j, c);
    PosteriorSlotChanges(j, c);
    RunHooksAfterLoop(j, c);
    assert multiset(Run(j, c).events)[SetPosteriorModelAfterInference] == 0;
  }

  lemma MaximumLikelihoodError(j: JointView, c: Call)
    requires MethodOf(c).MaximumLikelihood? && ReachesLoop(j, c)
    ensures Run(j, c).error.None? || Run(j, c).error == Some(NoOptimizer)
  {
    RunLayout(j, c);
  }

  /** The joint model's posterior slot changes only when it was empty and the call
      completed `set_posterior_model_after_inference`. */
  lemma PosteriorSlotChanges(j: JointView, c: Call)
    ensures Run(j, c).posteriorSlot != j.attachedPosterior ==>
            InstallsPosterior(j, c) && Run(j, c).lossCurve.Some? && Run(j, c).error.None?
  {
    if ReachesLoop(j, c) {
      RunLayout(j, c);
    } else {
      RunStopsBeforeLoop(j, c);
    }
  }

  /** Only Wasserstein reads the resolved sampler: for every other method the sampler
      argument and the joint model's `posterior_sampler` change nothing in the call. */
  lemma SamplerOnlyReadByWasserstein(j: JointView, c: Call, sampler: ModelValue,
                                     posteriorSampler: Option<ModelValue>)
    requires !MethodOf(c).Wasserstein?
    ensures Run(j.(posteriorSampler := posteriorSampler), c.(sampler := sampler)) == Run(j, c)
  {
    var j', c' := j.(posteriorSampler := posteriorSampler), c.(sampler := sampler);
    assert MethodOf(c') == MethodOf(c) && PosteriorOf(j', c') == PosteriorOf(j, c);
    assert SetupEvents(j', c') == SetupEvents(j, c) && OptimizersOf(c') == OptimizersOf(c);
    if PosteriorOf(j, c).Ok? {
      var s, p := MethodOf(c), PosteriorOf(j, c).value;
      assert CheckCompatibility(s, p, SamplerOf(j', c')) == CheckCompatibility(s, p, SamplerOf(j, c));
      assert SetPosteriorAfterInference(s, p, SamplerOf(j', c')) == SetPosteriorAfterInference(s, p, SamplerOf(j, c));
    }
  }

  /** The roles each method builds an optimizer for, in order. */
  lemma StrategyRoles(s: Strategy)
    ensures TriedRoles(FlagsOf(s)) ==
            match s
            case ReverseKL => [PosteriorRole, JointRole]
            case Wasserstein(_, _) => [PosteriorRole, SamplerRole]
            case MaximumLikelihood => [JointRole]
            case MAP => [PosteriorRole, JointRole]
            case Stein => [PosteriorRole]
  {
  }
}
