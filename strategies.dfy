/** The five inference methods of brancher/inference.py, reduced to what the training
    loop asks of them: their constant flags, automatic posterior construction, the
    compatibility check, the sampler they carry and the posterior they install. */
module Strategies {
  import opened ModelTypes
  import Truncation

  datatype Strategy =
    | ReverseKL
    | Wasserstein(variationalSamplers: seq<ProbModel>, particles: seq<ProbModel>)
    | MaximumLikelihood
    | MAP
    | Stein

  /** The boolean attributes each method's `__init__` sets. */
  datatype Flags = Flags(learnablePosterior: bool, learnableModel: bool,
                         learnableSampler: bool, needsSampler: bool)

  function FlagsOf(s: Strategy): (f: Flags)
    ensures f.learnablePosterior <==> !s.MaximumLikelihood?
    ensures f.learnableModel <==> (s.ReverseKL? || s.MaximumLikelihood? || s.MAP?)
    ensures f.learnableSampler <==> s.Wasserstein?
    ensures f.needsSampler <==> s.Wasserstein?
  {
    match s
    case ReverseKL => Flags(true, true, false, false)
    case Wasserstein(_, _) => Flags(true, false, true, true)
    case MaximumLikelihood => Flags(false, true, false, false)
    case MAP => Flags(true, true, false, false)
    case Stein => Flags(true, false, false, false)
  }

  /** The flag that decides whether an optimizer is tried for a role. */
  predicate Learnable(f: Flags, r: Role)
  {
    match r
    case PosteriorRole => f.learnablePosterior
    case JointRole => f.learnableModel
    case SamplerRole => f.learnableSampler
  }

  // ---------------------------------------------------------------- MAP

  /** A variable MAP gives a point estimate: not observed, neither deterministic nor root. */
  predicate IsLatentRandom(v: Variable)
  {
    !v.observed && v.kind == RandomVariable
  }

  /** The learnable deterministic variable MAP builds for `v`, under `v`'s name. */
  function PointMass(v: Variable): Variable
  {
    Variable(v.name, DeterministicVariable, false)
  }

  /** The leaves of the posterior MAP constructs from the joint model's variables. */
  function MapPosteriorLeaves(vars: seq<Variable>): (r: seq<Variable>)
    ensures |r| <= |vars|
    ensures forall w :: w in r ==> w.kind == DeterministicVariable && !w.observed
    ensures forall v :: v in vars && IsLatentRandom(v) ==> PointMass(v) in r
    ensures forall w :: w in r ==> exists v :: v in vars && IsLatentRandom(v) && w == PointMass(v)
  {
    if vars == [] then []
    else
      var rest := MapPosteriorLeaves(vars[1..]);
      assert forall v :: v in vars[1..] ==> v in vars;
      if IsLatentRandom(vars[0]) then [PointMass(vars[0])] + rest else rest
  }

  /** Number of variables MAP gives a point estimate. */
  function LatentRandomCount(vars: seq<Variable>): nat
  {
    if vars == [] then 0
    else (if IsLatentRandom(vars[0]) then 1 else 0) + LatentRandomCount(vars[1..])
  }

  /** MAP builds exactly one point mass per latent random variable, in order. */
  lemma {:induction false} MapPosteriorOnePerLatent(vars: seq<Variable>)
    ensures |MapPosteriorLeaves(vars)| == LatentRandomCount(vars)
    ensures forall k :: 0 <= k < |MapPosteriorLeaves(vars)| ==>
              MapPosteriorLeaves(vars)[k].name == LatentNames(vars)[k]
  {
    if vars != [] {
      MapPosteriorOnePerLatent(vars[1..]);
    }
  }

  /** Names of the latent random variables, in order. */
  function LatentNames(vars: seq<Variable>): (ns: seq<string>)
    ensures |ns| == LatentRandomCount(vars)
  {
    if vars == [] then []
    else (if IsLatentRandom(vars[0]) then [vars[0].name] else []) + LatentNames(vars[1..])
  }

  /** The posterior `construct_posterior_model` returns, or the ValueError it raises:
      ReverseKL's own, the inherited one of Wasserstein and Stein, None for maximum
      likelihood and the point-mass model for MAP. */
  function ConstructPosterior(s: Strategy, jointVars: seq<Variable>): (r: Result<ModelValue>)
    ensures r.Err? <==> (s.ReverseKL? || s.Wasserstein? || s.Stein?)
    ensures r.Err? ==> (r.error == LatentStructureUnknown <==> s.ReverseKL?) &&
                       (r.error == LatentStructureUnknown || r.error == ConstructionNotImplemented)
    ensures s.MaximumLikelihood? ==> r == Ok(NoModel)
    ensures s.MAP? ==> r.Ok? && r.value.Single? && Flatten(r.value.model) == MapPosteriorLeaves(jointVars)
  {
    match s
    case ReverseKL => Err(LatentStructureUnknown)
    case MaximumLikelihood => Ok(NoModel)
    case MAP => Ok(Single(ProbModel(MapPosteriorLeaves(jointVars))))
    case Wasserstein(_, _) => Err(ConstructionNotImplemented)
    case Stein => Err(ConstructionNotImplemented)
  }

  /** MAP's check: every leaf of the posterior is a root or deterministic variable. */
  predicate PointEstimatesOnly(leaves: seq<Variable>)
  {
    forall k :: 0 <= k < |leaves| ==> leaves[k].kind != RandomVariable
  }

  /** `check_model_compatibility`: None when it passes, else the exception it raises. Only
      Wasserstein (on the sampler) and MAP (on the posterior) check anything. */
  function CheckCompatibility(s: Strategy, posterior: ModelValue, sampler: ModelValue): (r: Option<Failure>)
    ensures (s.ReverseKL? || s.MaximumLikelihood? || s.Stein?) ==> r.None?
    ensures s.Wasserstein? ==> (r.None? <==> sampler.Many?)
    ensures s.MAP? ==> (r.None? <==> posterior.Single? && PointEstimatesOnly(Flatten(posterior.model)))
    ensures r.Some? ==> (r.value == MissingAttribute <==> s.MAP? && !posterior.Single?)
    ensures r.Some? ==> r.value == IncompatibleModels || r.value == MissingAttribute
  {
    match s
    case Wasserstein(_, _) => if sampler.Many? then None else Some(IncompatibleModels)
    case MAP =>
      if !posterior.Single? then Some(MissingAttribute)
      else if PointEstimatesOnly(Flatten(posterior.model)) then None
      else Some(IncompatibleModels)
    case _ => None
  }

  /** The posterior MAP constructs passes MAP's own check, whatever the joint model. */
  lemma MapConstructionPassesCheck(jointVars: seq<Variable>, sampler: ModelValue)
    ensures ConstructPosterior(MAP, jointVars).Ok?
    ensures CheckCompatibility(MAP, ConstructPosterior(MAP, jointVars).value, sampler).None?
  {
    var leaves := MapPosteriorLeaves(jointVars);
    forall k | 0 <= k < |leaves| ensures leaves[k].kind != RandomVariable {
      assert leaves[k] in leaves;
    }
  }

  /** MAP's check rejects a posterior model that has a random leaf, and accepts one that has none. */
  lemma MapCheckRejectsRandomLeaf(m: ProbModel, sampler: ModelValue)
    ensures CheckCompatibility(MAP, Single(m), sampler) == Some(IncompatibleModels) <==>
            exists k :: 0 <= k < |Flatten(m)| && Flatten(m)[k].kind == RandomVariable
    ensures CheckCompatibility(MAP, Single(m), sampler).None? <==>
            !exists k :: 0 <= k < |Flatten(m)| && Flatten(m)[k].kind == RandomVariable
  {
    var leaves := Flatten(m);
    if exists k :: 0 <= k < |leaves| && leaves[k].kind == RandomVariable {
      var k :| 0 <= k < |leaves| && leaves[k].kind == RandomVariable;
      assert !PointEstimatesOnly(leaves);
      assert CheckCompatibility(MAP, Single(m), sampler) == Some(IncompatibleModels);
      assert exists j :: 0 <= j < |Flatten(m)| && Flatten(m)[j].kind == RandomVariable;
    } else {
      assert PointEstimatesOnly(leaves);
      assert CheckCompatibility(MAP, Single(m), sampler) == None;
    }
  }

  // ---------------------------------------------------------------- Wasserstein

  /** `truncate_model(sampler, rule)` for each sampler zipped with the rule of its index. */
  function TruncatedSamplers(samplers: seq<ProbModel>, particleCount: nat): (r: seq<ProbModel>)
    ensures |r| == if |samplers| < particleCount then |samplers| else particleCount
    ensures forall i :: 0 <= i < |r| ==>
              r[i] == Truncated(samplers[i], Truncation.Rules(particleCount)[i].index)
  {
    var n := if |samplers| < particleCount then |samplers| else particleCount;
    seq(n, i requires 0 <= i < n => Truncated(samplers[i], i))
  }

  /** Sampler `i` of a Wasserstein method keeps a candidate row of statistics exactly
      when particle `i` holds the row's first minimum. */
  lemma TruncatedSamplerSelectsItsParticle(samplers: seq<ProbModel>, particles: seq<ProbModel>,
                                           i: nat, a: seq<int>)
    requires i < |TruncatedSamplers(samplers, |particles|)|
    requires |a| == |particles|
    ensures var rule := Truncation.Rules(|particles|)[TruncatedSamplers(samplers, |particles|)[i].rule];
            (Truncation.Accepts(rule, a) == Some(true) <==> i == Truncation.FirstMin(a))
  {
  }

  /** `inference_method.sampler_model`, or None where the attribute does not exist. */
  function SamplerAttribute(s: Strategy): (r: Option<ModelValue>)
    ensures r.Some? <==> s.Wasserstein?
    ensures r.Some? ==> r.value == Many(TruncatedSamplers(s.variationalSamplers, |s.particles|))
  {
    if s.Wasserstein? then Some(Many(TruncatedSamplers(s.variationalSamplers, |s.particles|)))
    else None
  }

  /** `set_posterior_model_after_inference`: the value it puts in the joint model's
      posterior slot, or the exception it raises (only ReverseKL and Wasserstein define it). */
  function SetPosteriorAfterInference(s: Strategy, posterior: ModelValue, sampler: ModelValue): (r: Result<ModelValue>)
    ensures r.Ok? <==> s.ReverseKL? || (s.Wasserstein? && posterior.Many? && sampler.Many?)
    ensures s.ReverseKL? ==> r == Ok(posterior)
    ensures r.Err? ==> (r.error == NotIterable <==> s.Wasserstein?) &&
                       (r.error == NotIterable || r.error == MissingAttribute)
    ensures r.Ok? && s.Wasserstein? ==> r.value.Ensemble? && |r.value.members| == |posterior.models|
  {
    match s
    case ReverseKL => Ok(posterior)
    case Wasserstein(_, _) =>
      if posterior.Many? && sampler.Many? then
        var ps, ss := posterior.models, sampler.models;
        Ok(Ensemble(seq(|ps|, i requires 0 <= i < |ps| => if i < |ss| then Some(ss[i]) else None)))
      else Err(NotIterable)
    case _ => Err(MissingAttribute)
  }

  /** Wasserstein installs one joint-model copy per particle; copy `i` gets sampler `i`
      as its posterior when there is one. */
  lemma WassersteinEnsemble(s: Strategy, ps: seq<ProbModel>, ss: seq<ProbModel>)
    requires s.Wasserstein?
    ensures SetPosteriorAfterInference(s, Many(ps), Many(ss)).Ok?
    ensures var e := SetPosteriorAfterInference(s, Many(ps), Many(ss)).value;
            e.Ensemble? && |e.members| == |ps| &&
            (forall i :: 0 <= i < |ps| ==> (e.members[i].Some? <==> i < |ss|)) &&
            (forall i :: 0 <= i < |ps| && i < |ss| ==> e.members[i].value == ss[i])
  {
  }

  /** Of the methods with a learnable posterior, MAP and Stein define no
      `set_posterior_model_after_inference`, so calling it raises AttributeError. */
  lemma SetPosteriorMissingFor(s: Strategy, posterior: ModelValue, sampler: ModelValue)
    ensures SetPosteriorAfterInference(s, posterior, sampler) == Err(MissingAttribute) <==>
            (s.MAP? || s.Stein? || s.MaximumLikelihood?)
  {
  }
}
