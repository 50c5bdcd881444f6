/** The values that the training loop of brancher/inference.py passes around,
    reduced to what its control flow inspects. */
module ModelTypes {

  datatype Option<+T> = None | Some(value: T)

  /** The outcome of a step that may raise one of the errors below. */
  datatype Result<+T> = Ok(value: T) | Err(error: Failure)

  /** The classes of leaf variable that MAP tells apart. */
  datatype VarKind = RandomVariable | DeterministicVariable | RootVariable

  /** A leaf variable of a probabilistic model: its name, its class and whether data is bound to it. */
  datatype Variable = Variable(name: string, kind: VarKind, observed: bool)

  /** A probabilistic model, seen through its leaf variables; `Truncated` is a sampler
      wrapped by `truncate_model` with the truncation rule of the given particle index. */
  datatype ProbModel =
    | ProbModel(leaves: seq<Variable>)
    | Truncated(base: ProbModel, rule: nat)

  /** `model.flatten()`: the leaf variables of a model. */
  function Flatten(m: ProbModel): seq<Variable>
  {
    match m
    case ProbModel(leaves) => leaves
    case Truncated(base, _) => Flatten(base)
  }

  /** A Python value found in a posterior or sampler argument or in the joint model's posterior slot. */
  datatype ModelValue =
    | NoModel                                   // None
    | Single(model: ProbModel)                  // one model
    | Many(models: seq<ProbModel>)              // a list of models (particles or samplers)
    | Ensemble(members: seq<Option<ProbModel>>) // an Ensemble of joint-model copies, each with this posterior

  /** Python truthiness of such a value: None and the empty list are falsy. */
  predicate Falsy(v: ModelValue)
  {
    v.NoModel? || (v.Many? && |v.models| == 0)
  }

  /** The value `compute_loss` returned on one iteration; only its finiteness steers the loop. */
  datatype Loss = Finite(value: real) | NonFinite

  /** An entry of `loss_list`: the flattened copy appended inside the finite branch,
      or the plain copy appended on every iteration. */
  datatype Entry = Flattened(loss: Loss) | Plain(loss: Loss)

  /** The three models an optimizer can be built for, in the order they are tried. */
  datatype Role = PosteriorRole | JointRole | SamplerRole

  /** Calls on collaborators, warnings and state writes, in the order perform_inference makes them. */
  datatype Event =
    | DefaultMethodWarning
    | ConstructPosteriorModel
    | UpdateObservedSubmodel
    | MakeOptimizer(role: Role)
    | CheckModelCompatibility
    | ComputeLoss(iteration: nat)
    | ZeroGrad(role: Role, iteration: nat)
    | Backward(iteration: nat)
    | CorrectGradient(iteration: nat)
    | Update(role: Role, iteration: nat)
    | NumericalWarning(iteration: nat)
    | WriteLossCurve
    | PostProcess
    | SetPosteriorModelAfterInference

  /** The exceptions that escape perform_inference. */
  datatype Failure =
    | LatentStructureUnknown      // ValueError raised by ReverseKL.construct_posterior_model
    | ConstructionNotImplemented  // ValueError raised by InferenceMethod.construct_posterior_model
    | IncompatibleModels          // AssertionError raised by a check_model_compatibility
    | MissingAttribute            // AttributeError: a method the strategy or the value does not have
    | NotIterable                 // TypeError: iterating over something that is not a list
    | NoOptimizer                 // IndexError on optimizers_list[0]
}
