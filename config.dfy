/**
  The solver configuration of the command-line front end: the configuration document, the
  solver `Builder` it is applied to, and the functions that map each optional section of the
  document onto the builder. Strategy objects are represented by descriptors that record which
  strategy is built and with which parameters.
*/
module SolveConfig {
  import opened Wrappers
  import ClusterRuin

  // ---------------------------------------------------------------------------------------
  // The configuration document
  // ---------------------------------------------------------------------------------------

  /** The whole document: every section is optional. */
  datatype Config = Config(
    population: Option<PopulationConfig>,
    mutation: Option<MutationConfig>,
    termination: Option<TerminationConfig>,
    logging: Option<LoggingConfig>)

  /** The only mutation kind: a ruin-and-recreate mutation. */
  datatype MutationConfig = RuinRecreate(ruins: seq<ConfigRuinGroup>, recreates: seq<RecreateMethod>)

  /** A weighted group of ruin methods. */
  datatype ConfigRuinGroup = ConfigRuinGroup(methods: seq<RuinMethod>, weight: nat)

  /** Ruin methods with their probability and their own parameters. */
  datatype RuinMethod =
    | AdjustedString(probability: real, lmax: nat, cavg: nat, alpha: real)
    | Neighbour(probability: real, min: nat, max: nat, threshold: real)
    | RandomJob(probability: real, min: nat, max: nat, threshold: real)
    | RandomRoute(probability: real, min: nat, max: nat, threshold: real)
    | WorstJob(probability: real, min: nat, max: nat, threshold: real, skip: nat)
    | Cluster(probability: real, min: nat, max: nat, threshold: real, cmin: nat, cmax: nat)

  /** Recreate methods with their weight and their own parameters. */
  datatype RecreateMethod =
    | Cheapest(weight: nat)
    | Regret(weight: nat, start: nat, end: nat)
    | Blinks(weight: nat)
    | Gaps(weight: nat, min: nat)
    | Nearest(weight: nat)

  datatype PopulationConfig = PopulationConfig(
    initialMethods: Option<seq<RecreateMethod>>,
    initialSize: Option<nat>,
    populationSize: Option<nat>,
    offspringSize: Option<nat>,
    eliteSize: Option<nat>)

  datatype TerminationConfig = TerminationConfig(
    maxTime: Option<nat>,
    maxGenerations: Option<nat>,
    variation: Option<VariationConfig>)

  datatype VariationConfig = VariationConfig(sample: nat, cv: real)

  datatype LoggingConfig = LoggingConfig(enabled: bool)

  // ---------------------------------------------------------------------------------------
  // Strategy descriptors and the builder
  // ---------------------------------------------------------------------------------------

  /** Which recreate strategy is built, with its parameters. */
  datatype RecreateStrategy =
    | RecreateWithCheapest
    | RecreateWithRegret(start: nat, end: nat)
    | RecreateWithBlinks
    | RecreateWithGaps(min: nat)
    | RecreateWithNearestNeighbor

  /** The job removal limit shared by several ruin strategies. */
  datatype JobRemovalLimit = JobRemovalLimit(min: nat, max: nat, threshold: real)

  /** Which ruin strategy is built, with its parameters. */
  datatype RuinStrategy =
    | AdjustedStringRemoval(lmax: nat, cavg: nat, alpha: real)
    | NeighbourRemoval(limit: JobRemovalLimit)
    | RandomJobRemoval(limit: JobRemovalLimit)
    | RandomRouteRemoval(min: nat, max: nat, threshold: real)
    | WorstJobRemoval(skip: nat, limit: JobRemovalLimit)
    | ClusterRemoval(problem: ClusterRuin.Problem, cmin: nat, cmax: nat, limit: JobRemovalLimit)

  /** A weighted recreate strategy. */
  type WeightedRecreate = (RecreateStrategy, nat)

  /** A ruin strategy with its probability. */
  type ProbableRuin = (RuinStrategy, real)

  /** A ruin group: its methods in order, and its weight. */
  type RuinGroup = (seq<ProbableRuin>, nat)

  /** A ruin-and-recreate mutation: a composite recreate and a composite ruin. */
  datatype Mutation = RuinAndRecreate(recreates: seq<WeightedRecreate>, ruins: seq<RuinGroup>)

  /** The logger installed when logging is disabled: it discards every message. */
  datatype Logger = NoOpLogger

  /** A builder setting: left at the value `Builder::new` chose, or set through a `with_*` call. */
  datatype Setting<T> = Default | Set(value: T)

  /** The solver builder: the problem, plus every setting the configuration can touch. */
  datatype Builder = Builder(
    problem: ClusterRuin.Problem,
    logger: Setting<Logger>,
    initialMethods: Setting<seq<WeightedRecreate>>,
    initialSize: Setting<nat>,
    populationSize: Setting<nat>,
    eliteSize: Setting<nat>,
    offspringSize: Setting<nat>,
    mutation: Setting<Mutation>,
    maxTime: Setting<Option<nat>>,
    maxGenerations: Setting<Option<nat>>,
    costVariation: Setting<Option<(nat, real)>>)

  /** `Builder::new(problem)`: the problem, and every setting at its default. */
  function NewBuilder(problem: ClusterRuin.Problem): (b: Builder)
    ensures b.problem == problem
    ensures b.logger.Default? && b.initialMethods.Default? && b.initialSize.Default?
    ensures b.populationSize.Default? && b.eliteSize.Default? && b.offspringSize.Default?
    ensures b.mutation.Default? && b.maxTime.Default? && b.maxGenerations.Default? && b.costVariation.Default?
  {
    Builder(problem, Default, Default, Default, Default, Default, Default, Default, Default, Default, Default)
  }

  // ---------------------------------------------------------------------------------------
  // Strategy creation
  // ---------------------------------------------------------------------------------------

  /** The recreate method a strategy and weight were built from (the inverse of `CreateRecreateMethod`). */
  function RecreateMethodOf(strategy: RecreateStrategy, weight: nat): RecreateMethod
  {
    match strategy
    case RecreateWithCheapest => Cheapest(weight)
    case RecreateWithRegret(start, end) => Regret(weight, start, end)
    case RecreateWithBlinks => Blinks(weight)
    case RecreateWithGaps(min) => Gaps(weight, min)
    case RecreateWithNearestNeighbor => Nearest(weight)
  }

  /**
    `create_recreate_method`: the strategy of the method's variant with the method's parameters,
    paired with the configured weight. Nothing is lost: the method can be read back.
  */
  function CreateRecreateMethod(m: RecreateMethod): (r: WeightedRecreate)
    ensures r.1 == m.weight
    ensures RecreateMethodOf(r.0, r.1) == m
  {
    match m
    case Cheapest(weight) => (RecreateWithCheapest, weight)
    case Regret(weight, start, end) => (RecreateWithRegret(start, end), weight)
    case Blinks(weight) => (RecreateWithBlinks, weight)
    case Gaps(weight, min) => (RecreateWithGaps(min), weight)
    case Nearest(weight) => (RecreateWithNearestNeighbor, weight)
  }

  /** The ruin method a strategy and probability were built from (the inverse of `CreateRuinMethod`). */
  function RuinMethodOf(strategy: RuinStrategy, probability: real): RuinMethod
  {
    match strategy
    case AdjustedStringRemoval(lmax, cavg, alpha) => AdjustedString(probability, lmax, cavg, alpha)
    case NeighbourRemoval(limit) => Neighbour(probability, limit.min, limit.max, limit.threshold)
    case RandomJobRemoval(limit) => RandomJob(probability, limit.min, limit.max, limit.threshold)
    case RandomRouteRemoval(min, max, threshold) => RandomRoute(probability, min, max, threshold)
    case WorstJobRemoval(skip, limit) => WorstJob(probability, limit.min, limit.max, limit.threshold, skip)
    case ClusterRemoval(_, cmin, cmax, limit) => Cluster(probability, limit.min, limit.max, limit.threshold, cmin, cmax)
  }

  /** The ruin methods whose strategy takes a job removal limit. */
  predicate HasJobRemovalLimit(m: RuinMethod)
  {
    m.Neighbour? || m.RandomJob? || m.WorstJob? || m.Cluster?
  }

  /**
    `create_ruin_method`: the strategy of the method's variant, with min, max and threshold
    passed into its removal limit, paired with the configured probability. The method can be
    read back, and a cluster strategy is built over the given problem.
  */
  function CreateRuinMethod(problem: ClusterRuin.Problem, m: RuinMethod): (r: ProbableRuin)
    ensures r.1 == m.probability
    ensures RuinMethodOf(r.0, r.1) == m
    ensures HasJobRemovalLimit(m) ==> r.0.limit == JobRemovalLimit(m.min, m.max, m.threshold)
    ensures r.0.ClusterRemoval? <==> m.Cluster?
    ensures r.0.ClusterRemoval? ==> r.0.problem == problem
  {
    match m
    case AdjustedString(probability, lmax, cavg, alpha) =>
      (AdjustedStringRemoval(lmax, cavg, alpha), probability)
    case Neighbour(probability, min, max, threshold) =>
      (NeighbourRemoval(JobRemovalLimit(min, max, threshold)), probability)
    case RandomJob(probability, min, max, threshold) =>
      (RandomJobRemoval(JobRemovalLimit(min, max, threshold)), probability)
    case RandomRoute(probability, min, max, threshold) =>
      (RandomRouteRemoval(min, max, threshold), probability)
    case WorstJob(probability, min, max, threshold, skip) =>
      (WorstJobRemoval(skip, JobRemovalLimit(min, max, threshold)), probability)
    case Cluster(probability, min, max, threshold, cmin, cmax) =>
      (ClusterRemoval(problem, cmin, cmax, JobRemovalLimit(min, max, threshold)), probability)
  }

  /** Distinct recreate methods give distinct strategies or weights. */
  lemma CreateRecreateMethodInjective(m1: RecreateMethod, m2: RecreateMethod)
    requires CreateRecreateMethod(m1) == CreateRecreateMethod(m2)
    ensures m1 == m2
  {
    assert RecreateMethodOf(CreateRecreateMethod(m1).0, CreateRecreateMethod(m1).1) == m1;
  }

  /** Distinct ruin methods give distinct strategies or probabilities. */
  lemma CreateRuinMethodInjective(problem: ClusterRuin.Problem, m1: RuinMethod, m2: RuinMethod)
    requires CreateRuinMethod(problem, m1) == CreateRuinMethod(problem, m2)
    ensures m1 == m2
  {
    var r := CreateRuinMethod(problem, m1);
    assert RuinMethodOf(r.0, r.1) == m1;
  }

  /** The recreate methods, mapped one by one and in order (`methods.iter().map(..).collect()`). */
  function CreateRecreateMethods(methods: seq<RecreateMethod>): (r: seq<WeightedRecreate>)
    ensures |r| == |methods|
    ensures forall i :: 0 <= i < |r| ==> r[i] == CreateRecreateMethod(methods[i])
    ensures forall i :: 0 <= i < |r| ==> r[i].1 == methods[i].weight
  {
    if methods == [] then [] else [CreateRecreateMethod(methods[0])] + CreateRecreateMethods(methods[1..])
  }

  /** The ruin methods of a group, mapped one by one and in order. */
  function CreateRuinMethods(problem: ClusterRuin.Problem, methods: seq<RuinMethod>): (r: seq<ProbableRuin>)
    ensures |r| == |methods|
    ensures forall i :: 0 <= i < |r| ==> r[i] == CreateRuinMethod(problem, methods[i])
    ensures forall i :: 0 <= i < |r| ==> r[i].1 == methods[i].probability
  {
    if methods == [] then [] else [CreateRuinMethod(problem, methods[0])] + CreateRuinMethods(problem, methods[1..])
  }

  /** `create_ruin_group`: the group's methods, mapped in order, with the group's weight. */
  function CreateRuinGroup(problem: ClusterRuin.Problem, group: ConfigRuinGroup): (r: RuinGroup)
    ensures |r.0| == |group.methods| && r.1 == group.weight
    ensures forall i :: 0 <= i < |r.0| ==> r.0[i] == CreateRuinMethod(problem, group.methods[i])
  {
    (CreateRuinMethods(problem, group.methods), group.weight)
  }

  /** The ruin groups, mapped one by one and in order. */
  function CreateRuinGroups(problem: ClusterRuin.Problem, groups: seq<ConfigRuinGroup>): (r: seq<RuinGroup>)
    ensures |r| == |groups|
    ensures forall i :: 0 <= i < |r| ==> r[i] == CreateRuinGroup(problem, groups[i])
    ensures forall i :: 0 <= i < |r| ==> r[i].1 == groups[i].weight && |r[i].0| == |groups[i].methods|
  {
    if groups == [] then [] else [CreateRuinGroup(problem, groups[0])] + CreateRuinGroups(problem, groups[1..])
  }

  /** The mutation a ruin-and-recreate section builds over `problem`. */
  function CreateMutation(problem: ClusterRuin.Problem, config: MutationConfig): (m: Mutation)
    ensures |m.recreates| == |config.recreates| && |m.ruins| == |config.ruins|
    ensures forall i :: 0 <= i < |m.recreates| ==> m.recreates[i] == CreateRecreateMethod(config.recreates[i])
    ensures forall i :: 0 <= i < |m.ruins| ==> m.ruins[i] == CreateRuinGroup(problem, config.ruins[i])
  {
    RuinAndRecreate(CreateRecreateMethods(config.recreates), CreateRuinGroups(problem, config.ruins))
  }

  // ---------------------------------------------------------------------------------------
  // Applying the sections to the builder
  // ---------------------------------------------------------------------------------------

  /** A setting after an optional `with_*` call: overwritten when a value is present, kept otherwise. */
  function Override<T>(current: Setting<T>, value: Option<T>): (r: Setting<T>)
    ensures value.None? ==> r == current
    ensures value.Some? ==> r == Set(value.value)
  {
    if value.Some? then Set(value.value) else current
  }

  /** `b` and `r` agree on everything but the population settings. */
  predicate SameOutsidePopulation(b: Builder, r: Builder)
  {
    r.(initialMethods := b.initialMethods, initialSize := b.initialSize, populationSize := b.populationSize,
       eliteSize := b.eliteSize, offspringSize := b.offspringSize) == b
  }

  /**
    `configure_from_population`: an absent section leaves the builder unchanged; in a present
    one, each field that is present overwrites its setting and each absent one leaves it alone.
  */
  function ConfigureFromPopulation(b: Builder, config: Option<PopulationConfig>): (r: Builder)
    ensures config.None? ==> r == b
    ensures SameOutsidePopulation(b, r)
    ensures config.Some? ==>
      var c := config.value;
      && r.initialMethods == (if c.initialMethods.Some? then Set(CreateRecreateMethods(c.initialMethods.value)) else b.initialMethods)
      && r.initialSize == Override(b.initialSize, c.initialSize)
      && r.populationSize == Override(b.populationSize, c.populationSize)
      && r.eliteSize == Override(b.eliteSize, c.eliteSize)
      && r.offspringSize == Override(b.offspringSize, c.offspringSize)
  {
    if config.None? then
      b
    else
      var c := config.value;
      var b := if c.initialMethods.Some? then b.(initialMethods := Set(CreateRecreateMethods(c.initialMethods.value))) else b;
      var b := if c.initialSize.Some? then b.(initialSize := Set(c.initialSize.value)) else b;
      var b := if c.populationSize.Some? then b.(populationSize := Set(c.populationSize.value)) else b;
      var b := if c.eliteSize.Some? then b.(eliteSize := Set(c.eliteSize.value)) else b;
      var b := if c.offspringSize.Some? then b.(offspringSize := Set(c.offspringSize.value)) else b;
      b
  }

  /**
    `configure_from_mutation`: an absent section leaves the builder unchanged; a present one
    sets the mutation, built over the builder's own problem, and touches nothing else.
  */
  function ConfigureFromMutation(b: Builder, config: Option<MutationConfig>): (r: Builder)
    ensures config.None? ==> r == b
    ensures r.(mutation := b.mutation) == b
    ensures config.Some? ==> r.mutation == Set(CreateMutation(b.problem, config.value))
  {
    if config.None? then b else b.(mutation := Set(CreateMutation(b.problem, config.value)))
  }

  /**
    `configure_from_termination`: an absent section leaves the builder unchanged; a present one
    overwrites max time, max generations and cost variation, each even with `None`.
  */
  function ConfigureFromTermination(b: Builder, config: Option<TerminationConfig>): (r: Builder)
    ensures config.None? ==> r == b
    ensures r.(maxTime := b.maxTime, maxGenerations := b.maxGenerations, costVariation := b.costVariation) == b
    ensures config.Some? ==>
      var c := config.value;
      && r.maxTime == Set(c.maxTime)
      && r.maxGenerations == Set(c.maxGenerations)
      && r.costVariation == Set(if c.variation.Some? then Some((c.variation.value.sample, c.variation.value.cv)) else None)
  {
    if config.None? then
      b
    else
      var c := config.value;
      var b := b.(maxTime := Set(c.maxTime));
      var b := b.(maxGenerations := Set(c.maxGenerations));
      b.(costVariation := Set(if c.variation.Some? then Some((c.variation.value.sample, c.variation.value.cv)) else None))
  }

  /**
    `configure_from_logging`: logging is on unless the section says `enabled: false`; only then
    is the no-op logger installed, otherwise the builder is returned unchanged.
  */
  function ConfigureFromLogging(b: Builder, config: Option<LoggingConfig>): (r: Builder)
    ensures config.None? || config.value.enabled ==> r == b
    ensures config == Some(LoggingConfig(false)) ==> r == b.(logger := Set(NoOpLogger))
  {
    var isEnabled := if config.Some? then config.value.enabled else true;
    if !isEnabled then b.(logger := Set(NoOpLogger)) else b
  }

  /** Logging, population, mutation and termination, applied in this order to `b`. */
  function ApplyConfig(b: Builder, config: Config): Builder
  {
    var b := ConfigureFromLogging(b, config.logging);
    var b := ConfigureFromPopulation(b, config.population);
    var b := ConfigureFromMutation(b, config.mutation);
    ConfigureFromTermination(b, config.termination)
  }

  /**
    `create_builder_from_config`: always `Ok`; the builder is over the given problem, and each
    setting is the one its section of the document gives, or the default when it gives none.
  */
  function CreateBuilderFromConfig(problem: ClusterRuin.Problem, config: Config): (r: Result<Builder>)
    ensures r.Ok?
    ensures r.value.problem == problem
    ensures r.value.logger == (if config.logging == Some(LoggingConfig(false)) then Set(NoOpLogger) else Default)
    ensures r.value.mutation == (if config.mutation.Some? then Set(CreateMutation(problem, config.mutation.value)) else Default)
    ensures config.termination.None? ==>
      r.value.maxTime.Default? && r.value.maxGenerations.Default? && r.value.costVariation.Default?
    ensures config.termination.Some? ==>
      var c := config.termination.value;
      && r.value.maxTime == Set(c.maxTime) && r.value.maxGenerations == Set(c.maxGenerations)
      && r.value.costVariation == Set(if c.variation.Some? then Some((c.variation.value.sample, c.variation.value.cv)) else None)
    ensures config.population.None? ==>
      && r.value.initialMethods.Default? && r.value.initialSize.Default? && r.value.populationSize.Default?
      && r.value.eliteSize.Default? && r.value.offspringSize.Default?
    ensures config.population.Some? ==>
      var c := config.population.value;
      && r.value.initialMethods == (if c.initialMethods.Some? then Set(CreateRecreateMethods(c.initialMethods.value)) else Default)
      && r.value.initialSize == Override(Default, c.initialSize)
      && r.value.populationSize == Override(Default, c.populationSize)
      && r.value.eliteSize == Override(Default, c.eliteSize)
      && r.value.offspringSize == Override(Default, c.offspringSize)
  {
    Ok(ApplyConfig(NewBuilder(problem), config))
  }

  /**
    The sections touch disjoint settings, so their order does not matter: applying them in
    reverse order gives the same builder.
  */
  lemma SectionOrderIrrelevant(b: Builder, config: Config)
    ensures ApplyConfig(b, config) ==
      ConfigureFromLogging(
        ConfigureFromPopulation(
          ConfigureFromMutation(
            ConfigureFromTermination(b, config.termination),
            config.mutation),
          config.population),
        config.logging)
  {
  }

  /** Applying a configuration twice gives the same builder as applying it once. */
  lemma ApplyConfigIdempotent(b: Builder, config: Config)
    ensures ApplyConfig(ApplyConfig(b, config), config) == ApplyConfig(b, config)
  {
  }

  /**
    A document with an initial population of one method and size 1, and a termination section
    with a time limit of 300, a generation limit of 3000 and a variation, gives a builder over
    the same problem with exactly those settings.
  */
  lemma BuilderFromFullConfig(problem: ClusterRuin.Problem, config: Config, m: RecreateMethod, variation: VariationConfig)
    requires config.population.Some? && config.population.value.initialSize == Some(1)
    requires config.population.value.initialMethods == Some([m])
    requires config.termination == Some(TerminationConfig(Some(300), Some(3000), Some(variation)))
    ensures var b := CreateBuilderFromConfig(problem, config).value;
      && b.problem == problem
      && b.costVariation.Set? && b.costVariation.value.Some?
      && b.initialSize == Set(1)
      && b.initialMethods.Set? && |b.initialMethods.value| == 1
      && b.maxTime == Set(Some(300)) && b.maxGenerations == Set(Some(3000))
  {
  }
}
