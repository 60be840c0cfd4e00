/** The interface of the `ml::lvq` engine the binding drives. The engine
    itself is not part of this model: its operations are function values over
    an engine state `S` that nothing here looks inside, and every one of them
    may throw. */
module Lvq {
  import opened Outcomes
  import opened PyObjects

  /** An extended real (`math::realx`): a defined value or the undefined marker. */
  datatype RealX = Undef | Def(x: real)

  /** `lvq_t::input_t`: a fixed-rank vector of extended reals; its rank is its length. */
  type Input = seq<RealX>

  /** `lvq_t::cw_t`: a (cluster, weight) pair. */
  datatype ClusterWeight = ClusterWeight(cluster: SizeT, weight: real)

  /** One element of `training_set_t`: an input with its cluster label. */
  datatype Record = Record(input: Input, cluster: SizeT)

  type TrainingSet = seq<Record>

  /** What a mutating engine call leaves behind: the engine's state after the
      call (whatever it changed before throwing is its own business) and its outcome. */
  datatype Step<S, T> = Step(after: S, out: Result<T>)

  /** The engine operations the binding calls, one field per `ml::lvq` member. */
  datatype Engine<!S> = Engine(
    construct: (SizeT, SizeT) -> Result<S>,                        // new lvq_t(dimension, clusters)
    setRep: (S, Input, SizeT) -> Step<S, ()>,                        // lvq.set(input, cluster)
    getRep: (S, SizeT) -> Result<Input>,                              // lvq.get(cluster)
    train1: (S, Input, SizeT, real) -> Step<S, real>,             // lvq.train1(input, cluster, lfactor)
    train: (S, TrainingSet, UInt, UInt, UInt) -> Step<S, ()>,     // lvq.train(set, conv_win, max_div_cnt, max_tlc)
    classify: (S, Input) -> Result<SizeT>,                         // lvq.classify(input)
    classifyWeight: (S, Input) -> Result<seq<real>>,               // lvq.classify_weight(input)
    best: (seq<real>, SizeT) -> Result<seq<ClusterWeight>>,        // static lvq_t::best(weight, n)
    classifyBest: (S, Input, SizeT) -> Result<seq<ClusterWeight>>, // lvq.classify_best(input, n)
    weightThreshold: (seq<real>, real) -> Result<seq<ClusterWeight>>,         // static lvq_t::weight_threshold
    classifyWeightThreshold: (S, Input, real) -> Result<seq<ClusterWeight>>,  // lvq.classify_weight_threshold
    learnRate: (S, TrainingSet) -> Result<real>                    // lvq.learn_rate(set)
  )
}
