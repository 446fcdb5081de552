/**
 * The resolved configuration record the engine reads (`params`), and the payoff matrix lookup
 * `params[result]`.
 */
module Params {
  import opened Game

  /** Cap on the rounds of the courtship ("play") sub-loop of one pairing step. */
  const PlayMax: nat := 20

  /** `params["noisetype"]`: the source compares it with the strings "action" and "percept";
      any other string switches both noise kinds off. */
  datatype NoiseType = Action | Percept | OtherNoise(name: string)

  /** `params["sigmoid"]`: the source compares it with "piece-wise" and "smooth"; with any
      other string `decide` returns `None`. */
  datatype Sigmoid = PieceWise | Smooth | OtherSigmoid(name: string)

  /** The configuration fields the engine reads. `noise` is the probability compared against a
      uniform draw. `logistic` stands for `_sigmoid`, the smooth decision curve. */
  datatype Config = Config(
    population: nat,
    iterations: nat,
    deaths: real,
    mutation: real,
    noise: real,
    noiseType: NoiseType,
    playCost: real,
    deceitCost: real,
    divorceCost: real,
    allowPlay: bool,
    allowDeceit: bool,
    allowDivorce: bool,
    emotions: bool,
    sampleFreq: nat,
    reward: real,
    temptation: real,
    punishment: real,
    sucker: real,
    stdDevInitialTraitValue: real,
    initialTraitValue: real,
    sigmoid: Sigmoid,
    logistic: real -> real)

  /** `params[result]`: the payoff matrix entry for an outcome. */
  function Payoff(cfg: Config, o: Outcome): real {
    match o
    case R => cfg.reward
    case T => cfg.temptation
    case P => cfg.punishment
    case S => cfg.sucker
  }
}
