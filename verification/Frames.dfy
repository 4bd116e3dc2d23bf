/** What the frame analyser measures; every detector reads this. */
module Frames {

  datatype Option<+T> = None | Some(value: T)

  const MAX_UINT64: nat := 0xFFFF_FFFF_FFFF_FFFF

  type Sequence = n: nat | n <= MAX_UINT64

  /** Times are media nanoseconds, except arrival, which is wall-clock. F is the number type. */
  datatype Frame<F> = Frame(
    sequence: Sequence,
    timestamp: int,
    duration: int,
    arrival: Option<int>,
    rms: F,
    energy: F,
    zcr: F,
    clipRatio: F,
    synthesised: bool)
  {
    function End(): int { timestamp + duration }
  }
}
