/** The vocabulary of commands: states, results, and the mode bits of a command loop. */
module CommandTypes {

  datatype Status = INACTIVE | ACTIVE | SUSPENDED | FINISHED

  datatype CommandResult = SUCCESS | FAILED | ABORTED

  /** The three mode bits, decoded. */
  datatype LoopMode = LoopMode(continuous: bool, multiCommand: bool, transaction: bool)

  const CONTINUOUS: bv32 := 1
  const MULTI_COMMAND: bv32 := 2
  const TRANSACTION: bv32 := 4

  /** `operator &` of the mode bits: true when the two values share a bit. */
  predicate Has(left: bv32, right: bv32) {
    left & right != 0
  }

  function Decode(bits: bv32): LoopMode {
    LoopMode(Has(CONTINUOUS, bits), Has(MULTI_COMMAND, bits), Has(TRANSACTION, bits))
  }

  function Encode(mode: LoopMode): bv32 {
    (if mode.continuous then CONTINUOUS else 0)
    | (if mode.multiCommand then MULTI_COMMAND else 0)
    | (if mode.transaction then TRANSACTION else 0)
  }

  /** Every branch of a loop tests one flag: combining modes never loses nor invents one. */
  lemma ModeRoundTrip(mode: LoopMode, a: bv32, b: bv32)
    ensures Decode(Encode(mode)) == mode
    ensures Decode(a | b) == LoopMode(Decode(a).continuous || Decode(b).continuous,
                                      Decode(a).multiCommand || Decode(b).multiCommand,
                                      Decode(a).transaction || Decode(b).transaction)
  {
  }
}
