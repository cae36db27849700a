/**
 * The `Action` bit flags of middleware.go: one type that is both what a
 * middleware decides and the cumulative status a context carries.
 *
 * Go's `Action` is an `int` (64 bits on the platforms the gateway targets);
 * the engine only ever combines actions with `&`, `|` and `==`, so a 64-bit
 * bit-vector models it exactly, including the values outside the four named
 * constants that a handler is free to return.
 */
module Actions {

  type Action = bv64

  const Pass: Action := 1
  const Reject: Action := 2
  const Deliver: Action := 4
  const Quarantine: Action := 8

  /** Skip masks: skip a middleware when the status already carries this flag. */
  const IgnoreDeliver: Action := Deliver
  const IgnoreQuarantine: Action := Quarantine
  const DefaultIgnoreFlags: Action := IgnoreDeliver | IgnoreQuarantine

  /** Exactly one bit is set. */
  predicate SingleBit(a: Action) {
    a != 0 && a & (a - 1) == 0
  }

  /** The four actions are distinct single bits, and the default skip mask
      is made of the two disposition bits only. */
  lemma ActionsAreDistinctBits()
    ensures SingleBit(Pass) && SingleBit(Reject) && SingleBit(Deliver) && SingleBit(Quarantine)
    ensures Pass & Reject == 0 && Pass & Deliver == 0 && Pass & Quarantine == 0
    ensures Reject & Deliver == 0 && Reject & Quarantine == 0 && Deliver & Quarantine == 0
    ensures DefaultIgnoreFlags == Deliver | Quarantine
    ensures DefaultIgnoreFlags & Pass == 0 && DefaultIgnoreFlags & Reject == 0
  {
  }
}
