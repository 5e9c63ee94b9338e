/** The snack dispenser: a servo gate closed on construction, opened to 90
    degrees and closed again on each delivery. */
module SnackDelivery {

  import opened Commands

  const ClosedAngle: int := 0
  const OpenAngle: int := 90

  const CloseGate: Command := SetAngle(ClosedAngle)
  const OpenGate: Command := SetAngle(OpenAngle)

  /** The servo commands after construction and `gives` deliveries. */
  function ServoLog(gives: nat): seq<Command>
  {
    [CloseGate] + Pairs(OpenGate, CloseGate, gives)
  }

  /** However many deliveries have run, the last command closed the gate. */
  lemma GateClosedAfterEveryDelivery(gives: nat)
    ensures ServoLog(gives)[|ServoLog(gives)| - 1] == CloseGate
  {
  }

  /** Every delivery opens the gate exactly once and closes it once more. */
  lemma OpenedOncePerDelivery(gives: nat)
    ensures multiset(ServoLog(gives))[OpenGate] == gives
    ensures multiset(ServoLog(gives))[CloseGate] == gives + 1
  {
    PairsCount(OpenGate, CloseGate, gives);
    assert multiset(ServoLog(gives)) == multiset{CloseGate} + multiset(Pairs(OpenGate, CloseGate, gives));
  }

  class Delivery {
    /** The angle the servo was last commanded to. */
    var angle: int
    /** The commands sent to the servo, in order. */
    var trace: seq<Command>
    /** The number of completed deliveries. */
    ghost var gives: nat

    ghost predicate Valid()
      reads this
    {
      && trace == ServoLog(gives)
      && angle == ClosedAngle
    }

    constructor ()
      ensures Valid()
      ensures gives == 0 && trace == [CloseGate] && angle == ClosedAngle
    {
      angle := 0;
      trace := [SetAngle(0)];
      gives := 0;
    }

    /** Open the gate, let the snack drop, close the gate. */
    method Give()
      requires Valid()
      modifies this
      ensures Valid()
      ensures gives == old(gives) + 1
      ensures trace == old(trace) + [OpenGate, CloseGate]
      ensures angle == ClosedAngle
    {
      angle := 90;
      trace := trace + [SetAngle(90)];
      angle := 0;
      trace := trace + [SetAngle(0)];
      gives := gives + 1;
    }
  }

}
