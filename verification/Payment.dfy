/** The payment provider: idempotent on its key, and sometimes unable to say what
    happened. */
module Payment {
  import opened EventSeats

  datatype ChargeStatus = Captured | Declined | Unknown

  /** The provider's three dice, in the order they are rolled. */
  datatype Dice = Dice(fails: bool, ambiguous: bool, timesOut: bool)

  /** (user, order, hold), hashed in the source; taken as injective. */
  datatype ChargeKey = ChargeKey(user: string, order: OrderId, hold: HoldId)

  /** reference says whether the answer carried a provider reference. */
  datatype ChargeResult = ChargeResult(status: ChargeStatus, reference: bool, captures: bool)

  function Charged(already: bool, dice: Dice): (c: ChargeResult)
    ensures already ==> c == ChargeResult(Captured, true, true)
    ensures c.status == Captured ==> c.captures
    ensures c.status == Declined <==> !already && dice.fails
    ensures c.status == Unknown <==> !already && !dice.fails && (dice.ambiguous || dice.timesOut)
    ensures c.captures <==> already || (!dice.fails && (dice.ambiguous || !dice.timesOut))
    ensures c.reference <==> c.captures
  {
    if already then ChargeResult(Captured, true, true)
    else if dice.fails then ChargeResult(Declined, false, false)
    else if dice.ambiguous then ChargeResult(Unknown, true, true)
    else if dice.timesOut then ChargeResult(Unknown, false, false)
    else ChargeResult(Captured, true, true)
  }

  class Provider {
    var captured: set<ChargeKey>

    constructor ()
      ensures captured == {}
    {
      captured := {};
    }

    /** Captures at most this key, never un-captures one, and answers a captured
        key the same way for ever after. */
    method Charge(key: ChargeKey, dice: Dice) returns (r: ChargeResult)
      modifies this
      ensures r == Charged(key in old(captured), dice)
      ensures captured == if r.captures then old(captured) + {key} else old(captured)
    {
      if key in captured { return ChargeResult(Captured, true, true); }
      if dice.fails { return ChargeResult(Declined, false, false); }
      if dice.ambiguous {
        captured := captured + {key};
        return ChargeResult(Unknown, true, true);
      }
      if dice.timesOut { return ChargeResult(Unknown, false, false); }
      captured := captured + {key};
      return ChargeResult(Captured, true, true);
    }

    /** What became of a charge nobody is sure about; never Unknown. */
    method StatusOf(key: ChargeKey) returns (status: ChargeStatus)
      ensures status == Captured <==> key in captured
      ensures status == Declined <==> key !in captured
    {
      status := if key in captured then Captured else Declined;
    }
  }
}
