/** The two interest behaviours an account can be bound to. */
module Interest {

  /** InterestFacility.INTEREST_PERCENTAGE. */
  const INTEREST_PERCENTAGE: real := 1.003

  /** Neither behaviour has fields, so each is a plain value. */
  datatype InterestBehavior = NoInterestFacility | InterestFacility {

    /** The amount that Account.calculateInterest adds to the balance. */
    function Calculate(balance: real): (r: real)
      ensures NoInterestFacility? ==> r == 0.0
      ensures InterestFacility? ==> (r == 0.0 <==> balance == 0.0)
      ensures InterestFacility? && balance > 0.0 ==> r > balance
    {
      match this
      case NoInterestFacility => 0.0
      case InterestFacility => balance * INTEREST_PERCENTAGE
    }
  }

  /**
   * The behaviour bound to CURRENT accounts yields nothing, whatever the
   * balance: the all-balances lemma form of Calculate's first ensures.
   */
  lemma NoInterestYieldsNothing(b: real)
    ensures NoInterestFacility.Calculate(b) == 0.0
  {
  }

  /** Adding the whole returned amount to a balance b gives 2.003 * b with interest, b without. */
  lemma BalanceAfterInterest(behavior: InterestBehavior, b: real)
    ensures behavior.InterestFacility? ==> b + behavior.Calculate(b) == 2.003 * b
    ensures behavior.NoInterestFacility? ==> b + behavior.Calculate(b) == b
  {
  }
}
