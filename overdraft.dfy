/** The two overdraft behaviours an account can be bound to. */
module Overdraft {
  import opened Outcomes

  /** OverdraftFacility.FINE_PERCENTAGE. */
  const FINE_PERCENTAGE: real := 0.01
  /** OverdraftFacility.OVERDRAFT_LIMIT, checked against each call on its own. */
  const OVERDRAFT_LIMIT: real := 500.0

  function Abs(x: real): (r: real) { if x < 0.0 then -x else x }

  /** An overdraft facility: a sub-balance that borrowing drives below zero. */
  class OverdraftFacility {
    var balance: real

    constructor ()
      ensures balance == 0.0
    {
      balance := 0.0;
    }

    /** This behaviour always offers an overdraft. */
    function HasOverdraftFacility(): (r: bool)
      ensures r
    {
      true
    }

    /** Charges the fine for a withdrawal of `withdrawalAmount`, unless the fine itself exceeds the limit. */
    method DeductFine(withdrawalAmount: real) returns (o: Outcome)
      modifies this
      ensures o.Fail? <==> withdrawalAmount * FINE_PERCENTAGE > OVERDRAFT_LIMIT
      ensures o.Fail? ==> o.error == InsufficientFunds && balance == old(balance)
      ensures o.Pass? ==> balance == old(balance) - withdrawalAmount * FINE_PERCENTAGE
      ensures withdrawalAmount >= 0.0 ==> balance <= old(balance)
    {
      if withdrawalAmount * FINE_PERCENTAGE > OVERDRAFT_LIMIT {
        return Fail(InsufficientFunds);
      }
      balance := balance - withdrawalAmount * FINE_PERCENTAGE;
      o := Pass;
    }

    /**
     * Borrows `value`: the fine is charged first, and stays charged when the
     * limit check that follows refuses the withdrawal.
     */
    method Withdraw(value: real) returns (o: Outcome)
      modifies this
      ensures value * FINE_PERCENTAGE > OVERDRAFT_LIMIT ==>
                o == Fail(InsufficientFunds) && balance == old(balance)
      ensures value * FINE_PERCENTAGE <= OVERDRAFT_LIMIT && value > OVERDRAFT_LIMIT ==>
                o == Fail(InsufficientFunds) && balance == old(balance) - value * FINE_PERCENTAGE
      ensures value <= OVERDRAFT_LIMIT ==>
                o == Pass && balance == old(balance) - value - value * FINE_PERCENTAGE
      ensures value >= 0.0 ==> balance <= old(balance)
    {
      o := DeductFine(value);
      if o.Fail? {
        return;
      }
      if value > OVERDRAFT_LIMIT {
        return Fail(InsufficientFunds);
      }
      balance := balance - value;
    }

    /** The sub-balance: zero or, once borrowed against, negative. */
    function GetBalance(): (r: real)
      reads this
      ensures r == balance
    {
      balance
    }

    /**
     * Pays `value` into the overdraft and returns what is left over for the
     * main balance: everything beyond the debt when the deposit clears it,
     * nothing otherwise.
     */
    method Deposit(value: real) returns (remainder: real)
      modifies this
      ensures Abs(old(balance)) < value ==> remainder == value - old(balance) && balance == 0.0
      ensures Abs(old(balance)) >= value ==> remainder == 0.0 && balance == old(balance) + value
      ensures old(balance) <= 0.0 && value >= 0.0 ==> balance <= 0.0 && remainder >= 0.0
      ensures old(balance) <= 0.0 && Abs(old(balance)) < value ==> remainder == value + Abs(old(balance))
    {
      if Abs(balance) < value {
        remainder := value - balance;
        balance := 0.0;
        return;
      }
      balance := balance + value;
      remainder := 0.0;
    }
  }

  /**
   * The overdraft behaviour bound to an account. NoOverdraftFacility has no
   * fields, so it is a plain value; OverdraftFacility is the object above.
   */
  datatype OverdraftBehavior =
    | NoOverdraftFacility
    | WithOverdraftFacility(facility: OverdraftFacility)
  {
    /** The objects this behaviour may change. */
    function Repr(): (r: set<object>)
    {
      if WithOverdraftFacility? then {facility} else {}
    }

    function HasOverdraftFacility(): (r: bool)
      ensures r <==> WithOverdraftFacility?
    {
      match this
      case NoOverdraftFacility => false
      case WithOverdraftFacility(f) => f.HasOverdraftFacility()
    }

    /** The overdraft sub-balance. */
    function GetBalance(): (r: real)
      reads Repr()
      ensures NoOverdraftFacility? ==> r == 0.0
      ensures WithOverdraftFacility? ==> r == facility.balance
    {
      match this
      case NoOverdraftFacility => 0.0
      case WithOverdraftFacility(f) => f.GetBalance()
    }

    /** The sub-balance never rises above zero. */
    ghost predicate Valid()
      reads Repr()
    {
      GetBalance() <= 0.0
    }

    method DeductFine(withdrawalAmount: real) returns (o: Outcome)
      modifies Repr()
      ensures NoOverdraftFacility? ==> o == Pass
      ensures WithOverdraftFacility? ==>
                (o.Fail? <==> withdrawalAmount * FINE_PERCENTAGE > OVERDRAFT_LIMIT) &&
                (o.Fail? ==> o.error == InsufficientFunds && GetBalance() == old(GetBalance())) &&
                (o.Pass? ==> GetBalance() == old(GetBalance()) - withdrawalAmount * FINE_PERCENTAGE)
      ensures NoOverdraftFacility? ==> GetBalance() == 0.0
    {
      match this
      case NoOverdraftFacility =>
        o := Pass;
      case WithOverdraftFacility(f) =>
        o := f.DeductFine(withdrawalAmount);
    }

    method Withdraw(value: real) returns (o: Outcome)
      modifies Repr()
      ensures NoOverdraftFacility? ==> o == Fail(IllegalArgument)
      ensures WithOverdraftFacility? && value * FINE_PERCENTAGE > OVERDRAFT_LIMIT ==>
                o == Fail(InsufficientFunds) && GetBalance() == old(GetBalance())
      ensures WithOverdraftFacility? && value * FINE_PERCENTAGE <= OVERDRAFT_LIMIT && value > OVERDRAFT_LIMIT ==>
                o == Fail(InsufficientFunds) && GetBalance() == old(GetBalance()) - value * FINE_PERCENTAGE
      ensures WithOverdraftFacility? && value <= OVERDRAFT_LIMIT ==>
                o == Pass && GetBalance() == old(GetBalance()) - value - value * FINE_PERCENTAGE
      ensures old(Valid()) && value >= 0.0 ==> Valid()
    {
      match this
      case NoOverdraftFacility =>
        o := Fail(IllegalArgument);
      case WithOverdraftFacility(f) =>
        o := f.Withdraw(value);
    }

    method Deposit(value: real) returns (remainder: real)
      modifies Repr()
      ensures NoOverdraftFacility? ==> remainder == 0.0
      ensures WithOverdraftFacility? && Abs(old(GetBalance())) < value ==>
                remainder == value - old(GetBalance()) && GetBalance() == 0.0
      ensures WithOverdraftFacility? && Abs(old(GetBalance())) >= value ==>
                remainder == 0.0 && GetBalance() == old(GetBalance()) + value
      ensures old(Valid()) && value >= 0.0 ==> Valid() && remainder >= 0.0
    {
      match this
      case NoOverdraftFacility =>
        remainder := 0.0;
      case WithOverdraftFacility(f) =>
        remainder := f.Deposit(value);
    }
  }
}
