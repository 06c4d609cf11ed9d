/**
 * The behaviours the repository's unit tests exercise, plus five that the
 * code shows and no test checks (UnknownUser, CloseWhileOverdrawn,
 * LimitIsPerCall, WithdrawPastZero, DoubleCredit), as client methods proved
 * from the contracts and function definitions of Banking, Overdraft and
 * Credentials. The MD5 digest stays an arbitrary function throughout.
 */
module Scenarios {
  import opened Outcomes
  import opened Overdraft
  import opened Credentials
  import opened Banking

  const USERNAME: string := "dave.green"
  const PASSWORD: string := "secret1234"

  /** An opened account is found again by its credentials, by account number. */
  method OpenThenLookup(md5: string -> seq<JByte>, accountNumber: nat) returns (found: nat, firstNumber: nat)
    ensures found == 1 && firstNumber == accountNumber
  {
    var store := new AccountStore();
    var credentials := NewCredentials(USERNAME, PASSWORD, md5);
    var account := Account.Open(store, credentials, accountNumber);
    var r := store.GetByUsername(credentials);
    found := |r.value|;
    firstNumber := r.value[0].accountNumber;
  }

  /** Two accounts opened under one username are both returned. */
  method TwoAccountsOneUser(md5: string -> seq<JByte>) returns (found: nat)
    ensures found == 2
  {
    var store := new AccountStore();
    var credentials := NewCredentials(USERNAME, PASSWORD, md5);
    var first := Account.Open(store, credentials, 1);
    var second := Account.Open(store, credentials, 2);
    var r := store.GetByUsername(credentials);
    found := |r.value|;
  }

  /** Another user's account is not returned. */
  method OtherUserNotReturned(md5: string -> seq<JByte>) returns (usernames: seq<string>)
    ensures usernames == [USERNAME]
  {
    var store := new AccountStore();
    var credentials := NewCredentials(USERNAME, PASSWORD, md5);
    var mine := Account.Open(store, credentials, 1);
    var credentials1 := NewCredentials("steve.green", PASSWORD, md5);
    var theirs := Account.Open(store, credentials1, 2);
    var r := store.GetByUsername(credentials);
    usernames := seq(|r.value|, i requires 0 <= i < |r.value| => r.value[i].credentials.username);
  }

  /** A username nobody has used makes the lookup dereference a missing list. */
  method UnknownUser(md5: string -> seq<JByte>) returns (r: Result<seq<Account>>)
    ensures r == Failure(NullPointer)
  {
    var store := new AccountStore();
    var credentials := NewCredentials(USERNAME, PASSWORD, md5);
    r := store.GetByUsername(credentials);
  }

  /** Deposits of 10, and of 20 then 30.50, into fresh accounts; a negative deposit is refused. */
  method Deposits(md5: string -> seq<JByte>) returns (ten: real, fiftyFifty: real, refused: Outcome, rest: real)
    ensures ten == 10.0 && fiftyFifty == 50.5
    ensures refused == Fail(IllegalArgument) && rest == 0.0
  {
    var store := new AccountStore();
    var credentials := NewCredentials(USERNAME, PASSWORD, md5);
    var a := Account.Open(store, credentials, 1);
    var o := a.Deposit(10.0);
    ten := a.GetBalance();
    var b := Account.Open(store, credentials, 2);
    o := b.Deposit(20.0);
    o := b.Deposit(30.5);
    fiftyFifty := b.GetBalance();
    var c := Account.Open(store, credentials, 3);
    refused := c.Deposit(-50.0);
    rest := c.GetBalance();
  }

  /** Withdrawing 10 after depositing 10 leaves 0; a negative withdrawal is refused. */
  method Withdrawals(md5: string -> seq<JByte>) returns (zero: real, refused: Outcome, rest: real)
    ensures zero == 0.0
    ensures refused == Fail(IllegalArgument) && rest == 10.0
  {
    var store := new AccountStore();
    var credentials := NewCredentials(USERNAME, PASSWORD, md5);
    var a := Account.Open(store, credentials, 1);
    var o := a.Deposit(10.0);
    o := a.Withdraw(10.0);
    zero := a.GetBalance();
    var b := Account.Open(store, credentials, 2);
    o := b.Deposit(10.0);
    refused := b.Withdraw(-10.0);
    rest := b.GetBalance();
  }

  /** Paying a registered payee debits the main balance. */
  method PayRegisteredPayee(md5: string -> seq<JByte>) returns (registered: nat, afterPayment: real)
    ensures registered == 1 && afterPayment == 100.0
  {
    var store := new AccountStore();
    var credentials := NewCredentials(USERNAME, PASSWORD, md5);
    var a := Account.Open(store, credentials, 1);
    var o := a.Deposit(200.0);
    a.RegisterPayee("001122", "61247613", "eJavaGuru");
    registered := |a.payees|;
    assert a.payees[0].payee == "eJavaGuru";
    o := a.MakePayment("eJavaGuru", 100.0);
    afterPayment := a.GetBalance();
  }

  /** Paying a name that is not registered fails and debits nothing. */
  method PayUnknownPayee(md5: string -> seq<JByte>) returns (unknown: Outcome, afterRefusal: real)
    ensures unknown == Fail(PayeeNotFound) && afterRefusal == 200.0
  {
    var store := new AccountStore();
    var credentials := NewCredentials(USERNAME, PASSWORD, md5);
    var b := Account.Open(store, credentials, 1);
    var o := b.Deposit(200.0);
    b.RegisterPayee("001122", "61247613", "eJavaGuru");
    assert b.payees[0].payee != "dave";
    unknown := b.MakePayment("dave", 200.0);
    afterRefusal := b.GetBalance();
  }

  /** Closing at zero closes, closing with money fails and stays open, reactivating reopens. */
  method Lifecycle(md5: string -> seq<JByte>)
    returns (closed: Status, refused: Outcome, stillOpen: Status, reopened: Status)
    ensures closed == CLOSED
    ensures refused == Fail(IllegalState) && stillOpen == OPEN
    ensures reopened == OPEN
  {
    var store := new AccountStore();
    var credentials := NewCredentials(USERNAME, PASSWORD, md5);
    var a := Account.Open(store, credentials, 1);
    var o := a.Close();
    closed := a.accountStatus;
    var b := Account.Open(store, credentials, 2);
    o := b.Deposit(100.0);
    refused := b.Close();
    stillOpen := b.accountStatus;
    a.Reactivate();
    reopened := a.accountStatus;
  }

  /** An overdrawn account whose main balance is zero closes all the same. */
  method CloseWhileOverdrawn(md5: string -> seq<JByte>) returns (closed: Outcome, owed: real)
    ensures closed == Pass && owed == -101.0
  {
    var store := new AccountStore();
    var credentials := NewCredentials(USERNAME, PASSWORD, md5);
    var a := Account.Open(store, credentials, 1);
    var o := a.Withdraw(100.0);
    closed := a.Close();
    owed := a.GetBalance();
  }

  /** Borrowing 100 on a fresh CURRENT account costs a fine of 1. */
  method OverdraftFine(md5: string -> seq<JByte>) returns (hasOverdraft: bool, fined: real)
    ensures hasOverdraft && fined == -101.0
  {
    var store := new AccountStore();
    var credentials := NewCredentials(USERNAME, PASSWORD, md5);
    var a := Account.OpenWithType(store, credentials, CURRENT, 1);
    hasOverdraft := a.overdraftBehavior.HasOverdraftFacility();
    var o := a.Withdraw(100.0);
    fined := a.GetBalance();
  }

  /** Paying 50 back after borrowing 100 leaves 51 owed on the overdraft. */
  method OverdraftRepaid(md5: string -> seq<JByte>) returns (owed: real)
    ensures owed == -51.0
  {
    var store := new AccountStore();
    var credentials := NewCredentials(USERNAME, PASSWORD, md5);
    var b := Account.OpenWithType(store, credentials, CURRENT, 1);
    var o := b.Withdraw(100.0);
    o := b.Deposit(50.0);
    owed := b.overdraftBehavior.GetBalance();
  }

  /** Asking a fresh CURRENT account for 600 is refused, yet the fine of 6 is charged. */
  method OverdraftRefused(md5: string -> seq<JByte>) returns (refused: Outcome, fineOnly: real)
    ensures refused == Fail(InsufficientFunds) && fineOnly == -6.0
  {
    var store := new AccountStore();
    var credentials := NewCredentials(USERNAME, PASSWORD, md5);
    var c := Account.OpenWithType(store, credentials, CURRENT, 1);
    refused := c.Withdraw(600.0);
    fineOnly := c.GetBalance();
  }

  /** The limit applies to each withdrawal alone: two of 400 both go through, owing 808. */
  method LimitIsPerCall(md5: string -> seq<JByte>) returns (first: Outcome, second: Outcome, owed: real)
    ensures first == Pass && second == Pass && owed == -808.0
  {
    var store := new AccountStore();
    var credentials := NewCredentials(USERNAME, PASSWORD, md5);
    var a := Account.Open(store, credentials, 1);
    first := a.Withdraw(400.0);
    second := a.Withdraw(400.0);
    owed := a.GetBalance();
  }

  /** With money in the main balance a withdrawal may take it below zero, with no fine and no overdraft. */
  method WithdrawPastZero(md5: string -> seq<JByte>) returns (main: real, overdraft: real)
    ensures main == -90.0 && overdraft == 0.0
  {
    var store := new AccountStore();
    var credentials := NewCredentials(USERNAME, PASSWORD, md5);
    var a := Account.Open(store, credentials, 1);
    var o := a.Deposit(10.0);
    o := a.Withdraw(100.0);
    main := a.balance;
    overdraft := a.overdraftBehavior.GetBalance();
  }

  /**
   * Paying 200 into an account that owes 101 clears the debt and credits the
   * main balance with the remainder 301 and again with the 200: 501 in all.
   */
  method DoubleCredit(md5: string -> seq<JByte>) returns (main: real, overdraft: real, total: real)
    ensures main == 501.0 && overdraft == 0.0 && total == 501.0
  {
    var store := new AccountStore();
    var credentials := NewCredentials(USERNAME, PASSWORD, md5);
    var a := Account.Open(store, credentials, 1);
    var o := a.Withdraw(100.0);
    o := a.Deposit(200.0);
    main := a.balance;
    overdraft := a.overdraftBehavior.GetBalance();
    total := a.GetBalance();
  }

  /**
   * A SAVINGS account: nothing can be withdrawn at zero; 500 with interest
   * becomes 500 + 500 * 1.003.
   */
  method SavingsAccount(md5: string -> seq<JByte>) returns (hasOverdraft: bool, refused: Outcome, withInterest: real)
    ensures !hasOverdraft
    ensures refused == Fail(InsufficientFunds)
    ensures withInterest == 1001.5 && withInterest > 500.0
  {
    var store := new AccountStore();
    var credentials := NewCredentials(USERNAME, PASSWORD, md5);
    var a := Account.OpenWithType(store, credentials, SAVINGS, 1);
    hasOverdraft := a.overdraftBehavior.HasOverdraftFacility();
    refused := a.Withdraw(100.0);
    var o := a.Deposit(500.0);
    a.CalculateInterest();
    withInterest := a.GetBalance();
  }
}
