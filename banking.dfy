/**
 * Accounts and the username-indexed store of accounts. They share a module
 * because each refers to the other: opening an account registers it in the
 * store, and the store holds accounts.
 */
module Banking {
  import opened Outcomes
  import opened Interest
  import opened Overdraft
  import opened Credentials

  datatype AccountType = CURRENT | SAVINGS

  datatype Status = CLOSED | OPEN

  /** A payment destination; only its name is ever read. */
  datatype Payee = Payee(sortCode: string, accountNumber: string, payee: string)

  /** payees.stream().filter(name matches).findFirst(). */
  function FindFirstPayee(payees: seq<Payee>, payeeName: string): (r: Option<Payee>)
    ensures r.None? <==> forall i :: 0 <= i < |payees| ==> payees[i].payee != payeeName
    ensures r.Some? ==> exists i :: 0 <= i < |payees| && payees[i] == r.value &&
                          r.value.payee == payeeName &&
                          forall j :: 0 <= j < i ==> payees[j].payee != payeeName
  {
    if payees == [] then None
    else if payees[0].payee == payeeName then Some(payees[0])
    else
      var r := FindFirstPayee(payees[1..], payeeName);
      assert forall j :: 1 <= j < |payees| ==> payees[j] == payees[1..][j - 1];
      r
  }

  class Account {
    const credentials: Credentials
    const accountType: AccountType
    const overdraftBehavior: OverdraftBehavior
    const interestBehavior: InterestBehavior
    /** Stands for the random UUID; the caller supplies it. */
    const accountNumber: nat
    var balance: real
    var payees: seq<Payee>
    var accountStatus: Status

    /** The objects the account's operations may change. */
    function Repr(): (r: set<object>)
    {
      {this} + overdraftBehavior.Repr()
    }

    /**
     * The binding of behaviours to the account type, and an overdraft
     * sub-balance that never rises above zero.
     */
    ghost predicate Valid()
      reads Repr()
    {
      && (accountType == CURRENT <==> overdraftBehavior.WithOverdraftFacility?)
      && (accountType == CURRENT <==> interestBehavior == NoInterestFacility)
      && overdraftBehavior.Valid()
    }

    /**
     * The private constructor together with the policy switch of `open`:
     * CURRENT gets an overdraft and no interest, every other type the reverse.
     */
    constructor (credentials: Credentials, accountType: AccountType, accountNumber: nat)
      ensures Valid() && fresh(Repr())
      ensures this.credentials == credentials && this.accountType == accountType
      ensures this.accountNumber == accountNumber
      ensures balance == 0.0 && payees == [] && accountStatus == OPEN
      ensures accountType == CURRENT ==>
                overdraftBehavior.WithOverdraftFacility? && interestBehavior == NoInterestFacility
      ensures accountType != CURRENT ==>
                overdraftBehavior == NoOverdraftFacility && interestBehavior == InterestFacility
      ensures overdraftBehavior.GetBalance() == 0.0
    {
      this.credentials := credentials;
      this.accountType := accountType;
      this.accountNumber := accountNumber;
      balance := 0.0;
      payees := [];
      accountStatus := OPEN;
      match accountType
      case CURRENT =>
        var facility := new OverdraftFacility();
        overdraftBehavior := WithOverdraftFacility(facility);
        interestBehavior := NoInterestFacility;
      case _ =>
        overdraftBehavior := NoOverdraftFacility;
        interestBehavior := InterestFacility;
    }

    /** `Account.open(credentials)`: a CURRENT account. */
    static method Open(store: AccountStore, credentials: Credentials, accountNumber: nat)
      returns (account: Account)
      requires store.Valid()
      modifies store
      ensures store.Valid()
      ensures account.Valid() && fresh(account.Repr())
      ensures account.credentials == credentials && account.accountType == CURRENT
      ensures account.overdraftBehavior.HasOverdraftFacility()
      ensures account.interestBehavior == NoInterestFacility
      ensures account.accountNumber == accountNumber
      ensures account.balance == 0.0 && account.payees == [] && account.accountStatus == OPEN
      ensures account.GetBalance() == 0.0
      ensures store.accounts ==
                old(store.accounts)[credentials.username := old(store.AccountsOf(credentials.username)) + [account]]
    {
      account := OpenWithType(store, credentials, CURRENT, accountNumber);
    }

    /** `Account.open(credentials, type)`: builds the account and adds it to the store. */
    static method OpenWithType(store: AccountStore, credentials: Credentials, accountType: AccountType, accountNumber: nat)
      returns (account: Account)
      requires store.Valid()
      modifies store
      ensures store.Valid()
      ensures account.Valid() && fresh(account.Repr())
      ensures account.credentials == credentials && account.accountType == accountType
      ensures account.overdraftBehavior.HasOverdraftFacility() <==> accountType == CURRENT
      ensures account.interestBehavior == (if accountType == CURRENT then NoInterestFacility else InterestFacility)
      ensures account.accountNumber == accountNumber
      ensures account.balance == 0.0 && account.payees == [] && account.accountStatus == OPEN
      ensures account.GetBalance() == 0.0
      ensures store.accounts ==
                old(store.accounts)[credentials.username := old(store.AccountsOf(credentials.username)) + [account]]
    {
      account := new Account(credentials, accountType, accountNumber);
      store.Add(account);
    }

    /** The check is made on the supplied credentials against themselves, so it never fails. */
    function Login(credentials: Credentials): (r: Result<bool>)
      ensures r == Success(true)
    {
      if !credentials.Validate(credentials) then Failure(FailedLogin) else Success(true)
    }

    /** Main balance plus the overdraft sub-balance. */
    function GetBalance(): (r: real)
      reads Repr()
      ensures overdraftBehavior == NoOverdraftFacility ==> r == balance
      ensures Valid() ==> r <= balance
    {
      balance + overdraftBehavior.GetBalance()
    }

    /**
     * Credits `value`. When the overdraft is in use its remainder is
     * credited to the main balance and then `value` is credited as well.
     */
    method Deposit(value: real) returns (o: Outcome)
      requires Valid()
      modifies Repr()
      ensures Valid()
      ensures payees == old(payees) && accountStatus == old(accountStatus)
      ensures value < 0.0 ==>
                o == Fail(IllegalArgument) && balance == old(balance) &&
                overdraftBehavior.GetBalance() == old(overdraftBehavior.GetBalance())
      ensures value >= 0.0 ==> o == Pass
      ensures value >= 0.0 && old(overdraftBehavior.GetBalance()) == 0.0 ==>
                balance == old(balance) + value && overdraftBehavior.GetBalance() == 0.0 &&
                GetBalance() == old(GetBalance()) + value
      ensures value >= 0.0 && old(overdraftBehavior.GetBalance()) < 0.0 && -old(overdraftBehavior.GetBalance()) < value ==>
                balance == old(balance) + (value - old(overdraftBehavior.GetBalance())) + value &&
                overdraftBehavior.GetBalance() == 0.0 &&
                GetBalance() == old(GetBalance()) + 2.0 * (value - old(overdraftBehavior.GetBalance()))
      ensures value >= 0.0 && old(overdraftBehavior.GetBalance()) < 0.0 && -old(overdraftBehavior.GetBalance()) >= value ==>
                balance == old(balance) + value &&
                overdraftBehavior.GetBalance() == old(overdraftBehavior.GetBalance()) + value &&
                GetBalance() == old(GetBalance()) + 2.0 * value
    {
      if value < 0.0 {
        return Fail(IllegalArgument);
      }
      if overdraftBehavior.GetBalance() < 0.0 {
        var remaining := overdraftBehavior.Deposit(value);
        balance := balance + remaining;
      }
      balance := balance + value;
      o := Pass;
    }

    /**
     * Debits `value` from a positive main balance, even below zero; with no
     * money in the main balance it borrows from the overdraft, if there is one.
     */
    method Withdraw(value: real) returns (o: Outcome)
      requires Valid()
      modifies Repr()
      ensures Valid()
      ensures payees == old(payees) && accountStatus == old(accountStatus)
      ensures value < 0.0 ==>
                o == Fail(IllegalArgument) && balance == old(balance) &&
                overdraftBehavior.GetBalance() == old(overdraftBehavior.GetBalance())
      ensures value >= 0.0 && old(balance) > 0.0 ==>
                o == Pass && balance == old(balance) - value &&
                overdraftBehavior.GetBalance() == old(overdraftBehavior.GetBalance())
      ensures value >= 0.0 && old(balance) <= 0.0 && !overdraftBehavior.HasOverdraftFacility() ==>
                o == Fail(InsufficientFunds) && balance == old(balance)
      ensures value >= 0.0 && old(balance) <= 0.0 && overdraftBehavior.HasOverdraftFacility() ==>
                balance == old(balance) &&
                (value <= OVERDRAFT_LIMIT ==>
                   o == Pass &&
                   overdraftBehavior.GetBalance() == old(overdraftBehavior.GetBalance()) - value - value * FINE_PERCENTAGE) &&
                (OVERDRAFT_LIMIT < value && value * FINE_PERCENTAGE <= OVERDRAFT_LIMIT ==>
                   o == Fail(InsufficientFunds) &&
                   overdraftBehavior.GetBalance() == old(overdraftBehavior.GetBalance()) - value * FINE_PERCENTAGE) &&
                (value * FINE_PERCENTAGE > OVERDRAFT_LIMIT ==>
                   o == Fail(InsufficientFunds) &&
                   overdraftBehavior.GetBalance() == old(overdraftBehavior.GetBalance()))
    {
      if value < 0.0 {
        return Fail(IllegalArgument);
      }
      if balance <= 0.0 {
        if overdraftBehavior.HasOverdraftFacility() {
          o := overdraftBehavior.Withdraw(value);
        } else {
          o := Fail(InsufficientFunds);
        }
      } else {
        balance := balance - value;
        o := Pass;
      }
    }

    /** Appends a payee; duplicates are kept. */
    method RegisterPayee(sortCode: string, accountNumber: string, payeeName: string)
      requires Valid()
      modifies this
      ensures Valid()
      ensures payees == old(payees) + [Payee(sortCode, accountNumber, payeeName)]
      ensures balance == old(balance) && accountStatus == old(accountStatus)
    {
      payees := payees + [Payee(sortCode, accountNumber, payeeName)];
    }

    /** Pays a registered payee from the main balance, with no check on funds. */
    method MakePayment(payeeName: string, value: real) returns (o: Outcome)
      requires Valid()
      modifies this
      ensures Valid()
      ensures payees == old(payees) && accountStatus == old(accountStatus)
      ensures value < 0.0 ==> o == Fail(IllegalArgument) && balance == old(balance)
      ensures value >= 0.0 && (forall i :: 0 <= i < |payees| ==> payees[i].payee != payeeName) ==>
                o == Fail(PayeeNotFound) && balance == old(balance)
      ensures value >= 0.0 && (exists i :: 0 <= i < |payees| && payees[i].payee == payeeName) ==>
                o == Pass && balance == old(balance) - value
    {
      if value < 0.0 {
        return Fail(IllegalArgument);
      }
      var payee := FindFirstPayee(payees, payeeName);
      if payee.Some? {
        balance := balance - value;
        o := Pass;
      } else {
        o := Fail(PayeeNotFound);
      }
    }

    /** Adds the whole amount the interest behaviour returns. */
    method CalculateInterest()
      requires Valid()
      modifies this
      ensures Valid()
      ensures payees == old(payees) && accountStatus == old(accountStatus)
      ensures balance == old(balance) + interestBehavior.Calculate(old(balance))
      ensures accountType == CURRENT ==> balance == old(balance)
      ensures accountType != CURRENT ==> balance == 2.003 * old(balance)
    {
      balance := balance + interestBehavior.Calculate(balance);
    }

    /** Closes the account when the main balance is exactly zero; the overdraft is not looked at. */
    method Close() returns (o: Outcome)
      requires Valid()
      modifies this
      ensures Valid()
      ensures balance == old(balance) && payees == old(payees)
      ensures old(balance) != 0.0 ==> o == Fail(IllegalState) && accountStatus == old(accountStatus)
      ensures old(balance) == 0.0 ==> o == Pass && accountStatus == CLOSED
    {
      if balance != 0.0 {
        return Fail(IllegalState);
      }
      accountStatus := CLOSED;
      o := Pass;
    }

    method Reactivate()
      requires Valid()
      modifies this
      ensures Valid()
      ensures balance == old(balance) && payees == old(payees)
      ensures accountStatus == OPEN
    {
      accountStatus := OPEN;
    }
  }

  /** The accounts of `list` for which Login(credentials) returns true, in order. */
  function LoggedIn(list: seq<Account>, credentials: Credentials): (r: seq<Account>)
    ensures |r| <= |list|
    ensures forall i :: 0 <= i < |r| ==> r[i] in list && r[i].Login(credentials) == Success(true)
    ensures forall i :: 0 <= i < |list| && list[i].Login(credentials) == Success(true) ==> list[i] in r
  {
    if list == [] then []
    else
      var last := list[|list| - 1];
      LoggedIn(list[..|list| - 1], credentials) +
        (if last.Login(credentials) == Success(true) then [last] else [])
  }

  /** Since every login succeeds, the filter keeps every account. */
  lemma {:induction false} LoggedInKeepsAll(list: seq<Account>, credentials: Credentials)
    ensures LoggedIn(list, credentials) == list
  {
    if list != [] {
      LoggedInKeepsAll(list[..|list| - 1], credentials);
    }
  }

  /** The store of accounts, by username, each user's accounts in the order opened. */
  class AccountStore {
    var accounts: map<string, seq<Account>>

    /** Every account is filed under its own username. */
    ghost predicate Valid()
      reads this
    {
      forall u, a :: u in accounts && a in accounts[u] ==> a.credentials.username == u
    }

    /** The list filed under `username`, empty when there is none. */
    function AccountsOf(username: string): (r: seq<Account>)
      reads this
    {
      if username in accounts then accounts[username] else []
    }

    constructor ()
      ensures Valid() && accounts == map[]
    {
      accounts := map[];
    }

    /** Appends `account` to its owner's list, creating the list when the owner has none. */
    method Add(account: Account)
      requires Valid()
      modifies this
      ensures Valid()
      ensures account.credentials.username in accounts
      ensures account.credentials.username !in old(accounts) ==>
                accounts == old(accounts)[account.credentials.username := [account]]
      ensures account.credentials.username in old(accounts) ==>
                accounts == old(accounts)[account.credentials.username := old(accounts)[account.credentials.username] + [account]]
      ensures accounts == old(accounts)[account.credentials.username := old(AccountsOf(account.credentials.username)) + [account]]
      ensures forall u :: u != account.credentials.username ==> AccountsOf(u) == old(AccountsOf(u))
    {
      var username := account.credentials.username;
      if username in accounts {
        accounts := accounts[username := accounts[username] + [account]];
      } else {
        assert AccountsOf(username) + [account] == [account];
        accounts := accounts[username := [account]];
      }
    }

    /**
     * The accounts filed under the credentials' username that log in with
     * them - all of them, since login always succeeds. A username with no
     * list is a null dereference.
     */
    method GetByUsername(credentials: Credentials) returns (r: Result<seq<Account>>)
      ensures credentials.username !in accounts ==> r == Failure(NullPointer)
      ensures credentials.username in accounts ==>
                r == Success(LoggedIn(accounts[credentials.username], credentials))
      ensures r.Success? ==> r.value == accounts[credentials.username]
      ensures Valid() && r.Success? ==>
                forall a :: a in r.value ==> a.credentials.username == credentials.username
    {
      if credentials.username !in accounts {
        return Failure(NullPointer);
      }
      var accountList := accounts[credentials.username];
      var results := [];
      for i := 0 to |accountList|
        invariant results == LoggedIn(accountList[..i], credentials)
      {
        assert accountList[..i + 1][..i] == accountList[..i];
        if accountList[i].Login(credentials) == Success(true) {
          results := results + [accountList[i]];
        }
      }
      assert accountList[..|accountList|] == accountList;
      LoggedInKeepsAll(accountList, credentials);
      r := Success(results);
    }

    /** Empties the store. */
    method DeleteAll()
      modifies this
      ensures Valid() && accounts == map[]
    {
      accounts := map[];
    }
  }
}
