# BankingSample in Dafny

A model of the banking core of BankingSample: an `Account` whose balance
rules are composed from two behaviours bound when the account is opened (an
overdraft behaviour and an interest behaviour), the account `Credentials`
with their hashed password, and the `AccountStore` that files accounts by
username.

- `Outcomes` (outcomes.dfy): the exceptions as an `Error` datatype, with
  `Outcome` for `void` methods and `Result` for methods that return.
- `Interest` (interest.dfy): `InterestFacility` (balance × 1.003) and
  `NoInterestFacility` (0) as a two-variant datatype; neither has fields.
- `Overdraft` (overdraft.dfy): `OverdraftFacility` as a class whose
  `balance` field (the overdraft sub-balance) its methods update, and the
  two-variant `OverdraftBehavior` (`NoOverdraftFacility`, inert, or
  `WithOverdraftFacility(facility)`) that dispatches to it.
- `Credentials` (credentials.dfy): the byte-to-hex encoding loop of
  `generateHashedValue`, its specification `Hex` and its properties
  (length, lowercase digits, injectivity), and the `Credentials` value with
  `validate`.
- `Banking` (banking.dfy): `Account` (a class; `open`, `deposit`,
  `withdraw`, `registerPayee`, `makePayment`, `calculateInterest`, `close`,
  `reactivate`, `login`, `getBalance`) and `AccountStore` (a class holding
  the username → account list map; `add`, `getByUsername`, `deleteAll`).
  They share one module because each refers to the other.
- `Scenarios` (scenarios.dfy): the behaviours the unit tests check, plus
  five that the code shows and no test checks (`UnknownUser`,
  `CloseWhileOverdrawn`, `LimitIsPerCall`, `WithdrawPastZero`,
  `DoubleCredit`), as client methods proved from the contracts and
  function definitions of the other modules.

The code is modelled as written, including its surprising behaviours,
each of which a contract pins down:

- `deposit` into an overdrawn account credits the main balance with the
  overdraft's remainder and then with the full deposit again, so the
  effective balance rises by twice the deposit, or, when the deposit clears
  the debt, by twice the deposit plus twice the debt (`Account.Deposit`;
  `Scenarios.DoubleCredit`: 200 into an account owing 101 moves the
  balance from −101 to 501).
- The overdraft fine is charged before the 500 limit is checked, so a
  refused withdrawal still costs the fine (`OverdraftFacility.Withdraw`,
  `Scenarios.OverdraftRefused`); the fine check itself refuses only
  withdrawals above 50000 (fine above 500); the limit applies to each call
  alone, never to the amount already owed (`Scenarios.LimitIsPerCall`).
- `withdraw` on a positive main balance subtracts directly, possibly below
  zero, without touching the overdraft (`Scenarios.WithdrawPastZero`).
- `close` looks at the main balance only (`Scenarios.CloseWhileOverdrawn`).
- `login(c)` checks `c` against itself and ignores the account's own
  credentials, so it always succeeds and `getByUsername` returns every
  account filed under the username, whatever the password.

`getByUsername` returns every account of the username even with a wrong
password, although its Javadoc (AccountStore.java:15-16) says an account
whose login fails is left out, because `login` never fails.
`NoOverdraftFacility.withdraw` throws `IllegalArgumentException`, and
`Account.withdraw` never reaches it, raising InsufficientFunds itself. A
lookup of a username with no list is a null dereference, modelled as
`Failure(NullPointer)`.

Modelling choices: money is `real`, so 0.01 and 1.003 are exact; the
process-wide static map is an explicit `AccountStore` object that `Open`
takes and modifies; the random UUID account number is a parameter; the MD5
digest of `String.getBytes` is an arbitrary function parameter
`md5: string -> seq<JByte>`, with `JByte` a signed Java byte, whose
`b & 0xff` is Euclidean `% 256`; `Account`'s private constructor and the
behaviour switch in `open` are one Dafny constructor, because the behaviours
are `const` fields; `InterestBehavior.Calculate` is a function of its
argument only, which is the model's form of "no state, repeated calls
agree".

## Model

| member | source | states |
|---|---|---|
| `Interest.InterestBehavior.Calculate` | src/main/java/banking/behaviours/interest/InterestFacility.java:9-12 | no-interest returns 0; with interest the amount is 0 exactly when the balance is 0, and exceeds a positive balance |
| `Interest.NoInterestYieldsNothing` | src/main/java/banking/behaviours/interest/NoInterestFacility.java:7-10 | the no-interest behaviour returns 0 for every balance |
| `Interest.BalanceAfterInterest` | src/main/java/banking/Account.java:245-247 | adding the returned amount gives 2.003·b with interest and leaves b unchanged without |
| `Overdraft.OverdraftFacility.constructor` | src/main/java/banking/behaviours/overdraft/OverdraftFacility.java:13 | the sub-balance starts at 0 |
| `Overdraft.OverdraftFacility.HasOverdraftFacility` | src/main/java/banking/behaviours/overdraft/OverdraftFacility.java:25-27 | always true |
| `Overdraft.OverdraftFacility.GetBalance` | src/main/java/banking/behaviours/overdraft/OverdraftFacility.java:38-40 | the sub-balance field itself |
| `Overdraft.OverdraftFacility.DeductFine` | src/main/java/banking/behaviours/overdraft/OverdraftFacility.java:16-22 | fails with InsufficientFunds, changing nothing, iff w·0.01 > 500; otherwise lowers the sub-balance by exactly w·0.01; never raises it for w ≥ 0 |
| `Overdraft.OverdraftFacility.Withdraw` | src/main/java/banking/behaviours/overdraft/OverdraftFacility.java:30-35 | v ≤ 500 succeeds and lowers the sub-balance by v + v·0.01 whatever is already owed; 500 < v ≤ 50000 fails yet keeps the fine charged; above that fails unchanged |
| `Overdraft.OverdraftFacility.Deposit` | src/main/java/banking/behaviours/overdraft/OverdraftFacility.java:43-53 | when the deposit exceeds the debt the sub-balance is reset to 0 and v − b (= v + debt) is returned; otherwise the sub-balance rises by v and 0 is returned; a non-positive sub-balance stays non-positive |
| `Overdraft.OverdraftBehavior.HasOverdraftFacility` | src/main/java/banking/behaviours/overdraft/NoOverdraftFacility.java:13-16 | true exactly for the facility variant (OverdraftFacility.java:25-27 answers true) |
| `Overdraft.OverdraftBehavior.GetBalance` | src/main/java/banking/behaviours/overdraft/NoOverdraftFacility.java:23-26 | the inert variant's sub-balance is always 0; the facility variant's is its sub-balance field |
| `Overdraft.OverdraftBehavior.DeductFine` | src/main/java/banking/behaviours/overdraft/NoOverdraftFacility.java:8-11 | the inert variant succeeds and changes nothing; the facility variant behaves as its DeductFine |
| `Overdraft.OverdraftBehavior.Withdraw` | src/main/java/banking/behaviours/overdraft/NoOverdraftFacility.java:18-21 | the inert variant always fails with IllegalArgument; the facility variant as its Withdraw; the sub-balance stays ≤ 0 for v ≥ 0 |
| `Overdraft.OverdraftBehavior.Deposit` | src/main/java/banking/behaviours/overdraft/NoOverdraftFacility.java:28-31 | the inert variant returns 0 and changes nothing; the facility variant as its Deposit |
| `Credentials.Unsigned` | src/main/java/banking/Account.java:295 | `b & 0xff`: the byte itself when non-negative, b + 256 when negative |
| `Credentials.ToHexString` | src/main/java/banking/Account.java:295 | `Integer.toString(n, 16)` of a non-negative n: at least one character, every one a lowercase hex digit |
| `Credentials.ThreeHexDigits` | src/main/java/banking/Account.java:295 | a number from 0x100 to 0xfff prints in base 16 as exactly its three digits |
| `Credentials.ByteHex` | src/main/java/banking/Account.java:295 | each byte becomes exactly two lowercase hex digits, high nibble first, zero-padded |
| `Credentials.ByteHexInjective` | src/main/java/banking/Account.java:295 | distinct bytes give distinct two-digit encodings |
| `Credentials.Hex` | src/main/java/banking/Account.java:293-299 | the text the StringBuilder holds after the loop: two characters per digest byte |
| `Credentials.HexAt` | src/main/java/banking/Account.java:293-299 | characters 2k and 2k+1 of the encoding are the digits of byte k |
| `Credentials.HexIsLowercase` | src/main/java/banking/Account.java:293-299 | every character of the encoding is 0-9 or a-f |
| `Credentials.HexInjective` | src/main/java/banking/Account.java:293-299 | equal encodings come from equal digests |
| `Credentials.GenerateHashedValue` | src/main/java/banking/Account.java:278-305 | the loop builds the hex encoding of the digest, of length 2·(digest length) |
| `Credentials.Credentials.Validate` | src/main/java/banking/Account.java:308-315 | true iff username and stored hash both match, i.e. iff the two credentials are equal |
| `Credentials.NewCredentials` | src/main/java/banking/Account.java:263-266 | keeps the username and stores the hex digest of the password, not the password |
| `Credentials.ValidateHashed` | src/main/java/banking/Account.java:308-315 | two built credentials validate iff the usernames are equal and the password digests are equal |
| `Banking.FindFirstPayee` | src/main/java/banking/Account.java:230-233 | none iff no payee has the name (exact equality); otherwise the first payee with that name |
| `Banking.Account.constructor` | src/main/java/banking/Account.java:50-89 | balance 0, no payees, OPEN, the given type; CURRENT binds the overdraft facility (sub-balance 0) and no interest, any other type no overdraft and interest |
| `Banking.Account.Open` | src/main/java/banking/Account.java:63-65 | opens a CURRENT account, with an overdraft facility and no interest, appended to its owner's list |
| `Banking.Account.OpenWithType` | src/main/java/banking/Account.java:76-94 | a fresh account in the state above, its behaviours bound by type, appended as the last entry of its owner's list; nothing else in the store changes and the store invariant holds |
| `Banking.Account.Login` | src/main/java/banking/Account.java:103-108 | always returns true, never FailedLogin, whatever credentials are given |
| `Banking.Account.GetBalance` | src/main/java/banking/Account.java:152-154 | with no overdraft facility it is the main balance; it never exceeds the main balance while the sub-balance stays ≤ 0 |
| `Banking.Account.Deposit` | src/main/java/banking/Account.java:162-172 | v < 0 fails with IllegalArgument, nothing changes; not overdrawn: main += v; overdrawn: main += remainder + v, so the effective balance rises by 2·(v + debt) or by 2·v; sub-balance stays ≤ 0 |
| `Banking.Account.Withdraw` | src/main/java/banking/Account.java:180-195 | v < 0 fails unchanged; main > 0: main −= v, overdraft untouched; main ≤ 0, no facility: InsufficientFunds unchanged; main ≤ 0 with facility: main unchanged, sub-balance as the facility's withdraw (fine kept on refusal) |
| `Banking.Account.RegisterPayee` | src/main/java/banking/Account.java:204-206 | appends exactly this one payee, duplicates kept; balance and status unchanged |
| `Banking.Account.MakePayment` | src/main/java/banking/Account.java:225-243 | v < 0 fails with IllegalArgument; no payee of that name: PayeeNotFound, balance unchanged; otherwise main −= v with no funds check |
| `Banking.Account.CalculateInterest` | src/main/java/banking/Account.java:245-247 | main += Calculate(main): unchanged for CURRENT, 2.003·main for SAVINGS |
| `Banking.Account.Close` | src/main/java/banking/Account.java:249-253 | fails with IllegalState, status unchanged, iff the main balance is non-zero; otherwise CLOSED; the sub-balance plays no part |
| `Banking.Account.Reactivate` | src/main/java/banking/Account.java:255-257 | status becomes OPEN unconditionally, balance and payees unchanged |
| `Banking.LoggedIn` | src/main/java/banking/services/AccountStore.java:24-34 | the accounts of the list, in stored order, whose login with the credentials succeeds: every account returned is in the list and logs in, every account of the list that logs in is returned, and the result is never longer than the list; the filter loop is proved equal to it |
| `Banking.LoggedInKeepsAll` | src/main/java/banking/services/AccountStore.java:24-34 | filtering a list through login keeps every account, in order |
| `Banking.AccountStore.constructor` | src/main/java/banking/services/AccountStore.java:12 | the store starts empty |
| `Banking.AccountStore.Add` | src/main/java/banking/services/AccountStore.java:43-52 | absent username gains [a]; present one gets a appended at the end; other usernames unchanged; every account stays filed under its own username |
| `Banking.AccountStore.GetByUsername` | src/main/java/banking/services/AccountStore.java:20-37 | unknown username: NullPointer; otherwise the stored list filtered by login in stored order, which is the whole list, all with the caller's username; the store is not changed |
| `Banking.AccountStore.DeleteAll` | src/main/java/banking/services/AccountStore.java:57-59 | the map is empty afterwards |
| `Scenarios.OpenThenLookup` | src/test/java/banking/AccountTest.java:21-29 | after one open the lookup returns one account, with the opened account number |
| `Scenarios.TwoAccountsOneUser` | src/test/java/banking/services/AccountStoreTest.java:62-70 | two opens under one username give two accounts back |
| `Scenarios.OtherUserNotReturned` | src/test/java/banking/services/AccountStoreTest.java:35-51 | another user's account is not among those returned |
| `Scenarios.UnknownUser` | src/main/java/banking/services/AccountStore.java:21-24 | looking up a username with no list fails with NullPointer |
| `Scenarios.Deposits` | src/test/java/banking/AccountTest.java:54-91 | deposits give 10 and 50.50; a deposit of −50 fails with IllegalArgument and leaves 0 |
| `Scenarios.Withdrawals` | src/test/java/banking/AccountTest.java:93-121 | 10 in, 10 out leaves 0; a withdrawal of −10 fails with IllegalArgument and leaves 10 |
| `Scenarios.PayRegisteredPayee` | src/test/java/banking/AccountTest.java:123-154 | one payee registered; paying it 100 out of 200 leaves 100 |
| `Scenarios.PayUnknownPayee` | src/test/java/banking/AccountTest.java:156-173 | paying an unregistered name fails with PayeeNotFound and leaves 200 |
| `Scenarios.Lifecycle` | src/test/java/banking/AccountTest.java:175-213 | closing at 0 gives CLOSED; closing with 100 fails and stays OPEN; reactivating gives OPEN |
| `Scenarios.CloseWhileOverdrawn` | src/main/java/banking/Account.java:249-253 | an account owing 101 on its overdraft with main balance 0 closes |
| `Scenarios.OverdraftFine` | src/test/java/banking/CurrentAccountTest.java:40-59 | a CURRENT account has the facility; borrowing 100 gives −101 |
| `Scenarios.OverdraftRepaid` | src/test/java/banking/CurrentAccountTest.java:61-74 | borrowing 100 then depositing 50 leaves the sub-balance at −51 |
| `Scenarios.OverdraftRefused` | src/test/java/banking/CurrentAccountTest.java:76-90 | asking for 600 fails with InsufficientFunds and leaves −6 |
| `Scenarios.LimitIsPerCall` | src/main/java/banking/behaviours/overdraft/OverdraftFacility.java:30-35 | two withdrawals of 400 both succeed, owing 808 |
| `Scenarios.WithdrawPastZero` | src/main/java/banking/Account.java:185-194 | 100 out of 10 leaves main −90 and the overdraft at 0 |
| `Scenarios.DoubleCredit` | src/main/java/banking/Account.java:162-172 | 200 into an account owing 101 gives main 501, overdraft 0, balance 501 |
| `Scenarios.SavingsAccount` | src/test/java/banking/SavingAccountTest.java:30-59 | no overdraft facility; withdrawing at 0 fails with InsufficientFunds; 500 with interest becomes 1001.5 |

## Left out

- The MD5 `MessageDigest` call and `String.getBytes`: foreign library code, replaced by the arbitrary function parameter `md5`.
- The `NoSuchAlgorithmException` path that leaves the hash null: a configuration failure, not logic.
- `UUID.randomUUID()`: randomness; the account number is a parameter.
- IEEE double rounding: amounts are exact `real`s.
- Exception messages and `printStackTrace` (in `getByUsername`'s catch and in `withdraw`'s message built from `getBalance`): I/O.
- Concurrent access: the source states it does not support it.
- The getters `getAccountType`, `getStatus`, `getOverdraft`, `getInterest`, `getCredentials`, `getAccountNumber`, `getPayees` and `Credentials.getUsername`: they return a field, which the model reads directly. The overdraft facility returned by `getOverdraft` is driven only through `Account` in the model, so its sub-balance stays ≤ 0 (`Account.Valid`); a caller using the facility directly with a negative amount is not modelled.
- The aliasing of the store's per-user `ArrayList` (appended to in place): the store keeps per-user sequences that `Add` replaces, and no other code holds those lists.
