# Banking ledger

This is a Dafny model of the `Customer` class in `Banking.py`. A customer
account has a fixed id, a name, a salary and an account type. It also has a
balance that `deposit`, `withdraw` and `apply_interest` update in place, and
a transaction list that each of these operations extends by one record when
it succeeds. `show_transactions` hands that list back.

The model is one module, `Banking`, in `banking.dfy`:

- `Customer` is a class. `customer_id`, `name`, `salary` and `account_type`
  are never reassigned after `__init__`, so they are `const` fields.
  `balance` (a `real`) and `transactions` (a `seq<Txn>`) are the mutable
  fields. A ghost `initialBalance` remembers the balance the account was
  created with.
- `Txn` is a log record: its kind (`Deposited`, `Withdrawn` or `Interest`)
  and its amount.
- The source prints a message on success or failure. Here each operation
  returns what happened instead: `Deposit` and `Withdraw` return a `Status`
  (`Ok`, `InvalidAmount` or `InsufficientFunds`), and `ApplyInterest`
  returns whether interest was applied.
- `Valid()` is the ledger invariant. The balance equals the initial balance
  plus the signed sum `Net` of the log, with deposits and interest counted
  positive and withdrawals negative. Every record is also `Admissible` at
  the running balance just before it (`Legal`): a deposit is positive, a
  withdrawal is positive and covered by the balance, and interest is 1% of
  the balance on a `"savings"` account. The constructor establishes
  `Valid()` and every operation preserves it.
- Each mutating method states its whole new state. On failure, balance and
  log are unchanged. On success, the balance moves by exactly the amount and
  the old log gets exactly one new record at its end. The log is therefore
  append-only and grows by at most one per call.
- `ExampleSession` is a client that shows the contracts fix every outcome.
  A deposit of 50 and a withdrawal of 30 on a balance of 100 give 120 in
  either order. Interest on a savings balance of 100 gives 101 and one
  `Interest` record of 1. A checking account rejects `0`, `-5` and an
  overdraft, and it ignores interest.

The balance is never negative only when the account is opened with a
non-negative balance. The source accepts whatever balance its loader reads,
so `Valid()` does not require it. The lemmas `BalanceNeverNegative` and
`Customer.BalanceStaysNonNegative` prove it from a non-negative initial
balance.

## Model

| member | source | states |
|---|---|---|
| `Banking.Customer.constructor` | Banking.py:4-10 | The account holds the given id, name, salary, type and balance. The log starts empty, the initial balance is that balance, and the ledger invariant holds. |
| `Banking.Customer.Deposit` | Banking.py:12-18 | A non-positive amount returns `InvalidAmount` and changes neither balance nor log. A positive amount returns `Ok`, raises the balance by exactly that amount and appends exactly one `Deposited` record of it. The ledger invariant is preserved. |
| `Banking.Customer.Withdraw` | Banking.py:20-29 | A non-positive amount returns `InvalidAmount`. This check comes first. Otherwise an amount above the balance returns `InsufficientFunds`. Both failures leave balance and log unchanged. Otherwise the call returns `Ok`, lowers the balance by exactly the amount, leaves it non-negative and appends one `Withdrawn` record. The ledger invariant is preserved. |
| `Banking.Customer.ShowTransactions` | Banking.py:31-32 | Returns the transaction log, oldest record first, and changes nothing. |
| `Banking.Customer.ApplyInterest` | Banking.py:34-39 | Interest is applied exactly when the type is `"savings"`. On any other account, balance and log are unchanged. On a savings account, the balance becomes `b + b * 0.01` and one `Interest` record of `b * 0.01` is appended. A non-negative balance does not decrease. The ledger invariant is preserved. |
| `Banking.LegalAppend` | Banking.py:16-17 | Appending a record that is admissible at the current balance keeps the log legal and adds exactly that record's signed amount to the net. This is the step each successful operation takes (also lines 27-28 and 37-38). |
| `Banking.BalanceNeverNegative` | Banking.py:24-27 | Take a log in which every record was admissible when appended, starting from a non-negative balance. The running balance after every prefix of that log is non-negative. |
| `Banking.Customer.BalanceStaysNonNegative` | Banking.py:24-27 | The balance of a valid account opened with a non-negative balance is non-negative. |
| `Banking.Customer.NoInterestUnlessSavings` | Banking.py:35-38 | A valid account whose type is not `"savings"` holds no `Interest` record in its log. |
| `Banking.Customer.RecordedAmountsNonNegative` | Banking.py:13-38 | In a valid account opened with a non-negative balance, every logged amount is non-negative, and every deposit and withdrawal amount is positive. |
| `Banking.InterestOnlyOnSavings` | Banking.py:35-38 | The legal log of an account whose type is not `"savings"` holds no `Interest` record. |
| `Banking.AmountsNonNegative` | Banking.py:13-38 | Take a legal log that starts from a non-negative balance. Every record stores a non-negative amount, and every deposit and withdrawal record stores a positive one. |

## Left out

- Floating point: balances and amounts are exact `real`s and the rate is exactly `0.01`. The rounding of Python `float` arithmetic in `balance * 0.01` and in the loader is not modelled. NaN and infinite amounts and balances are not modelled either. In the source, `float` accepts `"nan"` and `"inf"` (Banking.py:48, 74, 84). A NaN amount passes both guards, since `nan <= 0` and `nan > balance` are both false (Banking.py:13, 21, 24), so it is applied and logged. A withdrawal of `inf` from a balance of `inf` likewise passes and leaves a NaN balance. For such values the source departs from the `status` clauses of `Banking.Customer.Deposit` and `Banking.Customer.Withdraw` and from the sign results of `Banking.AmountsNonNegative`, `Banking.Customer.RecordedAmountsNonNegative` and `Banking.Customer.BalanceStaysNonNegative`.
- `read_customers` (Banking.py:41-52) and the module-level load (Banking.py:55) read a CSV file. They are a boundary that yields a map from id to `Customer`, and they are not part of this model.
- `main` (Banking.py:57-113) is not part of this model. It is the interactive menu with its input parsing and its `ValueError`/`KeyError` handling. That includes the lookup of an unknown customer id.
- The `print` calls inside the methods become the returned `Status` and `applied` values. The message text is not modelled.
- Banking.Customer.ShowTransactions: returns a snapshot of the log. The Python method returns the list object itself, so a caller could mutate the account's log through it. That aliasing is not modelled.
- Locks, a background interest scheduler and its shutdown are not modelled. `Banking.py` has none of them: the methods take no lock and no thread is started. The class is modelled sequentially.
- The trailing expression `3` (Banking.py:117) has no effect.
