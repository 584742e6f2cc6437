/**
  A single customer's account ledger: a balance that deposits, withdrawals
  and interest accrual update in place, and an append-only log of one record
  per successful update.
 */
module Banking {

  /** The closed set of events the log records. */
  datatype TxnKind = Deposited | Withdrawn | Interest

  /** One log record; a withdrawal's amount is stored as the amount taken out. */
  datatype Txn = Txn(kind: TxnKind, amount: real)

  /** What an operation reports to its caller instead of printing. */
  datatype Status = Ok | InvalidAmount | InsufficientFunds

  /** The one account type that accrues interest. */
  const Savings: string := "savings"

  /** Interest is 1% of the current balance. */
  const InterestRate: real := 0.01

  /** The effect of one record on the balance: withdrawals count negative. */
  function Signed(t: Txn): real {
    match t.kind
    case Deposited => t.amount
    case Withdrawn => -t.amount
    case Interest => t.amount
  }

  /** The signed sum of a log, folded from the oldest record to the newest. */
  function Net(log: seq<Txn>): real
    decreases |log|
  {
    if log == [] then 0.0 else Net(log[..|log| - 1]) + Signed(log[|log| - 1])
  }

  /**
    Whether record `t` is one the account can append when its balance is
    `balance`: deposits and withdrawals are positive, a withdrawal is covered
    by the balance, and interest is 1% of the balance on a savings account.
   */
  ghost predicate Admissible(balance: real, accountType: string, t: Txn) {
    match t.kind
    case Deposited => t.amount > 0.0
    case Withdrawn => 0.0 < t.amount <= balance
    case Interest => accountType == Savings && t.amount == balance * InterestRate
  }

  /**
    Whether every record of `log` was admissible at the running balance
    just before it, starting from `initial`.
   */
  ghost predicate Legal(initial: real, accountType: string, log: seq<Txn>)
    decreases |log|
  {
    log == [] ||
    (Legal(initial, accountType, log[..|log| - 1]) &&
     Admissible(initial + Net(log[..|log| - 1]), accountType, log[|log| - 1]))
  }

  /** Appending an admissible record keeps the log legal and adds its signed amount. */
  lemma LegalAppend(initial: real, accountType: string, log: seq<Txn>, t: Txn)
    requires Legal(initial, accountType, log)
    requires Admissible(initial + Net(log), accountType, t)
    ensures Legal(initial, accountType, log + [t])
    ensures Net(log + [t]) == Net(log) + Signed(t)
  {
  }

  /**
    A legal log never takes the balance below zero: starting from a
    non-negative balance, the running balance after every prefix of the log,
    and so at every point between two operations, is non-negative.
   */
  lemma {:induction false} BalanceNeverNegative(initial: real, accountType: string, log: seq<Txn>)
    requires initial >= 0.0
    requires Legal(initial, accountType, log)
    ensures forall k :: 0 <= k <= |log| ==> initial + Net(log[..k]) >= 0.0
    decreases |log|
  {
    if log != [] {
      var front := log[..|log| - 1];
      BalanceNeverNegative(initial, accountType, front);
      forall k | 0 <= k <= |log|
        ensures initial + Net(log[..k]) >= 0.0
      {
        if k < |log| {
          assert front[..k] == log[..k];
        } else {
          assert front[..|front|] == front;
          assert log[..k] == log;
        }
      }
    }
  }

  /** Only a savings account's log holds interest records. */
  lemma {:induction false} InterestOnlyOnSavings(initial: real, accountType: string, log: seq<Txn>)
    requires Legal(initial, accountType, log)
    requires accountType != Savings
    ensures forall j :: 0 <= j < |log| ==> log[j].kind != Interest
    decreases |log|
  {
    if log != [] {
      InterestOnlyOnSavings(initial, accountType, log[..|log| - 1]);
    }
  }

  /**
    Starting from a non-negative balance, every record of a legal log stores
    a non-negative amount; deposits and withdrawals store a positive one.
   */
  lemma {:induction false} AmountsNonNegative(initial: real, accountType: string, log: seq<Txn>)
    requires initial >= 0.0
    requires Legal(initial, accountType, log)
    ensures forall j :: 0 <= j < |log| ==> log[j].amount >= 0.0
    ensures forall j :: 0 <= j < |log| && log[j].kind != Interest ==> log[j].amount > 0.0
    decreases |log|
  {
    if log != [] {
      var front := log[..|log| - 1];
      AmountsNonNegative(initial, accountType, front);
      BalanceNeverNegative(initial, accountType, front);
      assert front[..|front|] == front;
    }
  }

  /** One customer's account, updated in place by its operations. */
  class Customer {
    const customerId: int
    const name: string
    const salary: real
    const accountType: string
    var balance: real
    var transactions: seq<Txn>

    /** The balance the account was created with, before any record. */
    ghost const initialBalance: real

    /**
      The ledger invariant: the balance is the initial balance plus the
      signed sum of the log, and each record was admissible when appended.
     */
    ghost predicate Valid()
      reads this
    {
      balance == initialBalance + Net(transactions) &&
      Legal(initialBalance, accountType, transactions)
    }

    /**
      An account opened with a non-negative balance holds a non-negative
      balance between any two operations.
     */
    lemma BalanceStaysNonNegative()
      requires Valid()
      requires initialBalance >= 0.0
      ensures balance >= 0.0
    {
      BalanceNeverNegative(initialBalance, accountType, transactions);
      assert transactions[..|transactions|] == transactions;
    }

    /** Only a savings account ever receives an interest record. */
    lemma NoInterestUnlessSavings()
      requires Valid()
      requires accountType != Savings
      ensures forall j :: 0 <= j < |transactions| ==> transactions[j].kind != Interest
    {
      InterestOnlyOnSavings(initialBalance, accountType, transactions);
    }

    /**
      An account opened with a non-negative balance logs only non-negative
      amounts, and only positive ones for deposits and withdrawals.
     */
    lemma RecordedAmountsNonNegative()
      requires Valid()
      requires initialBalance >= 0.0
      ensures forall j :: 0 <= j < |transactions| ==> transactions[j].amount >= 0.0
      ensures forall j :: 0 <= j < |transactions| && transactions[j].kind != Interest ==>
        transactions[j].amount > 0.0
    {
      AmountsNonNegative(initialBalance, accountType, transactions);
    }

    constructor (customerId: int, name: string, balance: real, salary: real, accountType: string)
      ensures Valid()
      ensures this.customerId == customerId && this.name == name && this.salary == salary
      ensures this.accountType == accountType
      ensures this.balance == balance && transactions == [] && initialBalance == balance
    {
      this.customerId := customerId;
      this.name := name;
      this.balance := balance;
      this.salary := salary;
      this.accountType := accountType;
      this.transactions := [];
      this.initialBalance := balance;
    }

    /** Adds a positive amount to the balance and logs it; rejects any other amount. */
    method Deposit(amount: real) returns (status: Status)
      requires Valid()
      modifies this
      ensures Valid()
      ensures status == (if amount > 0.0 then Ok else InvalidAmount)
      ensures status == InvalidAmount ==>
        balance == old(balance) && transactions == old(transactions)
      ensures status == Ok ==>
        balance == old(balance) + amount &&
        transactions == old(transactions) + [Txn(Deposited, amount)]
    {
      if amount <= 0.0 {
        return InvalidAmount;
      }
      LegalAppend(initialBalance, accountType, transactions, Txn(Deposited, amount));
      balance := balance + amount;
      transactions := transactions + [Txn(Deposited, amount)];
      status := Ok;
    }

    /**
      Takes a positive amount covered by the balance out of the account and
      logs it; a non-positive amount is rejected before the balance is looked at.
     */
    method Withdraw(amount: real) returns (status: Status)
      requires Valid()
      modifies this
      ensures Valid()
      ensures status ==
        if amount <= 0.0 then InvalidAmount
        else if amount > old(balance) then InsufficientFunds
        else Ok
      ensures status != Ok ==>
        balance == old(balance) && transactions == old(transactions)
      ensures status == Ok ==>
        balance == old(balance) - amount && balance >= 0.0 &&
        transactions == old(transactions) + [Txn(Withdrawn, amount)]
    {
      if amount <= 0.0 {
        return InvalidAmount;
      }
      if amount > balance {
        return InsufficientFunds;
      }
      LegalAppend(initialBalance, accountType, transactions, Txn(Withdrawn, amount));
      balance := balance - amount;
      transactions := transactions + [Txn(Withdrawn, amount)];
      status := Ok;
    }

    /** The transaction log, oldest record first; nothing changes. */
    method ShowTransactions() returns (log: seq<Txn>)
      ensures log == transactions
    {
      log := transactions;
    }

    /**
      On a savings account, adds 1% of the current balance and logs that
      interest; on any other account, does nothing.
     */
    method ApplyInterest() returns (applied: bool)
      requires Valid()
      modifies this
      ensures Valid()
      ensures applied == (accountType == Savings)
      ensures !applied ==> balance == old(balance) && transactions == old(transactions)
      ensures applied ==>
        balance == old(balance) + old(balance) * InterestRate &&
        transactions == old(transactions) + [Txn(Interest, old(balance) * InterestRate)]
      ensures old(balance) >= 0.0 ==> balance >= old(balance)
    {
      applied := accountType == Savings;
      if applied {
        var interest := balance * InterestRate;
        LegalAppend(initialBalance, accountType, transactions, Txn(Interest, interest));
        balance := balance + interest;
        transactions := transactions + [Txn(Interest, interest)];
      }
    }
  }

  /**
    A session as the command loop would drive it: the contracts alone fix
    every outcome, whichever order the deposit and the withdrawal come in.
   */
  method ExampleSession() {
    var a := new Customer(1, "A", 100.0, 0.0, Savings);
    var s := a.Deposit(50.0);
    s := a.Withdraw(30.0);
    assert a.balance == 120.0 && |a.transactions| == 2;

    var b := new Customer(2, "B", 100.0, 0.0, Savings);
    s := b.Withdraw(30.0);
    s := b.Deposit(50.0);
    assert b.balance == 120.0 && |b.transactions| == 2;

    var c := new Customer(3, "C", 100.0, 0.0, Savings);
    var applied := c.ApplyInterest();
    assert c.balance == 101.0 && c.transactions == [Txn(Interest, 1.0)];

    var d := new Customer(4, "D", 100.0, 0.0, "checking");
    s := d.Deposit(0.0);
    assert s == InvalidAmount;
    s := d.Deposit(-5.0);
    assert s == InvalidAmount;
    s := d.Withdraw(200.0);
    assert s == InsufficientFunds;
    applied := d.ApplyInterest();
    assert !applied && d.balance == 100.0 && d.transactions == [];
  }
}
