/** The English-language account (`Account`): a balance and an append-only
    log of deposit and withdrawal entries, each with an id, an amount and a
    type. The log entry type and its signed sum are shared with the account
    service, whose plain-object accounts carry the same kind of log. */
module Account {
  import opened Seqs

  /** The `type` field of a log entry: 'deposit' or 'withdrawal'. */
  datatype TxType = Deposit | Withdrawal

  /** One log entry; the date the source stamps on it is not modelled. */
  datatype Entry<Id> = Entry(transactionId: Id, amount: int, kind: TxType)

  /** What an entry does to the balance: deposits add, withdrawals subtract. */
  function Signed<Id>(e: Entry<Id>): int
  {
    if e.kind == Deposit then e.amount else -e.amount
  }

  function Amount<Id>(e: Entry<Id>): int
  {
    e.amount
  }

  /** The net effect of a whole log on the balance. */
  function Net<Id>(log: seq<Entry<Id>>): int
  {
    SumOf(log, Signed)
  }

  predicate IsDeposit<Id>(e: Entry<Id>) { e.kind == Deposit }

  predicate IsWithdrawal<Id>(e: Entry<Id>) { e.kind == Withdrawal }

  /** The signed sum is the deposits' total minus the withdrawals' total. */
  lemma {:induction false} NetIsDepositsMinusWithdrawals<Id>(log: seq<Entry<Id>>)
    ensures Net(log) == SumOf(Filter(log, IsDeposit), Amount) - SumOf(Filter(log, IsWithdrawal), Amount)
  {
    if |log| > 0 {
      NetIsDepositsMinusWithdrawals(log[1..]);
      var e := log[0];
      var ds, ws := Filter(log[1..], IsDeposit), Filter(log[1..], IsWithdrawal);
      if e.kind == Deposit {
        assert Filter(log, IsDeposit) == [e] + ds && Filter(log, IsWithdrawal) == ws;
        assert ([e] + ds)[1..] == ds;
      } else {
        assert Filter(log, IsWithdrawal) == [e] + ws && Filter(log, IsDeposit) == ds;
        assert ([e] + ws)[1..] == ws;
      }
    }
  }

  /** The ids `recordTransaction` hands out: 1, 2, ..., n in insertion order. */
  ghost predicate SequentialIds(log: seq<Entry<nat>>)
  {
    forall i :: 0 <= i < |log| ==> log[i].transactionId == i + 1
  }

  class Account {
    var accountNumber: string
    var balance: int
    var transactions: seq<Entry<nat>>
    /** The balance the account was opened with. */
    ghost var initialBalance: int

    /** The balance is the opening balance plus the log's net effect, and the
        log's ids are sequential. */
    ghost predicate Valid()
      reads this
    {
      balance == initialBalance + Net(transactions) && SequentialIds(transactions)
    }

    constructor (accountNumber: string, initialBalance: int := 0)
      ensures Valid()
      ensures this.accountNumber == accountNumber && this.initialBalance == initialBalance
      ensures balance == initialBalance && transactions == []
    {
      this.accountNumber := accountNumber;
      balance := initialBalance;
      transactions := [];
      this.initialBalance := initialBalance;
    }

    /** A positive amount is added and logged as a deposit; anything else is
        refused with false and changes nothing. */
    method Deposit(amount: int) returns (ok: bool)
      requires Valid()
      modifies this`balance, this`transactions
      ensures Valid()
      ensures ok <==> amount > 0
      ensures ok ==> balance == old(balance) + amount
      ensures ok ==> transactions == old(transactions) + [Entry(|old(transactions)| + 1, amount, TxType.Deposit)]
      ensures !ok ==> balance == old(balance) && transactions == old(transactions)
    {
      if amount > 0 {
        balance := balance + amount;
        RecordTransaction(amount, TxType.Deposit);
        SumOfAppend(old(transactions), Signed, Entry(|old(transactions)| + 1, amount, TxType.Deposit));
        return true;
      }
      return false;
    }

    /** Succeeds exactly when 0 < amount <= balance; then the amount is taken
        off and logged as a withdrawal. A refused withdrawal changes nothing, so
        a balance that is not negative never becomes negative. */
    method Withdraw(amount: int) returns (ok: bool)
      requires Valid()
      modifies this`balance, this`transactions
      ensures Valid()
      ensures ok <==> 0 < amount <= old(balance)
      ensures ok ==> balance == old(balance) - amount
      ensures ok ==> transactions == old(transactions) + [Entry(|old(transactions)| + 1, amount, TxType.Withdrawal)]
      ensures !ok ==> balance == old(balance) && transactions == old(transactions)
      ensures old(balance) >= 0 ==> balance >= 0
    {
      if amount > 0 && amount <= balance {
        balance := balance - amount;
        RecordTransaction(amount, TxType.Withdrawal);
        SumOfAppend(old(transactions), Signed, Entry(|old(transactions)| + 1, amount, TxType.Withdrawal));
        return true;
      }
      return false;
    }

    /** Appends one entry whose id is the log's length plus one. */
    method RecordTransaction(amount: int, kind: TxType)
      modifies this`transactions
      ensures transactions == old(transactions) + [Entry(|old(transactions)| + 1, amount, kind)]
      ensures SequentialIds(old(transactions)) ==> SequentialIds(transactions)
    {
      transactions := transactions + [Entry(|transactions| + 1, amount, kind)];
    }

    function GetBalance(): (b: int)
      reads this
      ensures Valid() ==> b == initialBalance + Net(transactions)
    {
      balance
    }

    /** The live log in the source; a sequence value here. */
    function GetTransactions(): (log: seq<Entry<nat>>)
      reads this
      ensures log == transactions
      ensures Valid() ==> SequentialIds(log) && GetBalance() == initialBalance + Net(log)
    {
      transactions
    }

    /** The same log as `GetTransactions`. */
    function GetTransactionHistory(): (log: seq<Entry<nat>>)
      reads this
      ensures log == GetTransactions()
    {
      transactions
    }
  }
}
