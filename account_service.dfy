/** The account service (`AccountService`): a list of plain account objects,
    each with a number, a balance, the owner's email and a log, and the
    deposit and withdrawal operations that update them in place. Account
    numbers and transaction ids are random in the source; here they are
    parameters. */
module AccountService {
  import opened Support
  import opened Account
  import opened Seqs
  import Client

  /** The plain object `createAccount` builds; it is shared, and its balance
      and log are updated in place by `deposit` and `withdraw`. The service
      never reassigns its number or owner. */
  class ServiceAccount {
    const accountNumber: string
    var balance: int
    const owner: string
    var transactions: seq<Entry<string>>

    constructor (accountNumber: string, balance: int, owner: string)
      ensures this.accountNumber == accountNumber && this.balance == balance
      ensures this.owner == owner && transactions == []
    {
      this.accountNumber := accountNumber;
      this.balance := balance;
      this.owner := owner;
      transactions := [];
    }
  }

  /** The error `withdraw` throws. */
  datatype ServiceError = InsufficientFunds

  class AccountService {
    var accounts: seq<ServiceAccount>

    constructor ()
      ensures accounts == []
    {
      accounts := [];
    }

    /** Appends one new account holding the initial deposit, owned by the
        client's email, with an empty log, and returns it. */
    method CreateAccount(client: Client.Client, initialDeposit: int, accountNumber: string)
      returns (account: ServiceAccount)
      modifies this`accounts
      ensures fresh(account) && accounts == old(accounts) + [account]
      ensures account.accountNumber == accountNumber && account.balance == initialDeposit
      ensures account.owner == client.email && account.transactions == []
      ensures BalanceBefore(account.balance, account.transactions, Signed) == initialDeposit
    {
      account := new ServiceAccount(accountNumber, initialDeposit, client.email);
      accounts := accounts + [account];
    }

    /** `getAccountByEmail`: the first account whose owner is that email. */
    function GetAccountByEmail(email: string): (r: Option<ServiceAccount>)
      reads this, accounts
      ensures r.Some? ==> r.value in accounts && r.value.owner == email
      ensures r.Some? ==> exists k :: 0 <= k < |accounts| && accounts[k] == r.value &&
                                      forall j :: 0 <= j < k ==> accounts[j].owner != email
      ensures r.None? <==> forall j :: 0 <= j < |accounts| ==> accounts[j].owner != email
    {
      match FindFirst(accounts, (a: ServiceAccount) => a.owner == email)
      case None => None
      case Some(k) => Some(accounts[k])
    }

    /** The account's own log. */
    function GetTransactionHistory(account: ServiceAccount): (log: seq<Entry<string>>)
      reads account
      ensures log == account.transactions
    {
      account.transactions
    }

    /** Adds the amount, whatever its sign (there is no validation), and logs
        one deposit entry. */
    method Deposit(account: ServiceAccount, amount: int, transactionId: string)
      modifies account`balance, account`transactions
      ensures account.balance == old(account.balance) + amount
      ensures account.transactions == old(account.transactions) + [Entry(transactionId, amount, TxType.Deposit)]
      ensures BalanceBefore(account.balance, account.transactions, Signed) == old(BalanceBefore(account.balance, account.transactions, Signed))
    {
      SumOfAppend(account.transactions, Signed, Entry(transactionId, amount, TxType.Deposit));
      account.balance := account.balance + amount;
      account.transactions := account.transactions + [Entry(transactionId, amount, TxType.Deposit)];
    }

    /** Takes the amount off and logs one withdrawal when the balance covers
        it; otherwise throws "Insufficient funds" and changes nothing. After a
        withdrawal the balance is never negative. */
    method Withdraw(account: ServiceAccount, amount: int, transactionId: string)
      returns (r: Result<(), ServiceError>)
      modifies account`balance, account`transactions
      ensures r.Ok? <==> old(account.balance) >= amount
      ensures r.Ok? ==> account.balance == old(account.balance) - amount && account.balance >= 0
      ensures r.Ok? ==> account.transactions ==
                          old(account.transactions) + [Entry(transactionId, amount, TxType.Withdrawal)]
      ensures r.Err? ==> r.error == InsufficientFunds
      ensures r.Err? ==> account.balance == old(account.balance) && account.transactions == old(account.transactions)
      ensures BalanceBefore(account.balance, account.transactions, Signed) == old(BalanceBefore(account.balance, account.transactions, Signed))
    {
      if account.balance >= amount {
        SumOfAppend(account.transactions, Signed, Entry(transactionId, amount, TxType.Withdrawal));
        account.balance := account.balance - amount;
        account.transactions := account.transactions + [Entry(transactionId, amount, TxType.Withdrawal)];
        return Ok(());
      }
      return Err(InsufficientFunds);
    }
  }
}
