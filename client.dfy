/** The English-language client (`Client`): credentials and an ordered list
    of accounts, whose logs it concatenates into one history. */
module Client {
  import opened Account

  /** The combined length of the accounts' logs. */
  function TotalLogLength(accounts: seq<Account>): nat
    reads accounts
  {
    if |accounts| == 0 then 0
    else |accounts[0].transactions| + TotalLogLength(accounts[1..])
  }

  lemma {:induction false} TotalLogLengthAppend(accounts: seq<Account>, a: Account)
    ensures TotalLogLength(accounts + [a]) == TotalLogLength(accounts) + |a.transactions|
  {
    if |accounts| > 0 {
      assert (accounts + [a])[1..] == accounts[1..] + [a];
      TotalLogLengthAppend(accounts[1..], a);
    }
  }

  /** `accounts.reduce((h, a) => h.concat(a.getTransactionHistory()), [])`:
      the logs of the accounts, one after another, in the order the accounts
      were added (not re-sorted by time). It holds exactly as many entries as
      all the logs together. */
  function History(accounts: seq<Account>): (h: seq<Entry<nat>>)
    reads accounts
    ensures |h| == TotalLogLength(accounts)
  {
    if |accounts| == 0 then []
    else
      var n := |accounts| - 1;
      assert accounts == accounts[..n] + [accounts[n]];
      TotalLogLengthAppend(accounts[..n], accounts[n]);
      History(accounts[..n]) + accounts[n].transactions
  }

  /** Entry `i` of account `k`'s log sits in the history right after the logs
      of the accounts added before `k`. */
  lemma {:induction false} HistoryAt(accounts: seq<Account>, k: nat, i: nat)
    requires k < |accounts| && i < |accounts[k].transactions|
    ensures TotalLogLength(accounts[..k]) + i < |History(accounts)|
    ensures History(accounts)[TotalLogLength(accounts[..k]) + i] == accounts[k].transactions[i]
  {
    var n := |accounts| - 1;
    var prefix := accounts[..n];
    if k == n {
      assert accounts[..k] == prefix;
    } else {
      HistoryAt(prefix, k, i);
      assert prefix[..k] == accounts[..k];
    }
  }

  class Client {
    var email: string
    var password: string
    var accounts: seq<Account>

    /** A new client owns no accounts. */
    constructor (email: string, password: string)
      ensures this.email == email && this.password == password && accounts == []
    {
      this.email := email;
      this.password := password;
      accounts := [];
    }

    /** Appends the account at the end, with no check for duplicates. */
    method CreateAccount(account: Account)
      modifies this`accounts
      ensures accounts == old(accounts) + [account]
      ensures |accounts| == |old(accounts)| + 1
    {
      accounts := accounts + [account];
    }

    /** Reads the accounts and their logs and changes nothing; empty without
        accounts, and as long as all the logs together. */
    function GetTransactionHistory(): (h: seq<Entry<nat>>)
      reads this, accounts
      ensures h == History(accounts)
      ensures accounts == [] ==> h == []
      ensures |h| == TotalLogLength(accounts)
    {
      History(accounts)
    }
  }
}
