/** The rules inside the page's register, login, transfer and deposit
    handlers: a list of users, each with a balance and a list of activity
    entries, and the index of the logged-in user. The list is loaded from
    browser storage in the source; here it is a constructor parameter and
    nothing is written back. */
module App {
  import opened Support
  import opened Seqs

  /** An activity entry: 'sent' (to an email), 'received' (from an email) or
      'deposit'; the date string the source adds is not modelled. */
  datatype Activity = Sent(amount: int, to: string) | Received(amount: int, from: string) | Deposited(amount: int)

  datatype User = User(name: string, email: string, password: string, balance: int, transactions: seq<Activity>)

  /** The message each handler alerts instead of carrying on. */
  datatype Rejection =
    | EmailTaken          // the email is already registered
    | WrongCredentials    // wrong email or password
    | SelfTransfer        // cannot transfer to your own account
    | NonPositiveAmount   // the amount must be greater than 0
    | InsufficientBalance // not enough balance
    | RecipientNotFound   // recipient not found

  function Balance(u: User): int
  {
    u.balance
  }

  /** The sum of all users' balances. */
  function TotalBalance(users: seq<User>): int
  {
    SumOf(users, Balance)
  }

  /** What an activity entry did to its user's balance. */
  function Effect(a: Activity): int
  {
    match a
    case Sent(amount, _) => -amount
    case Received(amount, _) => amount
    case Deposited(amount) => amount
  }

  /** The user after one activity entry is applied and appended. */
  function Record(u: User, a: Activity): (r: User)
    ensures r.balance == u.balance + Effect(a) && r.transactions == u.transactions + [a]
    ensures r.name == u.name && r.email == u.email && r.password == u.password
    ensures BalanceBefore(r.balance, r.transactions, Effect) == BalanceBefore(u.balance, u.transactions, Effect)
  {
    SumOfAppend(u.transactions, Effect, a);
    u.(balance := u.balance + Effect(a), transactions := u.transactions + [a])
  }

  /** The successful branch of the transfer handler on users `i` (the
      sender) and `j` (the recipient). */
  function MoveFunds(users: seq<User>, i: nat, j: nat, amount: int): (r: seq<User>)
    requires i < |users| && j < |users|
    ensures |r| == |users|
    ensures forall k :: 0 <= k < |users| && k != i && k != j ==> r[k] == users[k]
    ensures i != j ==> r[i].email == users[i].email && r[j].email == users[j].email
  {
    var sender := users[i];
    var afterDebit := users[i := Record(sender, Sent(amount, users[j].email))];
    afterDebit[j := Record(afterDebit[j], Received(amount, sender.email))]
  }

  /** Between two distinct users, the sender loses the amount, the recipient
      gains it, each gets one entry, nobody else changes, and the total of all
      balances is unchanged. */
  lemma MoveFundsConserves(users: seq<User>, i: nat, j: nat, amount: int)
    requires i < |users| && j < |users| && i != j
    ensures |MoveFunds(users, i, j, amount)| == |users|
    ensures MoveFunds(users, i, j, amount)[i] == Record(users[i], Sent(amount, users[j].email))
    ensures MoveFunds(users, i, j, amount)[j] == Record(users[j], Received(amount, users[i].email))
    ensures MoveFunds(users, i, j, amount)[i].balance == users[i].balance - amount
    ensures MoveFunds(users, i, j, amount)[j].balance == users[j].balance + amount
    ensures forall k :: 0 <= k < |users| && k != i && k != j ==> MoveFunds(users, i, j, amount)[k] == users[k]
    ensures TotalBalance(MoveFunds(users, i, j, amount)) == TotalBalance(users)
  {
    var sent := Record(users[i], Sent(amount, users[j].email));
    var received := Record(users[j], Received(amount, users[i].email));
    SumOfMove(users, Balance, i, j, sent, received, amount);
  }

  class Session {
    var users: seq<User>
    /** The logged-in user, by position in `users`; None before login. */
    var current: Option<nat>

    ghost predicate Valid()
      reads this
    {
      current.Some? ==> current.value < |users|
    }

    constructor (stored: seq<User>)
      ensures Valid() && users == stored && current == None
    {
      users := stored;
      current := None;
    }

    /** Refused when a user already has that email; otherwise one user is
        appended with the initial deposit as balance and no activity. */
    method Register(name: string, email: string, password: string, initialDeposit: int)
      returns (r: Result<(), Rejection>)
      requires Valid()
      modifies this`users
      ensures Valid()
      ensures FindFirst(old(users), (u: User) => u.email == email).Some? ==>
                r == Err(EmailTaken) && users == old(users)
      ensures FindFirst(old(users), (u: User) => u.email == email).None? ==>
                r == Ok(()) && users == old(users) + [User(name, email, password, initialDeposit, [])]
    {
      if FindFirst(users, (u: User) => u.email == email).Some? {
        return Err(EmailTaken);
      }
      users := users + [User(name, email, password, initialDeposit, [])];
      return Ok(());
    }

    /** The first user matching both email and password becomes the current
        user; on failure the current user stays as it was. */
    method Login(email: string, password: string) returns (r: Result<(), Rejection>)
      requires Valid()
      modifies this`current
      ensures Valid()
      ensures match FindFirst(users, (u: User) => u.email == email && u.password == password)
              case None => r == Err(WrongCredentials) && current == old(current)
              case Some(k) => r == Ok(()) && current == Some(k) &&
                              users[k].email == email && users[k].password == password
    {
      match FindFirst(users, (u: User) => u.email == email && u.password == password)
      case None =>
        return Err(WrongCredentials);
      case Some(k) =>
        current := Some(k);
        return Ok(());
    }

    /** The transfer handler: rejected, in this order, for a transfer to
        oneself, a non-positive amount, an amount above the balance and an
        unknown recipient, with nothing changed; otherwise the sender is
        debited, the recipient credited, each gets one entry, and the total of
        all balances is unchanged. */
    method Transfer(recipientEmail: string, amount: int) returns (r: Result<(), Rejection>)
      requires Valid() && current.Some?
      modifies this`users
      ensures Valid()
      ensures var me := old(users)[current.value];
              var to := FindFirst(old(users), (u: User) => u.email == recipientEmail);
              && (recipientEmail == me.email ==> r == Err(SelfTransfer))
              && (recipientEmail != me.email && amount <= 0 ==> r == Err(NonPositiveAmount))
              && (recipientEmail != me.email && amount > 0 && amount > me.balance ==> r == Err(InsufficientBalance))
              && (recipientEmail != me.email && 0 < amount <= me.balance && to.None? ==> r == Err(RecipientNotFound))
              && (r.Ok? <==> recipientEmail != me.email && 0 < amount <= me.balance && to.Some?)
              && (r.Ok? ==> users == MoveFunds(old(users), current.value, to.value, amount))
      ensures r.Err? ==> users == old(users)
      ensures r.Ok? ==> TotalBalance(users) == old(TotalBalance(users))
      ensures r.Ok? ==> forall k :: 0 <= k < |users| ==> 
                BalanceBefore(users[k].balance, users[k].transactions, Effect) ==
                BalanceBefore(old(users)[k].balance, old(users)[k].transactions, Effect)
    {
      var me := current.value;
      if recipientEmail == users[me].email {
        return Err(SelfTransfer);
      }
      if amount <= 0 {
        return Err(NonPositiveAmount);
      }
      if amount > users[me].balance {
        return Err(InsufficientBalance);
      }
      var to := FindFirst(users, (u: User) => u.email == recipientEmail);
      if to.None? {
        return Err(RecipientNotFound);
      }
      MoveFundsConserves(users, me, to.value, amount);
      users := MoveFunds(users, me, to.value, amount);
      return Ok(());
    }

    /** The deposit handler: a non-positive amount is rejected with nothing
        changed; otherwise the current user's balance grows by the amount and
        one deposit entry is appended. */
    method Deposit(amount: int) returns (r: Result<(), Rejection>)
      requires Valid() && current.Some?
      modifies this`users
      ensures Valid()
      ensures r.Err? <==> amount <= 0
      ensures r.Err? ==> r.error == NonPositiveAmount && users == old(users)
      ensures r.Ok? ==> users == old(users)[current.value := Record(old(users)[current.value], Deposited(amount))]
      ensures r.Ok? ==> users[current.value].balance == old(users)[current.value].balance + amount
      ensures r.Ok? ==> TotalBalance(users) == old(TotalBalance(users)) + amount
    {
      if amount <= 0 {
        return Err(NonPositiveAmount);
      }
      var me := current.value;
      SumOfUpdate(users, Balance, me, Record(users[me], Deposited(amount)));
      users := users[me := Record(users[me], Deposited(amount))];
      return Ok(());
    }
  }
}
