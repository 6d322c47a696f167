/** The transaction service (`TransactionService`): an append-only list of
    transfer records between two emails, and the query that picks out the
    records involving one email. Transaction ids are random in the source;
    here they are parameters. Every record's type is 'transfer', so the type
    is not stored. */
module TransactionService {
  import opened Seqs

  datatype Transfer = Transfer(transactionId: string, amount: int, sender: string, recipient: string)

  /** The email is the sender or the recipient of the transfer. */
  predicate Involves(t: Transfer, email: string)
  {
    t.sender == email || t.recipient == email
  }

  class TransactionService {
    var transactions: seq<Transfer>

    constructor ()
      ensures transactions == []
    {
      transactions := [];
    }

    /** Appends exactly one record with the given parties and amount and
        returns it; the earlier records are untouched. */
    method TransferFunds(senderEmail: string, recipientEmail: string, amount: int, transactionId: string)
      returns (t: Transfer)
      modifies this
      ensures t == Transfer(transactionId, amount, senderEmail, recipientEmail)
      ensures transactions == old(transactions) + [t]
      ensures |transactions| == |old(transactions)| + 1 && transactions[..|old(transactions)|] == old(transactions)
    {
      t := Transfer(transactionId, amount, senderEmail, recipientEmail);
      transactions := transactions + [t];
    }

    /** Exactly the records whose sender or recipient is the email, in log order. */
    function GetTransactions(email: string): (r: seq<Transfer>)
      reads this
      ensures forall i :: 0 <= i < |r| ==> r[i] in transactions && Involves(r[i], email)
      ensures forall i :: 0 <= i < |transactions| && Involves(transactions[i], email) ==> transactions[i] in r
      ensures IsSubsequence(r, transactions)
      ensures |r| == |set i: nat | i < |transactions| && Involves(transactions[i], email)|
    {
      var involucra := (t: Transfer) => Involves(t, email);
      FilterIsSubsequence(transactions, involucra);
      FilterCount(transactions, involucra);
      assert Positions(transactions, involucra) == set i: nat | i < |transactions| && Involves(transactions[i], email);
      Filter(transactions, involucra)
    }
  }
}
