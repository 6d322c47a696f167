/** The authentication service (`AuthService`): a list of email/password
    pairs with registration and login. The list is loaded from browser
    storage in the source; here the initial list is a constructor parameter
    and nothing is written back. */
module AuthService {
  import opened Support
  import opened Seqs

  datatype Credentials = Credentials(email: string, password: string)

  datatype AuthError =
    | EmailAlreadyRegistered  // "Email already registered"
    | InvalidEmailOrPassword  // "Invalid email or password"

  ghost predicate DistinctEmails(cs: seq<Credentials>)
  {
    forall i, j :: 0 <= i < j < |cs| ==> cs[i].email != cs[j].email
  }

  predicate Registered(cs: seq<Credentials>, email: string)
  {
    exists i :: 0 <= i < |cs| && cs[i].email == email
  }

  class AuthService {
    var clients: seq<Credentials>

    constructor (stored: seq<Credentials>)
      ensures clients == stored
    {
      clients := stored;
    }

    /** Refused when the email is taken, with the list unchanged; otherwise
        the pair is appended and returned. Emails that were distinct stay
        distinct. */
    method Register(email: string, password: string) returns (r: Result<Credentials, AuthError>)
      modifies this
      ensures Registered(old(clients), email) ==> r == Err(EmailAlreadyRegistered) && clients == old(clients)
      ensures !Registered(old(clients), email) ==>
                r == Ok(Credentials(email, password)) && clients == old(clients) + [Credentials(email, password)]
      ensures DistinctEmails(old(clients)) ==> DistinctEmails(clients)
      ensures r.Ok? ==> Login(email, password).Ok?
    {
      if FindFirst(clients, (c: Credentials) => c.email == email).Some? {
        return Err(EmailAlreadyRegistered);
      }
      clients := clients + [Credentials(email, password)];
      assert clients[|clients| - 1] == Credentials(email, password);
      return Ok(Credentials(email, password));
    }

    /** The first stored pair matching both email and password; refused
        when none matches. */
    function Login(email: string, password: string): (r: Result<Credentials, AuthError>)
      reads this
      ensures r.Ok? ==> r.value in clients && r.value == Credentials(email, password)
      ensures r.Err? <==> forall i :: 0 <= i < |clients| ==> clients[i] != Credentials(email, password)
      ensures r.Err? ==> r.error == InvalidEmailOrPassword
    {
      match FindFirst(clients, (c: Credentials) => c.email == email && c.password == password)
      case None => Err(InvalidEmailOrPassword)
      case Some(k) => Ok(clients[k])
    }
  }
}
