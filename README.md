# Fintech banking ledger — a Dafny model

This project models the ledger core of a small banking web application
written in JavaScript. Clients own accounts. Accounts hold a balance and an
append-only log of transaction records. Deposits, withdrawals and transfers
change balances and append records. Everything is in memory.

The application carries two generations of its model, and the project
models both, file by file:

- `Fintech` is the registry. It holds the clients, the accounts and a
  system-wide index of records. It keeps client emails unique. It refuses
  to open an account for an unknown owner. It refuses to remove a client
  who still has an active account. It appends every record it produces to
  its index. Counts and totals are computed on demand.
- The registry works with a Spanish-language account (`Cuenta`) and client
  (`Cliente`). Their classes are not part of this model. Module `Cuentas`
  states what the account's tests assert, as functions on account values,
  and `Fintech.Cliente` does the same for the client. Where the tests leave
  a case open, the model makes a choice, and each such choice is listed
  under "Left out" on a line starting with the member's name.
- `Transaccion` is the Spanish-language record. It has a validator, kind
  predicates, the sign rule for amounts, metadata and factories.
- `Account` and `Client` are the English-language model. An account has a
  guarded deposit and withdraw and sequential log ids. A client
  concatenates its accounts' logs into one history.
- `AccountService`, `TransactionService` and `AuthService` are list-backed
  services. They create accounts, deposit and withdraw, record transfers,
  register users and log them in.
- `App` holds the rules inside the page's register, login, transfer and
  deposit handlers. They act on a list of users and the index of the
  logged-in user.

Money is an integer number of cents. Randomly generated ids and the clock
are parameters of the operations that need them.

Modules: `Support` (Option, Result), `Seqs` (find, filter, sum and their
lemmas), `Transaction`, `Account`, `Client`, `Cuentas`, `Fintech`,
`AccountService`, `TransactionService`, `AuthService`, `App`.

Choices the code leaves open or makes differently from a conventional
ledger:

- The English `Account` has no state (active, blocked, closed) and no
  transfer. Only the Spanish account, through its tests, has them.
- `Client.createAccount` appends without a duplicate check.
- No transfer is rolled back and nothing is locked.
- In the model, closing an account depends only on its balance, so a
  blocked or an already closed account with a zero balance is closed
  (again). This is a choice of the model, listed under "Left out".

## Model

| member | source | states |
|---|---|---|
| `Transaction.Transaccion.constructor` | js/models/Transaction.js:2-11 | a new record has the given fields, status COMPLETADA, no metadata, and an empty description by default |
| `Transaction.Transaccion.GetMetadatos` | js/models/Transaction.js:42-44 | returns a map with the same keys and values as the record's metadata, as a value that later changes do not reach |
| `Transaction.Transaccion.SetEstado` | js/models/Transaction.js:47-49 | changes only the status; `esPendiente`/`esCompletada` then reflect the new value |
| `Transaction.Transaccion.SetDescripcion` | js/models/Transaction.js:51-53 | changes only the description |
| `Transaction.Transaccion.AgregarMetadato` | js/models/Transaction.js:55-57 | sets or overwrites one key and keeps every other key's value |
| `Transaction.IsKnownKind` | js/models/Transaction.js:108 | holds exactly for DEPOSITO, RETIRO, TRANSFERENCIA_ENVIADA and TRANSFERENCIA_RECIBIDA; both outgoing kinds are known kinds |
| `Transaction.Transaccion.EsDeposito` | js/models/Transaction.js:60-62 | a deposit is a kind `validar` accepts and is shown with '+' |
| `Transaction.Transaccion.EsRetiro` | js/models/Transaction.js:64-66 | a withdrawal is a kind `validar` accepts and is shown with '-' |
| `Transaction.Transaccion.EsCompletada` | js/models/Transaction.js:72-74 | a completed record is never pending |
| `Transaction.Transaccion.EsPendiente` | js/models/Transaction.js:76-78 | a pending record is not COMPLETADA, FALLIDA or CANCELADA |
| `Transaction.Transaccion.EsTransferencia` | js/models/Transaction.js:68-70 | holds exactly for the sent and the received transfer kinds |
| `Transaction.KindsPartition` | js/models/Transaction.js:60-70 | the deposit, withdrawal and transfer tests are mutually exclusive, and a kind is one of the four known kinds exactly when one of them holds |
| `Transaction.Sign` | js/models/Transaction.js:82 | the sign is '-' exactly for RETIRO and TRANSFERENCIA_ENVIADA, '+' otherwise |
| `Transaction.Transaccion.SignoMonto` | js/models/Transaction.js:81-84 | a record shows '-' exactly when it is a withdrawal or a sent transfer |
| `Transaction.Transaccion.Validar` | js/models/Transaction.js:101-112 | checks the ids, then the amount, then the kind, with the first failing check's error; true exactly when all three pass |
| `Transaction.Transaccion.CrearDeposito` | js/models/Transaction.js:129-131 | a fresh completed DEPOSITO record with the given fields (an empty description by default) and no metadata |
| `Transaction.Transaccion.CrearRetiro` | js/models/Transaction.js:133-135 | a fresh completed RETIRO record with the given fields (an empty description by default) and no metadata |
| `Transaction.Transaccion.CrearTransferenciaEnviada` | js/models/Transaction.js:137-141 | a fresh TRANSFERENCIA_ENVIADA record, with an empty description by default, whose only metadata is cuentaDestinoId |
| `Transaction.Transaccion.CrearTransferenciaRecibida` | js/models/Transaction.js:143-147 | a fresh TRANSFERENCIA_RECIBIDA record, with an empty description by default, whose only metadata is cuentaOrigenId |
| `Account.NetIsDepositsMinusWithdrawals` | js/models/Account.js:8-24 | the net effect of a log is the total of its deposits minus the total of its withdrawals |
| `Account.Account.constructor` | js/models/Account.js:2-6 | a new account holds the initial balance (0 by default) and an empty log, and its invariant holds |
| `Account.Account.Deposit` | js/models/Account.js:8-15 | succeeds exactly for a positive amount; then the balance grows by the amount and one deposit entry with the next id is appended; otherwise nothing changes; balance = opening balance + net of the log stays true |
| `Account.Account.Withdraw` | js/models/Account.js:17-24 | succeeds exactly when 0 < amount <= balance; then the balance drops by the amount and one withdrawal entry is appended; otherwise nothing changes; a non-negative balance stays non-negative |
| `Account.Account.RecordTransaction` | js/models/Account.js:26-34 | appends one entry whose id is the log's length plus one, so ids stay 1..n in insertion order |
| `Account.Account.GetBalance` | js/models/Account.js:36-38 | the balance equals the opening balance plus the log's net effect |
| `Account.Account.GetTransactions` | js/models/Account.js:40-42 | the account's own log, with sequential ids and a net effect that accounts for the balance |
| `Account.Account.GetTransactionHistory` | js/models/Account.js:44-46 | the same log as `GetTransactions` |
| `Client.Client.constructor` | js/models/Client.js:2-6 | a new client has the given credentials and no accounts |
| `Client.Client.CreateAccount` | js/models/Client.js:8-10 | appends the account at the end with no duplicate check; the list grows by one |
| `Client.Client.GetTransactionHistory` | js/models/Client.js:12-16 | reads only; exactly `History`, the accounts' logs concatenated in account order; empty without accounts; as long as all the logs together |
| `Client.History` | js/models/Client.js:13-15 | the accounts' logs concatenated in account order; its length is the sum of the accounts' log lengths |
| `Client.HistoryAt` | js/models/Client.js:12-16 | entry i of account k's log sits in the history right after all entries of the accounts added before k: grouped by account in insertion order, not sorted by time |
| `Client.TotalLogLengthAppend` | js/models/Client.js:12-16 | adding an account adds its log's length to the total |
| `Cuentas.Abrir` | js/models/__tests__/Cuenta.test.js:5-22 | a new account is active, holds the opening balance, 0 when none is given, and has an empty log |
| `Cuentas.AplicarCuadra` | js/models/__tests__/Cuenta.test.js:240-251 | applying a record keeps the balance equal to the opening balance plus the signed sum of the log |
| `Cuentas.Depositar` | js/models/__tests__/Cuenta.test.js:33-67 | refuses a non-positive amount, then a non-active account; otherwise adds the amount and appends and returns one DEPOSITO record |
| `Cuentas.ChequearRetiro` | js/models/__tests__/Cuenta.test.js:90-113 | passes exactly for a positive amount on an active account holding at least the amount |
| `Cuentas.Retirar` | js/models/__tests__/Cuenta.test.js:71-113 | refuses a non-positive amount, a non-active account and insufficient balance (checked in that order, a choice of the model); otherwise subtracts the amount, leaving a non-negative balance, and appends and returns one RETIRO record |
| `Cuentas.TransferirSalida` | js/models/__tests__/Cuenta.test.js:117-146 | the sending side: the checks of a withdrawal, then a debit that leaves a non-negative balance and a TRANSFERENCIA_ENVIADA record naming the destination |
| `Cuentas.TransferirEntrada` | js/models/__tests__/Cuenta.test.js:117-137 | the receiving side: a credit and a TRANSFERENCIA_RECIBIDA record naming the source |
| `Cuentas.Cerrar` | js/models/__tests__/Cuenta.test.js:167-181 | refused exactly when the balance is not zero; otherwise the account becomes CERRADA and nothing else changes |
| `Cuentas.Bloquear` | js/models/__tests__/Cuenta.test.js:150-156 | only the state changes, to BLOQUEADA, and `puedeRetirar` is false for every amount |
| `Cuentas.Activar` | js/models/__tests__/Cuenta.test.js:158-165 | only the state changes, to ACTIVA, and `puedeRetirar` then holds exactly for amounts the balance covers |
| `Cuentas.PuedeRetirar` | js/models/__tests__/Cuenta.test.js:219-236 | for a positive amount, holds exactly when the withdrawal checks (amount, state, funds) all pass |
| `Cuentas.BloqueadaRechaza` | js/models/__tests__/Cuenta.test.js:60-67 | a blocked account refuses deposits, withdrawals and outgoing transfers as not active, `puedeRetirar` is false, and activating it restores it as active |
| `Cuentas.PuedeRetirarSiYSoloSi` | js/models/__tests__/Cuenta.test.js:219-236 | for a positive amount, `puedeRetirar` holds exactly when a withdrawal succeeds |
| `Cuentas.CerradaRechaza` | js/models/__tests__/Cuenta.test.js:167-173 | a closed account refuses every deposit, withdrawal and outgoing transfer of a positive amount as not active |
| `Cuentas.OperacionesCuadran` | js/models/__tests__/Cuenta.test.js:240-251 | every successful deposit, withdrawal and transfer side keeps the balance equal to the opening balance plus the signed sum of the log |
| `Fintech.AgregarCuenta` | js/models/Fintech.js:77 | the client gains the account id unless it already has it, in which case nothing changes and the answer is false |
| `Fintech.VerificarPassword` | js/models/Fintech.js:187 | accepts the stored password, character for character, and nothing else |
| `Fintech.CerrarQuitaActiva` | js/models/__tests__/Fintech.test.js:236-249 | closing the account at a position removes exactly that position from the active ones, so the active count drops by one when it was active |
| `Fintech.Transferir` | js/models/Fintech.js:130-132 | the source's checks decide; on success the source is debited, then the destination as it then is is credited; the received record is the destination's newest; no other account changes |
| `Fintech.TransferirConserva` | js/models/Fintech.js:122-138 | a successful transfer leaves the sum of all balances unchanged; between two accounts the source loses and the destination gains the amount |
| `Fintech.SaldoNoNegativo` | js/models/Fintech.js:153-157 | a standalone fact about the system total: a sum of balances none of which is negative is not negative (the registry does not keep balances non-negative, see "Left out") |
| `Fintech.AutenticarConEmailsDistintos` | js/models/Fintech.js:181-188 | with distinct emails, authentication succeeds exactly when some client has both the email and the password |
| `Fintech.Fintech.constructor` | js/models/Fintech.js:2-9 | a new registry has no clients, accounts or records |
| `Fintech.Fintech.GetClientes` | js/models/Fintech.js:20-22 | a copy holding the clients in order |
| `Fintech.Fintech.GetCuentas` | js/models/Fintech.js:24-26 | a copy holding the accounts in order |
| `Fintech.Fintech.GetTransacciones` | js/models/Fintech.js:28-30 | a copy holding the indexed records in order |
| `Fintech.Fintech.RegistrarCliente` | js/models/Fintech.js:33-39 | refused when a client has the same email, with the list unchanged; otherwise exactly that client is appended; distinct emails stay distinct |
| `Fintech.Fintech.EliminarCliente` | js/models/Fintech.js:41-59 | refused for an unknown id, then for a client with an active account, with the list unchanged; otherwise exactly the first client with that id is removed and the answer is true; accounts untouched |
| `Fintech.Fintech.IndiceCliente` | js/models/Fintech.js:53 | the position of the first client with that id, or none when no client has it |
| `Fintech.Fintech.BuscarCliente` | js/models/Fintech.js:61-63 | the first client with that id, or none exactly when no client has it |
| `Fintech.Fintech.BuscarClientePorEmail` | js/models/Fintech.js:65-67 | the first client with that email, or none exactly when no client has it |
| `Fintech.Fintech.AbrirCuenta` | js/models/Fintech.js:70-79 | refused for an unknown owner with nothing changed; otherwise the account is appended to the registry and its id added to the owner's accounts |
| `Fintech.Fintech.CerrarCuenta` | js/models/Fintech.js:81-89 | refused for an unknown id; otherwise the account's close decides, its refusal passed on unchanged, its success giving true; closing an active account lowers the active count by one |
| `Fintech.Fintech.IndiceCuenta` | js/models/Fintech.js:91-93 | the position of the first account with that id, or none when no account has it |
| `Fintech.Fintech.BuscarCuenta` | js/models/Fintech.js:91-93 | the first account with that id, or none exactly when no account has it |
| `Fintech.Fintech.GetCuentasPorCliente` | js/models/Fintech.js:95-97 | exactly the accounts whose owner is that client, as an order-preserving subsequence of the registry, one per owned position |
| `Fintech.Fintech.TieneCuentaActiva` | js/models/Fintech.js:48-49 | holds exactly when an account owned by the client is active |
| `Fintech.Fintech.RealizarDeposito` | js/models/Fintech.js:100-109 | refused for an unknown account or when the account refuses, with nothing changed; otherwise exactly the returned record is appended to the index and the system total grows by the amount |
| `Fintech.Fintech.RealizarRetiro` | js/models/Fintech.js:111-120 | as a deposit, with the account's withdrawal; the system total drops by the amount |
| `Fintech.Fintech.RealizarTransferencia` | js/models/Fintech.js:122-138 | refused when either account is missing or the source refuses, with nothing changed; otherwise exactly two records are appended, the sent one then the destination's newest, and the system total is unchanged |
| `Fintech.Fintech.GetTotalClientes` | js/models/Fintech.js:141-143 | the number of clients |
| `Fintech.Fintech.GetTotalCuentas` | js/models/Fintech.js:145-147 | the number of accounts |
| `Fintech.Fintech.GetTotalCuentasActivas` | js/models/Fintech.js:149-151 | the number of positions holding an active account: at most the number of accounts, and zero exactly when no account is active |
| `Fintech.Fintech.GetSaldoTotalSistema` | js/models/Fintech.js:153-157 | the sum of all balances (the sum that deposits, withdrawals and transfers are proved to move by +amount, -amount and 0): zero without accounts, non-negative when no balance is negative |
| `Fintech.Fintech.GetTotalTransacciones` | js/models/Fintech.js:159-161 | the number of indexed records |
| `Fintech.Fintech.GetTransaccionesPorPeriodo` | js/models/Fintech.js:163-167 | exactly the indexed records whose timestamp lies in the period, one per such position, as an order-preserving subsequence of the index |
| `Fintech.Fintech.GetEstadisticas` | js/models/Fintech.js:169-178 | the counts and the total balance of the registry, its active count equal to `GetTotalCuentasActivas` |
| `Fintech.Fintech.AutenticarCliente` | js/models/Fintech.js:181-188 | none for an unknown email or a wrong password; otherwise a registered client with that email and password |
| `AccountService.ServiceAccount.constructor` | js/services/AccountService.js:8-13 | the plain account object: the given number, balance and owner, and an empty log |
| `AccountService.AccountService.constructor` | js/services/AccountService.js:2-4 | a new service has no accounts |
| `AccountService.AccountService.CreateAccount` | js/services/AccountService.js:6-16 | appends and returns one new account with the initial deposit as balance, the client's email as owner and an empty log |
| `AccountService.AccountService.GetAccountByEmail` | js/services/AccountService.js:18-20 | the first account whose owner is the email, or none exactly when no account is |
| `AccountService.AccountService.GetTransactionHistory` | js/services/AccountService.js:22-24 | the account's own log |
| `AccountService.AccountService.Deposit` | js/services/AccountService.js:26-34 | adds the amount with no validation and appends one deposit entry; balance minus the log's net effect is unchanged |
| `AccountService.AccountService.Withdraw` | js/services/AccountService.js:36-48 | succeeds exactly when the balance covers the amount; then subtracts it and appends one withdrawal entry, leaving a non-negative balance; otherwise "Insufficient funds" with nothing changed |
| `TransactionService.TransactionService.constructor` | js/services/TransactionService.js:2-4 | a new service has no records |
| `TransactionService.TransactionService.TransferFunds` | js/services/TransactionService.js:6-18 | appends exactly one transfer record with the given sender, recipient and amount, returns it, and leaves earlier records untouched |
| `TransactionService.TransactionService.GetTransactions` | js/services/TransactionService.js:20-24 | exactly the records whose sender or recipient is the email, one per such position, as an order-preserving subsequence of the log |
| `AuthService.AuthService.constructor` | js/services/AuthService.js:2-4 | the service starts from the given client list |
| `AuthService.AuthService.Register` | js/services/AuthService.js:6-14 | refused when the email is registered, with the list unchanged; otherwise appends and returns the new pair, keeps emails distinct, and a login with it then succeeds |
| `AuthService.AuthService.Login` | js/services/AuthService.js:16-22 | a stored pair matching both email and password; "Invalid email or password" exactly when none matches |
| `App.Record` | js/main.js:117-136 | a user after one activity entry: the balance moves by the entry's effect, the entry is appended, and the opening balance is unchanged |
| `App.MoveFunds` | js/main.js:117-136 | the users after a transfer's two updates: the same number of users, everyone but the two parties unchanged, and the parties keep their emails |
| `App.MoveFundsConserves` | js/main.js:117-136 | between two users the sender loses and the recipient gains the amount, each gets one entry, nobody else changes, and the total of all balances is unchanged |
| `App.Session.constructor` | js/main.js:4-5 | starts from the stored users with nobody logged in |
| `App.Session.Register` | js/main.js:45-59 | refused when the email exists; otherwise appends one user with the initial deposit as balance and no activity |
| `App.Session.Login` | js/main.js:74-84 | the first user matching both email and password becomes current; on failure the current user is unchanged |
| `App.Session.Transfer` | js/main.js:94-136 | rejects, in order, a self-transfer, a non-positive amount, an amount above the balance and an unknown recipient, with nothing changed; otherwise debits the sender, credits the recipient, logs one sent and one received entry, and keeps the total of balances and every user's opening balance |
| `App.Session.Deposit` | js/main.js:152-166 | rejects a non-positive amount with nothing changed; otherwise the current user's balance grows by the amount and one deposit entry is appended |

## Left out

- The page's screens, navigation, form wiring, alerts, form resets,
  `loadDashboard` and the logout button (js/main.js:8-34, 176-258). They
  are user interface, not ledger rules.
- Browser storage. The initial user and client lists are constructor
  parameters, and nothing is written back.
- Random ids. Account numbers and transaction ids are parameters.
- Dates. Records carry no date, except the registry's records, whose
  timestamp is an opaque number passed in. `getFechaFormateada`,
  `getResumen` and the date strings of the page's entries are not modelled.
- Number formatting (`toFixed(2)`), `parseFloat`, NaN and floating point.
  Money is an integer number of cents.
- `toJSON` serialisation, `getNombre` and `getCodigo`. The name and code are
  plain fields of `Fintech.Fintech`.
- The Spanish account and client classes are not part of this model. Their
  behaviour comes from their tests. The account's type (AHORRO/CORRIENTE)
  and its reversed, limited history are not modelled, because the registry
  uses neither.
- Object identity. Registry accounts, clients and records are values. The
  client's account list holds account ids, so the sharing of one account
  object between the registry and its client is modelled through ids. A
  later change to a record object is not seen by the index that holds it.
- `Fintech.Fintech.EliminarCliente`: the `return false` branch is not
  modelled. It can only run when `findIndex` misses a client that `find`
  just found with the same test.
- `Fintech.AgregarCuenta`: adding an account id the client already has is
  a no-op that answers false. No test adds the same account twice. This
  follows the intent of a client account list without duplicates.
- `Fintech.VerificarPassword`: exact string equality is assumed. The
  client class is not part of this model.
- `Cuentas.Abrir`: accepts any opening balance, a negative one included,
  and the account is then active with that balance. The tests open accounts
  only with a zero or a positive balance. So the registry does not keep
  every balance non-negative, and `Fintech.SaldoNoNegativo` is a standalone
  fact about sums, not an invariant the registry maintains.
- `Cuentas.Depositar`: when the amount is not positive and the account is
  not active, the amount error is reported. No test combines the two, and
  the order follows `validar` and the other operations.
- `Cuentas.Retirar`: checks the amount, then the state, then the funds,
  and reports the first failure. The tests check each condition alone, so
  the order when several fail is a choice of the model.
- `Cuentas.ChequearRetiro`: the same order as `Cuentas.Retirar`.
- `Cuentas.TransferirSalida`: applies the amount and state checks of a
  withdrawal, in the same order. The tests of a transfer check only
  insufficient funds.
- `Cuentas.Cerrar`: depends only on the balance. A blocked or an already
  closed account with a zero balance is closed. The tests close only an
  active account.
- `Cuentas.PuedeRetirar`: does not look at the sign of the amount, so it
  holds for a non-positive amount on an active account. The tests use only
  positive amounts.
- `Cuentas.Bloquear`: blocks from any state, a closed account included,
  and `Cuentas.Activar` then reopens it. The tests block only an active
  account.
- `Cuentas.Activar`: reactivates from any state, a closed account
  included. The tests reactivate only a blocked account.
- `Cuentas.TransferirEntrada`: credits the destination whatever its state.
  No test transfers into a blocked or closed account.
- `Fintech.Transferir`: a transfer from an account to itself succeeds when
  the withdrawal checks pass. The balance is unchanged, and the account's
  log gains a sent record and then a received record. The tests transfer
  only between two different accounts. The page's own transfer handler
  (`App.Session.Transfer`) rejects a transfer to oneself.
- `Cuentas.Movimiento`: the registry's records are values of their own
  type, not `Transaction.Transaccion` objects. The other account of a
  transfer is a field, not the cuentaDestinoId/cuentaOrigenId metadata, and
  nothing ties these records to what the factory methods build.
- `Transaction.Transaccion.Validar`: only the empty string counts as a
  missing id. Ids that are `undefined`, `null` or 0 have no counterpart
  among strings. Metadata values are strings.
- `Transaction.Transaccion.GetMetadatos`: returns a map value. Object
  identity, i.e. that each call returns a new object, is not stated.
- `Account.Account.GetTransactions`: returns the log as a value, not as the
  live array, so changes made through the returned array are not modelled.
- `AccountService.AccountService.GetTransactionHistory`: returns the log as
  a value, not as the live array.
- `AccountService.ServiceAccount`: the account number and owner are
  constants. The service never reassigns them, but a caller holding the
  plain object could.
- `App.Session.Transfer` and `App.Session.Deposit` require a logged-in user.
  The handlers read `currentUser` and would throw without one. Their forms
  are shown only after login.
