/** The Spanish-language account the registry works with (`Cuenta`). Its
    class is not part of this model: what its tests assert is stated here,
    as functions on account values. Where the tests leave a case open a
    choice is made: the order of the checks when several fail, the checks
    of an outgoing transfer, closing, blocking and reactivating from any
    state, crediting an inactive account, and `puedeRetirar` on a
    non-positive amount. An account has an id, the id of
    its owning client, a state, a balance and its own log of records. */
module Cuentas {
  import opened Support
  import opened Seqs
  import opened Transaction

  /** 'ACTIVA', 'BLOQUEADA', 'CERRADA'. */
  datatype Estado = Activa | Bloqueada | Cerrada

  /** A transaction record as the registry sees it: the account it belongs
      to, its kind (one of the `Transaction` kinds), its amount, its
      description, the other account of a transfer ("" otherwise), and its
      timestamp as an opaque number. */
  datatype Movimiento = Movimiento(cuentaId: string, tipo: string, monto: int,
                                   descripcion: string, contraparte: string, fecha: int)

  datatype Cuenta = Cuenta(id: string, clienteId: string, estado: Estado,
                           saldo: int, transacciones: seq<Movimiento>)

  /** The errors the account's operations throw. */
  datatype Falla =
    | MontoInvalido     // the amount must be greater than zero
    | CuentaNoActiva    // the account is not active
    | SaldoInsuficiente // not enough balance
    | SaldoNoCero       // an account with a non-zero balance cannot be closed

  /** A new account is active, holds the opening balance (0 when none is
      given) and has an empty log. */
  function Abrir(id: string, clienteId: string, saldo: int := 0): (c: Cuenta)
    ensures c.id == id && c.clienteId == clienteId
    ensures c.estado == Activa && c.saldo == saldo && c.transacciones == []
  {
    Cuenta(id, clienteId, Activa, saldo, [])
  }

  /** What a record does to its account's balance: the kinds shown with a
      minus sign subtract, the others add. */
  function Firmado(m: Movimiento): int
  {
    if IsOutgoing(m.tipo) then -m.monto else m.monto
  }

  /** The account after `m` is applied to it: balance moved by the record,
      record appended to the log, nothing else touched. */
  function Aplicar(c: Cuenta, m: Movimiento): Cuenta
  {
    c.(saldo := c.saldo + Firmado(m), transacciones := c.transacciones + [m])
  }

  /** The balance is the opening balance plus the signed sum of the log. */
  ghost predicate Cuadra(c: Cuenta, apertura: int)
  {
    c.saldo == apertura + SumOf(c.transacciones, Firmado)
  }

  /** Applying a record keeps the balance in agreement with the log. */
  lemma AplicarCuadra(c: Cuenta, m: Movimiento, apertura: int)
    requires Cuadra(c, apertura)
    ensures Cuadra(Aplicar(c, m), apertura)
    ensures Aplicar(c, m).id == c.id && Aplicar(c, m).estado == c.estado
  {
    SumOfAppend(c.transacciones, Firmado, m);
  }

  /** `depositar`: the amount first, then the state; on success one deposit
      record is applied and returned. */
  function Depositar(c: Cuenta, monto: int, descripcion: string, fecha: int)
    : (r: Result<(Cuenta, Movimiento), Falla>)
    ensures monto <= 0 ==> r == Err(MontoInvalido)
    ensures monto > 0 && c.estado != Activa ==> r == Err(CuentaNoActiva)
    ensures r.Ok? <==> monto > 0 && c.estado == Activa
    ensures r.Ok? ==> r.value.1 == Movimiento(c.id, DEPOSITO, monto, descripcion, "", fecha)
    ensures r.Ok? ==> r.value.0 == Aplicar(c, r.value.1) && r.value.0.saldo == c.saldo + monto
  {
    if monto <= 0 then Err(MontoInvalido)
    else if c.estado != Activa then Err(CuentaNoActiva)
    else
      var m := Movimiento(c.id, DEPOSITO, monto, descripcion, "", fecha);
      Ok((Aplicar(c, m), m))
  }

  /** The amount, the state and the funds checks shared by a withdrawal and
      the sending side of a transfer. */
  function ChequearRetiro(c: Cuenta, monto: int): (r: Option<Falla>)
    ensures r.None? <==> 0 < monto <= c.saldo && c.estado == Activa
  {
    if monto <= 0 then Some(MontoInvalido)
    else if c.estado != Activa then Some(CuentaNoActiva)
    else if monto > c.saldo then Some(SaldoInsuficiente)
    else None
  }

  /** `retirar`: amount, then state, then funds; on success one withdrawal
      record is applied and returned. */
  function Retirar(c: Cuenta, monto: int, descripcion: string, fecha: int)
    : (r: Result<(Cuenta, Movimiento), Falla>)
    ensures monto <= 0 ==> r == Err(MontoInvalido)
    ensures monto > 0 && c.estado != Activa ==> r == Err(CuentaNoActiva)
    ensures monto > 0 && c.estado == Activa && monto > c.saldo ==> r == Err(SaldoInsuficiente)
    ensures r.Ok? <==> 0 < monto <= c.saldo && c.estado == Activa
    ensures r.Ok? ==> r.value.1 == Movimiento(c.id, RETIRO, monto, descripcion, "", fecha)
    ensures r.Ok? ==> r.value.0 == Aplicar(c, r.value.1) && r.value.0.saldo == c.saldo - monto
    ensures r.Ok? ==> r.value.0.saldo >= 0
  {
    match ChequearRetiro(c, monto)
    case Some(f) => Err(f)
    case None =>
      var m := Movimiento(c.id, RETIRO, monto, descripcion, "", fecha);
      Ok((Aplicar(c, m), m))
  }

  /** The sending half of `transferir`: the checks of a withdrawal, then a
      sent-transfer record naming the destination. */
  function TransferirSalida(c: Cuenta, monto: int, destinoId: string, descripcion: string, fecha: int)
    : (r: Result<(Cuenta, Movimiento), Falla>)
    ensures monto <= 0 ==> r == Err(MontoInvalido)
    ensures monto > 0 && c.estado != Activa ==> r == Err(CuentaNoActiva)
    ensures monto > 0 && c.estado == Activa && monto > c.saldo ==> r == Err(SaldoInsuficiente)
    ensures r.Ok? <==> 0 < monto <= c.saldo && c.estado == Activa
    ensures r.Ok? ==> r.value.1 == Movimiento(c.id, TRANSFERENCIA_ENVIADA, monto, descripcion, destinoId, fecha)
    ensures r.Ok? ==> r.value.0 == Aplicar(c, r.value.1) && r.value.0.saldo == c.saldo - monto
    ensures r.Ok? ==> r.value.0.saldo >= 0
  {
    match ChequearRetiro(c, monto)
    case Some(f) => Err(f)
    case None =>
      var m := Movimiento(c.id, TRANSFERENCIA_ENVIADA, monto, descripcion, destinoId, fecha);
      Ok((Aplicar(c, m), m))
  }

  /** The receiving half of `transferir`: always credits the destination,
      whatever its state, with a received-transfer record naming the source. */
  function TransferirEntrada(c: Cuenta, monto: int, origenId: string, descripcion: string, fecha: int)
    : (r: (Cuenta, Movimiento))
    ensures r.1 == Movimiento(c.id, TRANSFERENCIA_RECIBIDA, monto, descripcion, origenId, fecha)
    ensures r.0 == Aplicar(c, r.1) && r.0.saldo == c.saldo + monto
  {
    var m := Movimiento(c.id, TRANSFERENCIA_RECIBIDA, monto, descripcion, origenId, fecha);
    (Aplicar(c, m), m)
  }

  /** `cerrar`: refused while the balance is not zero; otherwise the account
      becomes closed and nothing else changes. */
  function Cerrar(c: Cuenta): (r: Result<Cuenta, Falla>)
    ensures r.Err? <==> c.saldo != 0
    ensures r.Err? ==> r.error == SaldoNoCero
    ensures r.Ok? ==> r.value == c.(estado := Cerrada)
  {
    if c.saldo != 0 then Err(SaldoNoCero) else Ok(c.(estado := Cerrada))
  }

  /** `bloquear`: only the state changes, and no withdrawal is allowed. */
  function Bloquear(c: Cuenta): (r: Cuenta)
    ensures r.estado == Bloqueada
    ensures r.id == c.id && r.clienteId == c.clienteId && r.saldo == c.saldo && r.transacciones == c.transacciones
    ensures forall monto :: !PuedeRetirar(r, monto)
  {
    c.(estado := Bloqueada)
  }

  /** `activar`: only the state changes, from whatever state, and any amount
      the balance covers can be withdrawn again. */
  function Activar(c: Cuenta): (r: Cuenta)
    ensures r.estado == Activa
    ensures r.id == c.id && r.clienteId == c.clienteId && r.saldo == c.saldo && r.transacciones == c.transacciones
    ensures forall monto :: PuedeRetirar(r, monto) <==> monto <= c.saldo
  {
    c.(estado := Activa)
  }

  /** `puedeRetirar`: the account is active and holds at least the amount. */
  predicate PuedeRetirar(c: Cuenta, monto: int)
    ensures monto > 0 ==> (PuedeRetirar(c, monto) <==> ChequearRetiro(c, monto).None?)
  {
    c.estado == Activa && c.saldo >= monto
  }

  /** A withdrawal of a positive amount goes through exactly when
      `puedeRetirar` says it can. */
  lemma PuedeRetirarSiYSoloSi(c: Cuenta, monto: int, descripcion: string, fecha: int)
    requires monto > 0
    ensures PuedeRetirar(c, monto) <==> Retirar(c, monto, descripcion, fecha).Ok?
  {
  }

  /** A blocked account refuses deposits, withdrawals and outgoing transfers
      of a positive amount as not active, `puedeRetirar` says no, and
      activating it again gives back the account as it was, active. */
  lemma BloqueadaRechaza(c: Cuenta, monto: int, otra: string, descripcion: string, fecha: int)
    requires monto > 0
    ensures Bloquear(c).estado == Bloqueada && Bloquear(c).saldo == c.saldo
    ensures Depositar(Bloquear(c), monto, descripcion, fecha) == Err(CuentaNoActiva)
    ensures Retirar(Bloquear(c), monto, descripcion, fecha) == Err(CuentaNoActiva)
    ensures TransferirSalida(Bloquear(c), monto, otra, descripcion, fecha) == Err(CuentaNoActiva)
    ensures !PuedeRetirar(Bloquear(c), monto)
    ensures Activar(Bloquear(c)) == c.(estado := Activa)
  {
  }

  /** Once closed, an account refuses every deposit, withdrawal and outgoing
      transfer of a positive amount as not active. */
  lemma CerradaRechaza(c: Cuenta, monto: int, otra: string, descripcion: string, fecha: int)
    requires Cerrar(c).Ok? && monto > 0
    ensures Depositar(Cerrar(c).value, monto, descripcion, fecha) == Err(CuentaNoActiva)
    ensures Retirar(Cerrar(c).value, monto, descripcion, fecha) == Err(CuentaNoActiva)
    ensures TransferirSalida(Cerrar(c).value, monto, otra, descripcion, fecha) == Err(CuentaNoActiva)
  {
  }

  /** Every successful operation keeps the balance equal to the opening
      balance plus the signed sum of the log. */
  lemma OperacionesCuadran(c: Cuenta, apertura: int, monto: int, otra: string, descripcion: string, fecha: int)
    requires Cuadra(c, apertura)
    ensures Depositar(c, monto, descripcion, fecha).Ok? ==> Cuadra(Depositar(c, monto, descripcion, fecha).value.0, apertura)
    ensures Retirar(c, monto, descripcion, fecha).Ok? ==> Cuadra(Retirar(c, monto, descripcion, fecha).value.0, apertura)
    ensures TransferirSalida(c, monto, otra, descripcion, fecha).Ok? ==>
              Cuadra(TransferirSalida(c, monto, otra, descripcion, fecha).value.0, apertura)
    ensures Cuadra(TransferirEntrada(c, monto, otra, descripcion, fecha).0, apertura)
  {
    AplicarCuadra(c, Movimiento(c.id, DEPOSITO, monto, descripcion, "", fecha), apertura);
    AplicarCuadra(c, Movimiento(c.id, RETIRO, monto, descripcion, "", fecha), apertura);
    AplicarCuadra(c, Movimiento(c.id, TRANSFERENCIA_ENVIADA, monto, descripcion, otra, fecha), apertura);
    AplicarCuadra(c, Movimiento(c.id, TRANSFERENCIA_RECIBIDA, monto, descripcion, otra, fecha), apertura);
  }
}
