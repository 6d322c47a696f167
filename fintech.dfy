/** The registry (`Fintech`): the clients, the accounts and a system-wide
    index of every record produced by a deposit, a withdrawal or a transfer
    it carried out. Lookups, counts and totals are computed on demand. */
module Fintech {
  import opened Support
  import opened Seqs
  import opened Cuentas
  import Transaction

  /** The Spanish-language client, whose class is not part of this model:
      its id, email and password, and the ids of the accounts added to it. */
  datatype Cliente = Cliente(id: string, email: string, password: string, cuentas: seq<string>)

  /** `agregarCuenta`: adding an account id the client already has is a no-op
      reported as false. */
  function AgregarCuenta(cl: Cliente, cuentaId: string): (r: (Cliente, bool))
    ensures r.1 <==> cuentaId !in cl.cuentas
    ensures r.0.id == cl.id && r.0.email == cl.email && r.0.password == cl.password
    ensures r.0.cuentas == if r.1 then cl.cuentas + [cuentaId] else cl.cuentas
    ensures cuentaId in r.0.cuentas
  {
    if cuentaId in cl.cuentas then (cl, false) else (cl.(cuentas := cl.cuentas + [cuentaId]), true)
  }

  /** `verificarPassword`: accepts the stored password and nothing else,
      character for character. */
  function VerificarPassword(cl: Cliente, password: string): (ok: bool)
    ensures ok ==> |password| == |cl.password| && forall i :: 0 <= i < |password| ==> password[i] == cl.password[i]
    ensures password == cl.password ==> ok
  {
    cl.password == password
  }

  /** The errors the registry throws, and those of the account it delegates to. */
  datatype Falla =
    | EmailDuplicado            // a client with that email already exists
    | ClienteNoEncontrado       // client not found
    | ClienteConCuentasActivas  // a client with active accounts cannot be removed
    | CuentaNoEncontrada        // account not found
    | CuentasInexistentes       // one or both accounts do not exist
    | EnCuenta(causa: Cuentas.Falla)

  datatype Estadisticas = Estadisticas(totalClientes: nat, totalCuentas: nat, cuentasActivas: nat,
                                       saldoTotal: int, totalTransacciones: nat)

  /** No two clients share an email. */
  ghost predicate EmailsDistintos(cs: seq<Cliente>)
  {
    forall i, j :: 0 <= i < j < |cs| ==> cs[i].email != cs[j].email
  }

  /** The positions of the active accounts. */
  ghost function Activas(cs: seq<Cuenta>): set<nat>
  {
    set i: nat | i < |cs| && cs[i].estado == Activa
  }

  /** Closing the account at `k` removes exactly its position from the
      active ones. */
  lemma CerrarQuitaActiva(cs: seq<Cuenta>, k: nat, c: Cuenta)
    requires k < |cs| && c.estado == Cerrada
    ensures Activas(cs[k := c]) == Activas(cs) - {k}
    ensures |Activas(cs[k := c])| == |Activas(cs)| - (if cs[k].estado == Activa then 1 else 0)
  {
  }

  function Saldo(c: Cuenta): int
  {
    c.saldo
  }

  function Last<T>(s: seq<T>): T
    requires |s| > 0
  {
    s[|s| - 1]
  }

  /** `cuentas[k].transferir(cuentas[j], monto, descripcion)`: the source is
      debited with a sent-transfer record, then the destination, as it is
      after the debit (the same account when k == j), is credited with a
      received-transfer record. Yields the new accounts, the sent record and
      the destination's newest record. */
  function Transferir(cs: seq<Cuenta>, k: nat, j: nat, monto: int, descripcion: string, fecha: int)
    : (r: Result<(seq<Cuenta>, Movimiento, Movimiento), Cuentas.Falla>)
    requires k < |cs| && j < |cs|
    ensures r.Err? <==> TransferirSalida(cs[k], monto, cs[j].id, descripcion, fecha).Err?
    ensures r.Err? ==> r.error == TransferirSalida(cs[k], monto, cs[j].id, descripcion, fecha).error
    ensures r.Ok? ==> |r.value.0| == |cs| && |r.value.0[j].transacciones| > 0
    ensures r.Ok? ==> r.value.1.tipo == Transaction.TRANSFERENCIA_ENVIADA && r.value.1.cuentaId == cs[k].id
    ensures r.Ok? ==> r.value.2.tipo == Transaction.TRANSFERENCIA_RECIBIDA && r.value.2.cuentaId == cs[j].id
    ensures r.Ok? ==> r.value.1.monto == monto && r.value.2.monto == monto
    ensures r.Ok? ==> r.value.2 == Last(r.value.0[j].transacciones)
    ensures r.Ok? ==> forall i :: 0 <= i < |cs| && i != k && i != j ==> r.value.0[i] == cs[i]
  {
    match TransferirSalida(cs[k], monto, cs[j].id, descripcion, fecha)
    case Err(f) => Err(f)
    case Ok(salida) =>
      var cs1 := cs[k := salida.0];
      var entrada := TransferirEntrada(cs1[j], monto, cs[k].id, descripcion, fecha);
      Ok((cs1[j := entrada.0], salida.1, entrada.1))
  }

  /** A transfer moves money between two accounts and creates or destroys
      none: the sum of all balances is unchanged, the source (when it is not
      also the destination) loses the amount and the destination gains it. */
  lemma TransferirConserva(cs: seq<Cuenta>, k: nat, j: nat, monto: int, descripcion: string, fecha: int)
    requires k < |cs| && j < |cs|
    requires Transferir(cs, k, j, monto, descripcion, fecha).Ok?
    ensures SumOf(Transferir(cs, k, j, monto, descripcion, fecha).value.0, Saldo) == SumOf(cs, Saldo)
    ensures k != j ==> Transferir(cs, k, j, monto, descripcion, fecha).value.0[k].saldo == cs[k].saldo - monto
    ensures k != j ==> Transferir(cs, k, j, monto, descripcion, fecha).value.0[j].saldo == cs[j].saldo + monto
    ensures k == j ==> Transferir(cs, k, j, monto, descripcion, fecha).value.0[k].saldo == cs[k].saldo
  {
    var salida := TransferirSalida(cs[k], monto, cs[j].id, descripcion, fecha).value;
    var cs1 := cs[k := salida.0];
    var entrada := TransferirEntrada(cs1[j], monto, cs[k].id, descripcion, fecha);
    SumOfMove(cs, Saldo, k, j, salida.0, entrada.0, monto);
  }

  class Fintech {
    var nombre: string
    var codigo: string
    var clientes: seq<Cliente>
    var cuentas: seq<Cuenta>
    var transacciones: seq<Movimiento>

    /** A new registry has no clients, no accounts and no records. */
    constructor (nombre: string, codigo: string)
      ensures this.nombre == nombre && this.codigo == codigo
      ensures clientes == [] && cuentas == [] && transacciones == []
    {
      this.nombre := nombre;
      this.codigo := codigo;
      clientes := [];
      cuentas := [];
      transacciones := [];
    }

    /** The copy getters: sequence values, which later changes to the
        registry do not reach. */
    function GetClientes(): (r: seq<Cliente>)
      reads this
      ensures |r| == GetTotalClientes() && forall i :: 0 <= i < |r| ==> r[i] == clientes[i]
    {
      clientes
    }

    function GetCuentas(): (r: seq<Cuenta>)
      reads this
      ensures |r| == GetTotalCuentas() && forall i :: 0 <= i < |r| ==> r[i] == cuentas[i]
    {
      cuentas
    }

    function GetTransacciones(): (r: seq<Movimiento>)
      reads this
      ensures |r| == GetTotalTransacciones() && forall i :: 0 <= i < |r| ==> r[i] == transacciones[i]
    {
      transacciones
    }

    /** Position of the first client with that id. */
    function IndiceCliente(clienteId: string): (k: Option<nat>)
      reads this
      ensures k.Some? ==> k.value < |clientes| && clientes[k.value].id == clienteId
      ensures k.Some? ==> forall i :: 0 <= i < k.value ==> clientes[i].id != clienteId
      ensures k.None? <==> forall i :: 0 <= i < |clientes| ==> clientes[i].id != clienteId
    {
      FindFirst(clientes, (c: Cliente) => c.id == clienteId)
    }

    /** `buscarCliente`: the first client with that id, if any. */
    function BuscarCliente(clienteId: string): (r: Option<Cliente>)
      reads this
      ensures r.Some? ==> r.value.id == clienteId && r.value in clientes
      ensures r.Some? ==> IndiceCliente(clienteId).Some? && r.value == clientes[IndiceCliente(clienteId).value]
      ensures r.None? <==> forall i :: 0 <= i < |clientes| ==> clientes[i].id != clienteId
    {
      match IndiceCliente(clienteId)
      case None => None
      case Some(k) => Some(clientes[k])
    }

    /** `buscarClientePorEmail`: the first client with that email, if any. */
    function BuscarClientePorEmail(email: string): (r: Option<Cliente>)
      reads this
      ensures r.Some? ==> r.value.email == email && r.value in clientes
      ensures r.Some? ==> exists k :: 0 <= k < |clientes| && clientes[k] == r.value &&
                                      forall i :: 0 <= i < k ==> clientes[i].email != email
      ensures r.None? <==> forall i :: 0 <= i < |clientes| ==> clientes[i].email != email
    {
      match FindFirst(clientes, (c: Cliente) => c.email == email)
      case None => None
      case Some(k) => Some(clientes[k])
    }

    /** Position of the first account with that id. */
    function IndiceCuenta(cuentaId: string): (k: Option<nat>)
      reads this
      ensures k.Some? ==> k.value < |cuentas| && cuentas[k.value].id == cuentaId
      ensures k.Some? ==> forall i :: 0 <= i < k.value ==> cuentas[i].id != cuentaId
      ensures k.None? <==> forall i :: 0 <= i < |cuentas| ==> cuentas[i].id != cuentaId
    {
      FindFirst(cuentas, (c: Cuenta) => c.id == cuentaId)
    }

    /** `buscarCuenta`: the first account with that id, if any. */
    function BuscarCuenta(cuentaId: string): (r: Option<Cuenta>)
      reads this
      ensures r.Some? ==> r.value.id == cuentaId && r.value in cuentas
      ensures r.Some? ==> IndiceCuenta(cuentaId).Some? && r.value == cuentas[IndiceCuenta(cuentaId).value]
      ensures r.None? <==> forall i :: 0 <= i < |cuentas| ==> cuentas[i].id != cuentaId
    {
      match IndiceCuenta(cuentaId)
      case None => None
      case Some(k) => Some(cuentas[k])
    }

    /** `getCuentasPorCliente`: exactly the accounts owned by that client, one
        per owned position, in registry order. */
    function GetCuentasPorCliente(clienteId: string): (r: seq<Cuenta>)
      reads this
      ensures forall i :: 0 <= i < |r| ==> r[i] in cuentas && r[i].clienteId == clienteId
      ensures forall i :: 0 <= i < |cuentas| && cuentas[i].clienteId == clienteId ==> cuentas[i] in r
      ensures IsSubsequence(r, cuentas)
      ensures |r| == |set i: nat | i < |cuentas| && cuentas[i].clienteId == clienteId|
    {
      var propia := (c: Cuenta) => c.clienteId == clienteId;
      FilterIsSubsequence(cuentas, propia);
      FilterCount(cuentas, propia);
      assert Positions(cuentas, propia) == set i: nat | i < |cuentas| && cuentas[i].clienteId == clienteId;
      Filter(cuentas, propia)
    }

    /** Whether some account owned by the client is active. */
    predicate TieneCuentaActiva(clienteId: string)
      reads this
      ensures TieneCuentaActiva(clienteId) <==>
                exists i :: 0 <= i < |cuentas| && cuentas[i].clienteId == clienteId && cuentas[i].estado == Activa
    {
      var propias := GetCuentasPorCliente(clienteId);
      var activa := FindFirst(propias, (c: Cuenta) => c.estado == Activa);
      assert activa.Some? ==> propias[activa.value] in cuentas;
      activa.Some?
    }

    /** `registrarCliente`: refused when a client with the same email exists,
        leaving the list as it was; otherwise the client is appended. Emails
        that were distinct stay distinct. */
    method RegistrarCliente(cliente: Cliente) returns (r: Result<Cliente, Falla>)
      modifies this`clientes
      ensures old(BuscarClientePorEmail(cliente.email)).Some? ==>
                r == Err(EmailDuplicado) && clientes == old(clientes)
      ensures old(BuscarClientePorEmail(cliente.email)).None? ==>
                r == Ok(cliente) && clientes == old(clientes) + [cliente]
      ensures r.Ok? ==> GetTotalClientes() == old(GetTotalClientes()) + 1
      ensures EmailsDistintos(old(clientes)) ==> EmailsDistintos(clientes)
    {
      if BuscarClientePorEmail(cliente.email).Some? {
        return Err(EmailDuplicado);
      }
      clientes := clientes + [cliente];
      return Ok(cliente);
    }

    /** `eliminarCliente`: refused for an unknown id, then for a client owning
        an active account; otherwise exactly that client is removed. The
        accounts are left as they are. */
    method EliminarCliente(clienteId: string) returns (r: Result<bool, Falla>)
      modifies this`clientes
      ensures old(IndiceCliente(clienteId)).None? ==>
                r == Err(ClienteNoEncontrado) && clientes == old(clientes)
      ensures old(IndiceCliente(clienteId)).Some? && TieneCuentaActiva(clienteId) ==>
                r == Err(ClienteConCuentasActivas) && clientes == old(clientes)
      ensures old(IndiceCliente(clienteId)).Some? && !TieneCuentaActiva(clienteId) ==>
                var k := old(IndiceCliente(clienteId)).value;
                r == Ok(true) && clientes == old(clientes)[..k] + old(clientes)[k + 1..]
      ensures r.Ok? ==> GetTotalClientes() == old(GetTotalClientes()) - 1
    {
      var k := IndiceCliente(clienteId);
      if k.None? {
        return Err(ClienteNoEncontrado);
      }
      if TieneCuentaActiva(clienteId) {
        return Err(ClienteConCuentasActivas);
      }
      clientes := clientes[..k.value] + clientes[k.value + 1..];
      return Ok(true);
    }

    /** `abrirCuenta`: refused when the owner is not a registered client, and
        then nothing changes; otherwise the account is appended to the
        registry and added to its owner's accounts. */
    method AbrirCuenta(cuenta: Cuenta) returns (r: Result<Cuenta, Falla>)
      modifies this`clientes, this`cuentas
      ensures old(IndiceCliente(cuenta.clienteId)).None? ==>
                r == Err(ClienteNoEncontrado) && clientes == old(clientes) && cuentas == old(cuentas)
      ensures old(IndiceCliente(cuenta.clienteId)).Some? ==>
                var k := old(IndiceCliente(cuenta.clienteId)).value;
                && r == Ok(cuenta)
                && cuentas == old(cuentas) + [cuenta]
                && clientes == old(clientes)[k := AgregarCuenta(old(clientes)[k], cuenta.id).0]
                && cuenta.id in clientes[k].cuentas
    {
      var k := IndiceCliente(cuenta.clienteId);
      if k.None? {
        return Err(ClienteNoEncontrado);
      }
      cuentas := cuentas + [cuenta];
      clientes := clientes[k.value := AgregarCuenta(clientes[k.value], cuenta.id).0];
      return Ok(cuenta);
    }

    /** `cerrarCuenta`: refused for an unknown id; otherwise the account's own
        close decides, and its refusal is passed on. Closing an active account
        lowers the number of active accounts by one. */
    method CerrarCuenta(cuentaId: string) returns (r: Result<bool, Falla>)
      modifies this`cuentas
      ensures old(IndiceCuenta(cuentaId)).None? ==>
                r == Err(CuentaNoEncontrada) && cuentas == old(cuentas)
      ensures old(IndiceCuenta(cuentaId)).Some? ==>
                var k := old(IndiceCuenta(cuentaId)).value;
                match Cerrar(old(cuentas)[k])
                case Err(f) => r == Err(EnCuenta(f)) && cuentas == old(cuentas)
                case Ok(cerrada) => r == Ok(true) && cuentas == old(cuentas)[k := cerrada]
      ensures old(IndiceCuenta(cuentaId)).Some? && r.Ok? ==>
                var k := old(IndiceCuenta(cuentaId)).value;
                GetTotalCuentasActivas() ==
                  old(GetTotalCuentasActivas()) - (if old(cuentas)[k].estado == Activa then 1 else 0)
    {
      var k := IndiceCuenta(cuentaId);
      if k.None? {
        return Err(CuentaNoEncontrada);
      }
      match Cerrar(cuentas[k.value])
      case Err(f) =>
        return Err(EnCuenta(f));
      case Ok(cerrada) =>
        CerrarQuitaActiva(cuentas, k.value, cerrada);
        cuentas := cuentas[k.value := cerrada];
        return Ok(true);
    }

    /** `realizarDeposito`: refused for an unknown account or when the
        account refuses, with nothing changed; otherwise the account takes the
        deposit and exactly the returned record is appended to the index. */
    method RealizarDeposito(cuentaId: string, monto: int, descripcion: string, fecha: int)
      returns (r: Result<Movimiento, Falla>)
      modifies this`cuentas, this`transacciones
      ensures old(IndiceCuenta(cuentaId)).None? ==> r == Err(CuentaNoEncontrada)
      ensures r.Err? ==> cuentas == old(cuentas) && transacciones == old(transacciones)
      ensures r.Ok? ==> transacciones == old(transacciones) + [r.value]
      ensures old(IndiceCuenta(cuentaId)).Some? ==>
                var k := old(IndiceCuenta(cuentaId)).value;
                match Depositar(old(cuentas)[k], monto, descripcion, fecha)
                case Err(f) => r == Err(EnCuenta(f))
                case Ok(hecho) => r == Ok(hecho.1) && cuentas == old(cuentas)[k := hecho.0]
      ensures r.Ok? ==> GetSaldoTotalSistema() == old(GetSaldoTotalSistema()) + monto
    {
      var k := IndiceCuenta(cuentaId);
      if k.None? {
        return Err(CuentaNoEncontrada);
      }
      match Depositar(cuentas[k.value], monto, descripcion, fecha)
      case Err(f) =>
        return Err(EnCuenta(f));
      case Ok(hecho) =>
        SumOfUpdate(cuentas, Saldo, k.value, hecho.0);
        cuentas := cuentas[k.value := hecho.0];
        transacciones := transacciones + [hecho.1];
        return Ok(hecho.1);
    }

    /** `realizarRetiro`: as a deposit, with the account's withdrawal. */
    method RealizarRetiro(cuentaId: string, monto: int, descripcion: string, fecha: int)
      returns (r: Result<Movimiento, Falla>)
      modifies this`cuentas, this`transacciones
      ensures old(IndiceCuenta(cuentaId)).None? ==> r == Err(CuentaNoEncontrada)
      ensures r.Err? ==> cuentas == old(cuentas) && transacciones == old(transacciones)
      ensures r.Ok? ==> transacciones == old(transacciones) + [r.value]
      ensures old(IndiceCuenta(cuentaId)).Some? ==>
                var k := old(IndiceCuenta(cuentaId)).value;
                match Retirar(old(cuentas)[k], monto, descripcion, fecha)
                case Err(f) => r == Err(EnCuenta(f))
                case Ok(hecho) => r == Ok(hecho.1) && cuentas == old(cuentas)[k := hecho.0]
      ensures r.Ok? ==> GetSaldoTotalSistema() == old(GetSaldoTotalSistema()) - monto
    {
      var k := IndiceCuenta(cuentaId);
      if k.None? {
        return Err(CuentaNoEncontrada);
      }
      match Retirar(cuentas[k.value], monto, descripcion, fecha)
      case Err(f) =>
        return Err(EnCuenta(f));
      case Ok(hecho) =>
        SumOfUpdate(cuentas, Saldo, k.value, hecho.0);
        cuentas := cuentas[k.value := hecho.0];
        transacciones := transacciones + [hecho.1];
        return Ok(hecho.1);
    }

    /** `realizarTransferencia`: refused when either account is missing or the
        source refuses, with nothing changed; otherwise exactly two records are
        appended to the index, the sent one and then the destination's newest,
        and the system's total balance is unchanged. */
    method RealizarTransferencia(origenId: string, destinoId: string, monto: int,
                                 descripcion: string, fecha: int)
      returns (r: Result<(Movimiento, Movimiento), Falla>)
      modifies this`cuentas, this`transacciones
      ensures old(IndiceCuenta(origenId)).None? || old(IndiceCuenta(destinoId)).None? ==>
                r == Err(CuentasInexistentes)
      ensures r.Err? ==> cuentas == old(cuentas) && transacciones == old(transacciones)
      ensures old(IndiceCuenta(origenId)).Some? && old(IndiceCuenta(destinoId)).Some? ==>
                var k, j := old(IndiceCuenta(origenId)).value, old(IndiceCuenta(destinoId)).value;
                match Transferir(old(cuentas), k, j, monto, descripcion, fecha)
                case Err(f) => r == Err(EnCuenta(f))
                case Ok(hecho) =>
                  && r == Ok((hecho.1, hecho.2))
                  && cuentas == hecho.0
                  && transacciones == old(transacciones) + [hecho.1, hecho.2]
                  && hecho.2 == Last(cuentas[j].transacciones)
      ensures r.Ok? ==> GetSaldoTotalSistema() == old(GetSaldoTotalSistema())
      ensures r.Ok? ==> GetTotalTransacciones() == old(GetTotalTransacciones()) + 2
    {
      var ko, kd := IndiceCuenta(origenId), IndiceCuenta(destinoId);
      if ko.None? || kd.None? {
        return Err(CuentasInexistentes);
      }
      match Transferir(cuentas, ko.value, kd.value, monto, descripcion, fecha)
      case Err(f) =>
        return Err(EnCuenta(f));
      case Ok(hecho) =>
        TransferirConserva(cuentas, ko.value, kd.value, monto, descripcion, fecha);
        cuentas := hecho.0;
        transacciones := transacciones + [hecho.1, hecho.2];
        return Ok((hecho.1, hecho.2));
    }

    function GetTotalClientes(): (n: nat)
      reads this
      ensures n == |clientes|
    {
      |clientes|
    }

    function GetTotalCuentas(): (n: nat)
      reads this
      ensures n == |cuentas|
    {
      |cuentas|
    }

    /** The number of active accounts: one per active position, never more
        than the accounts. */
    function GetTotalCuentasActivas(): (n: nat)
      reads this
      ensures n == |Activas(cuentas)|
      ensures n <= GetTotalCuentas()
      ensures n == 0 <==> forall i :: 0 <= i < |cuentas| ==> cuentas[i].estado != Activa
    {
      var activa := (c: Cuenta) => c.estado == Activa;
      FilterCount(cuentas, activa);
      assert Positions(cuentas, activa) == Activas(cuentas);
      var activas := Filter(cuentas, activa);
      assert forall i :: 0 <= i < |cuentas| && cuentas[i].estado == Activa ==> cuentas[i] in activas;
      assert |activas| > 0 ==> exists i :: 0 <= i < |cuentas| && cuentas[i] == activas[0] && cuentas[i].estado == Activa;
      |activas|
    }

    /** `getSaldoTotalSistema`: the sum of all account balances. */
    function GetSaldoTotalSistema(): (total: int)
      reads this
      ensures total == SumOf(cuentas, Saldo)
      ensures cuentas == [] ==> total == 0
      ensures (forall i :: 0 <= i < |cuentas| ==> cuentas[i].saldo >= 0) ==> total >= 0
    {
      SaldoNoNegativo(cuentas);
      SumOf(cuentas, Saldo)
    }

    function GetTotalTransacciones(): (n: nat)
      reads this
      ensures n == |transacciones|
    {
      |transacciones|
    }

    /** `getTransaccionesPorPeriodo`: exactly the indexed records whose
        timestamp lies in [inicio, fin], in index order. */
    function GetTransaccionesPorPeriodo(inicio: int, fin: int): (r: seq<Movimiento>)
      reads this
      ensures forall i :: 0 <= i < |r| ==> r[i] in transacciones && inicio <= r[i].fecha <= fin
      ensures forall i :: 0 <= i < |transacciones| && inicio <= transacciones[i].fecha <= fin ==>
                transacciones[i] in r
      ensures IsSubsequence(r, transacciones)
      ensures |r| == |set i: nat | i < |transacciones| && inicio <= transacciones[i].fecha <= fin|
    {
      var enPeriodo := (t: Movimiento) => inicio <= t.fecha <= fin;
      FilterIsSubsequence(transacciones, enPeriodo);
      FilterCount(transacciones, enPeriodo);
      assert Positions(transacciones, enPeriodo) ==
             set i: nat | i < |transacciones| && inicio <= transacciones[i].fecha <= fin;
      Filter(transacciones, enPeriodo)
    }

    /** `getEstadisticas`, without the creation date. */
    function GetEstadisticas(): (e: Estadisticas)
      reads this
      ensures e.totalClientes == |clientes| && e.totalCuentas == |cuentas|
      ensures e.cuentasActivas == GetTotalCuentasActivas() && e.cuentasActivas <= e.totalCuentas
      ensures e.totalTransacciones == |transacciones|
      ensures e.saldoTotal == GetSaldoTotalSistema()
    {
      Estadisticas(GetTotalClientes(), GetTotalCuentas(), GetTotalCuentasActivas(),
                   GetSaldoTotalSistema(), GetTotalTransacciones())
    }

    /** `autenticarCliente`: the first client with that email when its
        password matches; null both for an unknown email and for a wrong
        password. */
    function AutenticarCliente(email: string, password: string): (r: Option<Cliente>)
      reads this
      ensures r.Some? ==> r.value in clientes && r.value.email == email && r.value.password == password
      ensures r.None? <==> BuscarClientePorEmail(email).None? ||
                           !VerificarPassword(BuscarClientePorEmail(email).value, password)
    {
      match BuscarClientePorEmail(email)
      case None => None
      case Some(cl) => if VerificarPassword(cl, password) then Some(cl) else None
    }
  }

  /** The sum of balances that are none of them negative is not negative. */
  lemma {:induction false} SaldoNoNegativo(cs: seq<Cuenta>)
    ensures (forall i :: 0 <= i < |cs| ==> cs[i].saldo >= 0) ==> SumOf(cs, Saldo) >= 0
  {
    if |cs| > 0 {
      SaldoNoNegativo(cs[1..]);
      assert forall i :: 0 <= i < |cs| - 1 ==> cs[1..][i] == cs[i + 1];
    }
  }

  /** While emails are distinct, as registration keeps them, authentication
      succeeds exactly when some client has both that email and that password. */
  lemma AutenticarConEmailsDistintos(f: Fintech, email: string, password: string)
    requires EmailsDistintos(f.clientes)
    ensures f.AutenticarCliente(email, password).Some? <==>
              exists i :: 0 <= i < |f.clientes| && f.clientes[i].email == email && f.clientes[i].password == password
  {
    if f.AutenticarCliente(email, password).None? {
      var b := f.BuscarClientePorEmail(email);
      if b.Some? {
        var k :| 0 <= k < |f.clientes| && f.clientes[k] == b.value &&
                 forall i :: 0 <= i < k ==> f.clientes[i].email != email;
        forall i | 0 <= i < |f.clientes| && f.clientes[i].email == email
          ensures f.clientes[i].password != password
        {
          assert i == k;
        }
      }
    }
  }
}
