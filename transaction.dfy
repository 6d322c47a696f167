/** The transaction record of the Spanish-language model (`Transaccion`):
    a kind, an amount, a status, a free description and a string map of
    metadata. The kind and the status are plain strings in the source, so
    they are strings here too, with the known values as constants. */
module Transaction {
  import opened Support

  const DEPOSITO := "DEPOSITO"
  const RETIRO := "RETIRO"
  const TRANSFERENCIA_ENVIADA := "TRANSFERENCIA_ENVIADA"
  const TRANSFERENCIA_RECIBIDA := "TRANSFERENCIA_RECIBIDA"

  const PENDIENTE := "PENDIENTE"
  const COMPLETADA := "COMPLETADA"
  const FALLIDA := "FALLIDA"
  const CANCELADA := "CANCELADA"

  /** The four kinds `validar` accepts. */
  predicate IsKnownKind(tipo: string)
    ensures IsKnownKind(tipo) <==>
              tipo == DEPOSITO || tipo == RETIRO || tipo == TRANSFERENCIA_ENVIADA || tipo == TRANSFERENCIA_RECIBIDA
    ensures IsOutgoing(tipo) ==> IsKnownKind(tipo)
  {
    tipo in [DEPOSITO, RETIRO, TRANSFERENCIA_ENVIADA, TRANSFERENCIA_RECIBIDA]
  }

  /** Kinds that take money out of the account: they are shown with a minus sign. */
  predicate IsOutgoing(tipo: string)
  {
    tipo == RETIRO || tipo == TRANSFERENCIA_ENVIADA
  }

  /** The sign `getMontoFormateado` puts in front of the amount. */
  function Sign(tipo: string): (c: char)
    ensures c == '-' || c == '+'
    ensures c == '-' <==> tipo == RETIRO || tipo == TRANSFERENCIA_ENVIADA
  {
    if IsOutgoing(tipo) then '-' else '+'
  }

  /** Each `throw` of `validar`, in the order it checks them. */
  datatype ValidationError =
    | MissingIds        // the record must carry an id and an account id
    | NonPositiveAmount // the amount must be greater than zero
    | UnknownKind       // the kind is not one of the four known kinds

  class Transaccion {
    var id: string
    var cuentaId: string
    var tipo: string
    var monto: int
    var descripcion: string
    var estado: string
    var metadatos: map<string, string>

    /** A new record is completed, has no metadata, and an empty description
        unless one is given. */
    constructor (id: string, cuentaId: string, tipo: string, monto: int, descripcion: string := "")
      ensures this.id == id && this.cuentaId == cuentaId && this.tipo == tipo
      ensures this.monto == monto && this.descripcion == descripcion
      ensures estado == COMPLETADA && metadatos == map[]
    {
      this.id := id;
      this.cuentaId := cuentaId;
      this.tipo := tipo;
      this.monto := monto;
      this.descripcion := descripcion;
      estado := COMPLETADA;
      metadatos := map[];
    }

    /** A copy of the metadata: a map value, so later changes to the record do
        not reach it. */
    function GetMetadatos(): (m: map<string, string>)
      reads this
      ensures m.Keys == metadatos.Keys
      ensures forall k :: k in m ==> m[k] == metadatos[k]
    {
      metadatos
    }

    method SetEstado(estado: string)
      modifies this`estado
      ensures this.estado == estado
      ensures EsPendiente() <==> estado == PENDIENTE
      ensures EsCompletada() <==> estado == COMPLETADA
    {
      this.estado := estado;
    }

    method SetDescripcion(descripcion: string)
      modifies this`descripcion
      ensures this.descripcion == descripcion
    {
      this.descripcion := descripcion;
    }

    /** Sets or overwrites one key; every other key keeps its value. */
    method AgregarMetadato(clave: string, valor: string)
      modifies this`metadatos
      ensures metadatos.Keys == old(metadatos.Keys) + {clave}
      ensures metadatos[clave] == valor
      ensures forall k :: k in old(metadatos) && k != clave ==> metadatos[k] == old(metadatos)[k]
    {
      metadatos := metadatos[clave := valor];
    }

    /** A deposit is a known kind shown with a plus sign. */
    predicate EsDeposito()
      reads this
      ensures EsDeposito() ==> IsKnownKind(tipo) && Sign(tipo) == '+'
    {
      tipo == DEPOSITO
    }

    /** A withdrawal is a known kind shown with a minus sign. */
    predicate EsRetiro()
      reads this
      ensures EsRetiro() ==> IsKnownKind(tipo) && Sign(tipo) == '-'
    {
      tipo == RETIRO
    }

    /** Both transfer kinds, sent and received. */
    predicate EsTransferencia()
      reads this
      ensures EsTransferencia() <==> tipo == TRANSFERENCIA_ENVIADA || tipo == TRANSFERENCIA_RECIBIDA
    {
      tipo == TRANSFERENCIA_ENVIADA || tipo == TRANSFERENCIA_RECIBIDA
    }

    /** A completed record is not pending. */
    predicate EsCompletada()
      reads this
      ensures EsCompletada() ==> !EsPendiente()
    {
      estado == COMPLETADA
    }

    /** A pending record is in none of the other three statuses. */
    predicate EsPendiente()
      reads this
      ensures EsPendiente() ==> estado != COMPLETADA && estado != FALLIDA && estado != CANCELADA
    {
      estado == PENDIENTE
    }

    /** The sign part of `getMontoFormateado`: '-' for the two outgoing kinds. */
    function SignoMonto(): (c: char)
      reads this
      ensures c == '-' <==> EsRetiro() || tipo == TRANSFERENCIA_ENVIADA
      ensures c == '+' <==> !(EsRetiro() || tipo == TRANSFERENCIA_ENVIADA)
    {
      Sign(tipo)
    }

    /** `validar`: the ids first (an empty string is the only falsy string),
        then the amount, then the kind; true only when all three pass. */
    function Validar(): (r: Result<bool, ValidationError>)
      reads this
      ensures r.Ok? <==> id != "" && cuentaId != "" && monto > 0 && IsKnownKind(tipo)
      ensures r.Ok? ==> r.value
      ensures (id == "" || cuentaId == "") ==> r == Err(MissingIds)
      ensures id != "" && cuentaId != "" && monto <= 0 ==> r == Err(NonPositiveAmount)
      ensures id != "" && cuentaId != "" && monto > 0 && !IsKnownKind(tipo) ==> r == Err(UnknownKind)
    {
      if id == "" || cuentaId == "" then Err(MissingIds)
      else if monto <= 0 then Err(NonPositiveAmount)
      else if !IsKnownKind(tipo) then Err(UnknownKind)
      else Ok(true)
    }

    static method CrearDeposito(id: string, cuentaId: string, monto: int, descripcion: string := "")
      returns (t: Transaccion)
      ensures fresh(t) && t.tipo == DEPOSITO && t.EsDeposito()
      ensures t.id == id && t.cuentaId == cuentaId && t.monto == monto && t.descripcion == descripcion
      ensures t.estado == COMPLETADA && t.metadatos == map[]
    {
      t := new Transaccion(id, cuentaId, DEPOSITO, monto, descripcion);
    }

    static method CrearRetiro(id: string, cuentaId: string, monto: int, descripcion: string := "")
      returns (t: Transaccion)
      ensures fresh(t) && t.tipo == RETIRO && t.EsRetiro()
      ensures t.id == id && t.cuentaId == cuentaId && t.monto == monto && t.descripcion == descripcion
      ensures t.estado == COMPLETADA && t.metadatos == map[]
    {
      t := new Transaccion(id, cuentaId, RETIRO, monto, descripcion);
    }

    /** A sent transfer remembers its destination account under "cuentaDestinoId". */
    static method CrearTransferenciaEnviada(id: string, cuentaId: string, monto: int,
                                            cuentaDestinoId: string, descripcion: string := "")
      returns (t: Transaccion)
      ensures fresh(t) && t.tipo == TRANSFERENCIA_ENVIADA && t.EsTransferencia()
      ensures t.id == id && t.cuentaId == cuentaId && t.monto == monto && t.descripcion == descripcion
      ensures t.estado == COMPLETADA && t.metadatos == map["cuentaDestinoId" := cuentaDestinoId]
    {
      t := new Transaccion(id, cuentaId, TRANSFERENCIA_ENVIADA, monto, descripcion);
      t.AgregarMetadato("cuentaDestinoId", cuentaDestinoId);
    }

    /** A received transfer remembers its source account under "cuentaOrigenId". */
    static method CrearTransferenciaRecibida(id: string, cuentaId: string, monto: int,
                                             cuentaOrigenId: string, descripcion: string := "")
      returns (t: Transaccion)
      ensures fresh(t) && t.tipo == TRANSFERENCIA_RECIBIDA && t.EsTransferencia()
      ensures t.id == id && t.cuentaId == cuentaId && t.monto == monto && t.descripcion == descripcion
      ensures t.estado == COMPLETADA && t.metadatos == map["cuentaOrigenId" := cuentaOrigenId]
    {
      t := new Transaccion(id, cuentaId, TRANSFERENCIA_RECIBIDA, monto, descripcion);
      t.AgregarMetadato("cuentaOrigenId", cuentaOrigenId);
    }
  }

  /** The three kind tests never hold together, and every known kind passes
      exactly one of them. */
  lemma KindsPartition(t: Transaccion)
    ensures !(t.EsDeposito() && t.EsRetiro())
    ensures !(t.EsDeposito() && t.EsTransferencia())
    ensures !(t.EsRetiro() && t.EsTransferencia())
    ensures IsKnownKind(t.tipo) <==> t.EsDeposito() || t.EsRetiro() || t.EsTransferencia()
  {
  }
}
