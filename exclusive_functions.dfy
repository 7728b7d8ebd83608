/**
 * The row-derivation engine: class `VerificadorCodigos` reconciles the sales table
 * against the drivers table and derives, row by row, a status flag, an alternate
 * client code and a resolved agent code or name.
 *
 * Every derivation starts from a default column and then overwrites the rows picked
 * by a mask with a lookup in a `dict(zip(...))` mapping, falling back on a miss.
 */
module ExclusiveFunctions {
  import opened Wrappers
  import opened Frames
  import opened Lookup

  /** A cell of the alternate-client-code column: a code, or the boolean `False`. */
  datatype AltCode = Code(code: string) | LiteralFalse

  /** `driver_val`: which supervisor column of the drivers table is looked up. */
  datatype DriverVal = DriverCod | DriverNombre

  /** `fallback`: which agent column of the sales table is the default. */
  datatype Fallback = FallbackClave | FallbackNombre

  /** "cod" reads `cod_jefe_ventas`; any other choice reads `jefe_ventas`. */
  function DriverValAlias(driverVal: DriverVal): (alias: string)
    ensures alias == "cod_jefe_ventas" <==> driverVal == DriverCod
    ensures alias == "jefe_ventas" <==> driverVal == DriverNombre
  {
    match driverVal
    case DriverCod => "cod_jefe_ventas"
    case DriverNombre => "jefe_ventas"
  }

  /** "clave" falls back on `agente_comercial_clave`; any other choice on `agente_comercial`. */
  function FallbackAlias(fallback: Fallback): (alias: string)
    ensures alias == "agente_comercial_clave" <==> fallback == FallbackClave
    ensures alias == "agente_comercial" <==> fallback == FallbackNombre
  {
    match fallback
    case FallbackClave => "agente_comercial_clave"
    case FallbackNombre => "agente_comercial"
  }

  // The per-row rules. Each derived column holds, at row i, the rule applied to row i.

  /**
   * Status of a row once only the "#" mask has been applied to the all-"OK" default:
   * "SIN COD AC CORREGIDO" exactly on the type "I" rows keyed "#", "OK" everywhere else.
   */
  function HashStatusOf(tipo: string, claveAgente: string): (s: string)
    ensures s == VerificadorCodigos.RESULTADO_SIN_COD_CORREGIDO || s == VerificadorCodigos.RESULTADO_OK
    ensures s == VerificadorCodigos.RESULTADO_SIN_COD_CORREGIDO <==>
      tipo == VerificadorCodigos.TIPO_ATENCION && claveAgente == VerificadorCodigos.COD_HASH
  {
    if tipo == VerificadorCodigos.TIPO_ATENCION && claveAgente == VerificadorCodigos.COD_HASH
    then VerificadorCodigos.RESULTADO_SIN_COD_CORREGIDO
    else VerificadorCodigos.RESULTADO_OK
  }

  /**
   * Status of a sale of type `tipo` whose commercial-agent key is `claveAgente`: "OK" off
   * type "I", "SIN COD AC CORREGIDO" for the key "#", and otherwise a filled value the
   * mapping binds to the key, or "OK".
   */
  function StatusOf(tipo: string, claveAgente: string, mapa: map<Option<string>, Option<string>>): (s: string)
    ensures tipo != VerificadorCodigos.TIPO_ATENCION ==> s == VerificadorCodigos.RESULTADO_OK
    ensures tipo == VerificadorCodigos.TIPO_ATENCION && claveAgente == VerificadorCodigos.COD_HASH ==>
      s == VerificadorCodigos.RESULTADO_SIN_COD_CORREGIDO
    ensures tipo == VerificadorCodigos.TIPO_ATENCION && claveAgente != VerificadorCodigos.COD_HASH ==>
      s == VerificadorCodigos.RESULTADO_OK || (Some(claveAgente) in mapa && mapa[Some(claveAgente)] == Some(s))
    ensures (tipo == VerificadorCodigos.TIPO_ATENCION && claveAgente != VerificadorCodigos.COD_HASH
             && Some(claveAgente) in mapa && mapa[Some(claveAgente)].Some?) ==>
      s == mapa[Some(claveAgente)].value
  {
    if tipo == VerificadorCodigos.TIPO_ATENCION && claveAgente != VerificadorCodigos.COD_HASH
    then MapFillna(mapa, claveAgente, VerificadorCodigos.RESULTADO_OK)
    else HashStatusOf(tipo, claveAgente)
  }

  /** The default alternate client code: `False` under the flag, else a copy of the e-commerce code. */
  function DefaultAltOf(codigoEcom: string, literalIfFalse: bool): (c: AltCode)
    ensures c.LiteralFalse? <==> literalIfFalse
    ensures c.Code? ==> c.code == codigoEcom
  {
    if literalIfFalse then LiteralFalse else Code(codigoEcom)
  }

  /**
   * Alternate client code of a row with client key `clienteClave` and e-commerce code
   * `codigoEcom`: `False` exactly off type "I" under the flag; otherwise a code, which is
   * the e-commerce code or a filled value the mapping binds to the client key.
   */
  function CodClienteAltOf(tipo: string, clienteClave: string, codigoEcom: string,
                           mapaHk: map<Option<string>, Option<string>>, literalIfFalse: bool): (c: AltCode)
    ensures c.LiteralFalse? <==> tipo != VerificadorCodigos.TIPO_ATENCION && literalIfFalse
    ensures tipo != VerificadorCodigos.TIPO_ATENCION && c.Code? ==> c.code == codigoEcom
    ensures c.Code? ==> c.code == codigoEcom || (Some(clienteClave) in mapaHk && mapaHk[Some(clienteClave)] == Some(c.code))
    ensures tipo == VerificadorCodigos.TIPO_ATENCION && Some(clienteClave) in mapaHk && mapaHk[Some(clienteClave)].Some? ==>
      c == Code(mapaHk[Some(clienteClave)].value)
  {
    if tipo == VerificadorCodigos.TIPO_ATENCION then Code(MapFillna(mapaHk, clienteClave, codigoEcom))
    else DefaultAltOf(codigoEcom, literalIfFalse)
  }

  /**
   * Resolved agent of a row whose agent name is `agenteNombre`; `fallbackValue` is its
   * default. Only a type "I" row named "Sin asignar" can differ from the fallback, and
   * then only by a filled value the mapping binds to the client key.
   */
  function AgenteResueltoOf(tipo: string, agenteNombre: string, clienteClave: string, fallbackValue: string,
                            mapa: map<Option<string>, Option<string>>): (r: string)
    ensures !(tipo == VerificadorCodigos.TIPO_ATENCION && agenteNombre == VerificadorCodigos.SIN_ASIGNAR) ==>
      r == fallbackValue
    ensures r == fallbackValue || (Some(clienteClave) in mapa && mapa[Some(clienteClave)] == Some(r))
    ensures (tipo == VerificadorCodigos.TIPO_ATENCION && agenteNombre == VerificadorCodigos.SIN_ASIGNAR
             && Some(clienteClave) in mapa && mapa[Some(clienteClave)].Some?) ==>
      r == mapa[Some(clienteClave)].value
  {
    if tipo == VerificadorCodigos.TIPO_ATENCION && agenteNombre == VerificadorCodigos.SIN_ASIGNAR
    then MapFillna(mapa, clienteClave, fallbackValue)
    else fallbackValue
  }

  class VerificadorCodigos {
    static const TIPO_ATENCION: string := "I"
    static const COD_HASH: string := "#"
    static const RESULTADO_OK: string := "OK"
    static const RESULTADO_SIN_COD_CORREGIDO: string := "SIN COD AC CORREGIDO"
    /** Declared by the class but assigned by none of its derivations. */
    static const RESULTADO_SIN_COD_AC: string := "SIN COD AC"
    static const SIN_ASIGNAR: string := "Sin asignar"

    var dfVtas: Frame<string>
    var dfDrivers: Frame<Option<string>>
    var colsVtas: map<string, string>
    var colsDrivers: map<string, string>
    var mapaDrivers: map<Option<string>, Option<string>>

    /** The tables are well formed and `mapaDrivers` is the SAP-code mapping of the drivers table. */
    ghost predicate Valid()
      reads this
    {
      && dfVtas.Valid() && dfDrivers.Valid()
      && HasColumn(dfDrivers, colsDrivers, "cod_sap")
      && HasColumn(dfDrivers, colsDrivers, "cambio_cod_ecom_crm")
      && mapaDrivers == CrearMapa()
    }

    constructor(dfVtas: Frame<string>, dfDrivers: Frame<Option<string>>,
                colsVtas: map<string, string>, colsDrivers: map<string, string>)
      requires dfVtas.Valid() && dfDrivers.Valid()
      requires HasColumn(dfDrivers, colsDrivers, "cod_sap")
      requires HasColumn(dfDrivers, colsDrivers, "cambio_cod_ecom_crm")
      ensures Valid()
      ensures this.dfVtas == dfVtas && this.dfDrivers == dfDrivers
      ensures this.colsVtas == colsVtas && this.colsDrivers == colsDrivers
    {
      this.dfVtas := dfVtas;
      this.dfDrivers := dfDrivers;
      this.colsVtas := colsVtas;
      this.colsDrivers := colsDrivers;
      new;
      mapaDrivers := CrearMapa();
    }

    /** `dict(zip(df_drivers[key], df_drivers[val]))` for the columns bound to two driver aliases. */
    function ZipDrivers(keyAlias: string, valAlias: string): (m: map<Option<string>, Option<string>>)
      reads this`dfDrivers, this`colsDrivers
      requires dfDrivers.Valid()
      requires HasColumn(dfDrivers, colsDrivers, keyAlias) && HasColumn(dfDrivers, colsDrivers, valAlias)
      ensures m.Keys == set i | 0 <= i < dfDrivers.height :: Column(dfDrivers, colsDrivers, keyAlias)[i]
    {
      BuildMap(Column(dfDrivers, colsDrivers, keyAlias), Column(dfDrivers, colsDrivers, valAlias))
    }

    /** `_crear_mapa`: SAP code -> corrected e-commerce code; keyed by every SAP code of the table. */
    function CrearMapa(): (m: map<Option<string>, Option<string>>)
      reads this`dfDrivers, this`colsDrivers
      requires dfDrivers.Valid()
      requires HasColumn(dfDrivers, colsDrivers, "cod_sap") && HasColumn(dfDrivers, colsDrivers, "cambio_cod_ecom_crm")
      ensures m.Keys == set i | 0 <= i < dfDrivers.height :: Column(dfDrivers, colsDrivers, "cod_sap")[i]
    {
      ZipDrivers("cod_sap", "cambio_cod_ecom_crm")
    }

    /**
     * `create_col_status`: a fresh column, one entry per sales row in row order, holding
     * the status rule of that row. Nothing of the object changes.
     */
    method CreateColStatus() returns (serieStatus: array<string>)
      requires dfVtas.Valid()
      requires HasColumn(dfVtas, colsVtas, "tipo_venta") && HasColumn(dfVtas, colsVtas, "agente_comercial_clave")
      ensures fresh(serieStatus) && serieStatus.Length == dfVtas.height
      ensures forall i :: 0 <= i < serieStatus.Length ==>
        serieStatus[i] == StatusOf(Column(dfVtas, colsVtas, "tipo_venta")[i],
                                   Column(dfVtas, colsVtas, "agente_comercial_clave")[i], mapaDrivers)
    {
      var colTipo := Column(dfVtas, colsVtas, "tipo_venta");
      var colG := Column(dfVtas, colsVtas, "agente_comercial_clave");
      serieStatus := new string[dfVtas.height](_ => RESULTADO_OK);
      MarcarHash(serieStatus, colTipo, colG);
      MarcarLookup(serieStatus, colTipo, colG, mapaDrivers);
    }

    /** First pass: on an all-"OK" column, the type "I" rows keyed "#" are marked "SIN COD AC CORREGIDO". */
    static method MarcarHash(serieStatus: array<string>, colTipo: seq<string>, colG: seq<string>)
      requires serieStatus.Length == |colTipo| == |colG|
      requires forall j :: 0 <= j < serieStatus.Length ==> serieStatus[j] == RESULTADO_OK
      modifies serieStatus
      ensures forall j :: 0 <= j < serieStatus.Length ==> serieStatus[j] == HashStatusOf(colTipo[j], colG[j])
    {
      for i := 0 to serieStatus.Length
        invariant forall j :: 0 <= j < i ==> serieStatus[j] == HashStatusOf(colTipo[j], colG[j])
        invariant forall j :: i <= j < serieStatus.Length ==> serieStatus[j] == RESULTADO_OK
      {
        if colTipo[i] == TIPO_ATENCION && colG[i] == COD_HASH {
          serieStatus[i] := RESULTADO_SIN_COD_CORREGIDO;
        }
      }
    }

    /** Second pass: the other type "I" rows get the corrected code of their agent key, or "OK". */
    static method MarcarLookup(serieStatus: array<string>, colTipo: seq<string>, colG: seq<string>,
                               mapa: map<Option<string>, Option<string>>)
      requires serieStatus.Length == |colTipo| == |colG|
      requires forall j :: 0 <= j < serieStatus.Length ==> serieStatus[j] == HashStatusOf(colTipo[j], colG[j])
      modifies serieStatus
      ensures forall j :: 0 <= j < serieStatus.Length ==> serieStatus[j] == StatusOf(colTipo[j], colG[j], mapa)
    {
      for i := 0 to serieStatus.Length
        invariant forall j :: 0 <= j < i ==> serieStatus[j] == StatusOf(colTipo[j], colG[j], mapa)
        invariant forall j :: i <= j < serieStatus.Length ==> serieStatus[j] == HashStatusOf(colTipo[j], colG[j])
      {
        if colTipo[i] == TIPO_ATENCION && colG[i] != COD_HASH {
          serieStatus[i] := MapFillna(mapa, colG[i], RESULTADO_OK);
        }
        assert serieStatus[i] == StatusOf(colTipo[i], colG[i], mapa);
      }
    }

    /**
     * `create_col_cod_cliente_alt`: a fresh column, one entry per sales row in row order,
     * holding the alternate-client-code rule of that row. Nothing of the object changes.
     */
    method CreateColCodClienteAlt(literalIfFalse: bool) returns (res: array<AltCode>)
      requires dfVtas.Valid() && dfDrivers.Valid()
      requires HasColumn(dfVtas, colsVtas, "tipo_venta") && HasColumn(dfVtas, colsVtas, "cliente_clave")
      requires HasColumn(dfVtas, colsVtas, "codigo_ecom")
      requires HasColumn(dfDrivers, colsDrivers, "cod_actual") && HasColumn(dfDrivers, colsDrivers, "cod_cliente_alt")
      ensures fresh(res) && res.Length == dfVtas.height
      ensures forall i :: 0 <= i < res.Length ==>
        res[i] == CodClienteAltOf(Column(dfVtas, colsVtas, "tipo_venta")[i], Column(dfVtas, colsVtas, "cliente_clave")[i],
                                  Column(dfVtas, colsVtas, "codigo_ecom")[i], ZipDrivers("cod_actual", "cod_cliente_alt"),
                                  literalIfFalse)
    {
      var colTipo := Column(dfVtas, colsVtas, "tipo_venta");
      var colKeyD := Column(dfVtas, colsVtas, "cliente_clave");
      var codigoEcom := Column(dfVtas, colsVtas, "codigo_ecom");
      var mapaHk := ZipDrivers("cod_actual", "cod_cliente_alt");
      // The default: `False` in every row under the flag, else a copy of the e-commerce codes.
      res := new AltCode[dfVtas.height](_ => LiteralFalse);
      if !literalIfFalse {
        CopiarCodigos(res, codigoEcom);
      }
      MarcarTipoI(res, colTipo, colKeyD, codigoEcom, mapaHk, literalIfFalse);
    }

    /** Copies the e-commerce codes into a column of the same length. */
    static method CopiarCodigos(res: array<AltCode>, codigoEcom: seq<string>)
      requires res.Length == |codigoEcom|
      modifies res
      ensures forall j :: 0 <= j < res.Length ==> res[j] == Code(codigoEcom[j])
    {
      for i := 0 to res.Length
        invariant forall j :: 0 <= j < i ==> res[j] == Code(codigoEcom[j])
      {
        res[i] := Code(codigoEcom[i]);
      }
    }

    /** The type "I" rows get the alternate code of their client key, or their own e-commerce code. */
    static method MarcarTipoI(res: array<AltCode>, colTipo: seq<string>, colKeyD: seq<string>, codigoEcom: seq<string>,
                              mapaHk: map<Option<string>, Option<string>>, literalIfFalse: bool)
      requires res.Length == |colTipo| == |colKeyD| == |codigoEcom|
      requires forall j :: 0 <= j < res.Length ==> res[j] == DefaultAltOf(codigoEcom[j], literalIfFalse)
      modifies res
      ensures forall j :: 0 <= j < res.Length ==>
        res[j] == CodClienteAltOf(colTipo[j], colKeyD[j], codigoEcom[j], mapaHk, literalIfFalse)
    {
      for i := 0 to res.Length
        invariant forall j :: 0 <= j < i ==>
          res[j] == CodClienteAltOf(colTipo[j], colKeyD[j], codigoEcom[j], mapaHk, literalIfFalse)
        invariant forall j :: i <= j < res.Length ==> res[j] == DefaultAltOf(codigoEcom[j], literalIfFalse)
      {
        if colTipo[i] == TIPO_ATENCION {
          res[i] := Code(MapFillna(mapaHk, colKeyD[i], codigoEcom[i]));
        }
      }
    }

    /**
     * `create_col_agente_resuelta`: a fresh column, one entry per sales row in row order,
     * holding the agent-resolution rule of that row. Nothing of the object changes.
     */
    method CreateColAgenteResuelta(driverVal: DriverVal, fallback: Fallback) returns (res: array<string>)
      requires dfVtas.Valid() && dfDrivers.Valid()
      requires HasColumn(dfVtas, colsVtas, "tipo_venta") && HasColumn(dfVtas, colsVtas, "agente_comercial")
      requires "agente_comercial_clave" in colsVtas
      requires HasColumn(dfVtas, colsVtas, "cliente_clave") && HasColumn(dfVtas, colsVtas, FallbackAlias(fallback))
      requires HasColumn(dfDrivers, colsDrivers, "cod_actual") && HasColumn(dfDrivers, colsDrivers, DriverValAlias(driverVal))
      ensures fresh(res) && res.Length == dfVtas.height
      ensures forall i :: 0 <= i < res.Length ==>
        res[i] == AgenteResueltoOf(Column(dfVtas, colsVtas, "tipo_venta")[i], Column(dfVtas, colsVtas, "agente_comercial")[i],
                                   Column(dfVtas, colsVtas, "cliente_clave")[i], Column(dfVtas, colsVtas, FallbackAlias(fallback))[i],
                                   ZipDrivers("cod_actual", DriverValAlias(driverVal)))
    {
      var colTipo := Column(dfVtas, colsVtas, "tipo_venta");
      var colAgenteNombre := Column(dfVtas, colsVtas, "agente_comercial");
      var colClienteClave := Column(dfVtas, colsVtas, "cliente_clave");
      var fbCol := Column(dfVtas, colsVtas, FallbackAlias(fallback));
      var mapa := ZipDrivers("cod_actual", DriverValAlias(driverVal));
      var n := dfVtas.height;
      // The default: a copy of the fallback column.
      res := new string[n](_ => "");
      for i := 0 to n
        invariant forall j :: 0 <= j < i ==> res[j] == fbCol[j]
      {
        res[i] := fbCol[i];
      }
      // The type "I" rows named "Sin asignar" get the supervisor of their client key, or keep the fallback.
      for i := 0 to n
        invariant forall j :: 0 <= j < i ==>
          res[j] == AgenteResueltoOf(colTipo[j], colAgenteNombre[j], colClienteClave[j], fbCol[j], mapa)
        invariant forall j :: i <= j < n ==> res[j] == fbCol[j]
      {
        if colTipo[i] == TIPO_ATENCION && colAgenteNombre[i] == SIN_ASIGNAR {
          res[i] := MapFillna(mapa, colClienteClave[i], fbCol[i]);
        }
      }
    }
  }

  // What the rules mean in terms of the drivers table itself.

  /**
   * Status against the drivers columns `sap` (cod_sap) and `corregido`
   * (cambio_cod_ecom_crm): "OK" off type "I"; "SIN COD AC CORREGIDO" for the key "#";
   * otherwise the corrected code of the LAST driver row with that SAP code, or "OK"
   * when there is no such row or its corrected code is empty.
   */
  lemma StatusFromDrivers(tipo: string, claveAgente: string, sap: seq<Option<string>>, corregido: seq<Option<string>>)
    requires |sap| == |corregido|
    ensures tipo != VerificadorCodigos.TIPO_ATENCION ==>
      StatusOf(tipo, claveAgente, BuildMap(sap, corregido)) == VerificadorCodigos.RESULTADO_OK
    ensures tipo == VerificadorCodigos.TIPO_ATENCION && claveAgente == VerificadorCodigos.COD_HASH ==>
      StatusOf(tipo, claveAgente, BuildMap(sap, corregido)) == VerificadorCodigos.RESULTADO_SIN_COD_CORREGIDO
    ensures tipo == VerificadorCodigos.TIPO_ATENCION && claveAgente != VerificadorCodigos.COD_HASH ==>
      StatusOf(tipo, claveAgente, BuildMap(sap, corregido)) == LastMatch(sap, corregido, claveAgente, VerificadorCodigos.RESULTADO_OK)
  {
    LookupIsLastMatch(sap, corregido, claveAgente, VerificadorCodigos.RESULTADO_OK);
  }

  /** A status is "OK", "SIN COD AC CORREGIDO", or a corrected code a driver row gives for that agent key. */
  lemma StatusIsNeverInvented(tipo: string, claveAgente: string, sap: seq<Option<string>>, corregido: seq<Option<string>>)
    requires |sap| == |corregido|
    ensures var s := StatusOf(tipo, claveAgente, BuildMap(sap, corregido));
      || s == VerificadorCodigos.RESULTADO_OK
      || s == VerificadorCodigos.RESULTADO_SIN_COD_CORREGIDO
      || exists j :: 0 <= j < |sap| && sap[j] == Some(claveAgente) && corregido[j] == Some(s)
  {
    StatusFromDrivers(tipo, claveAgente, sap, corregido);
    LastMatchSource(sap, corregido, claveAgente, VerificadorCodigos.RESULTADO_OK);
  }

  /**
   * Alternate client code against the drivers columns `codActual` and `codAlt`: a type
   * "I" row gets the alternate code of the last driver row for its client key, or its
   * own e-commerce code; any other row gets its e-commerce code, or `False` when
   * `literalIfFalse` is set. `False` appears exactly on the non-"I" rows under the flag.
   */
  lemma CodClienteAltFromDrivers(tipo: string, clienteClave: string, codigoEcom: string,
                                 codActual: seq<Option<string>>, codAlt: seq<Option<string>>, literalIfFalse: bool)
    requires |codActual| == |codAlt|
    ensures tipo == VerificadorCodigos.TIPO_ATENCION ==>
      CodClienteAltOf(tipo, clienteClave, codigoEcom, BuildMap(codActual, codAlt), literalIfFalse)
        == Code(LastMatch(codActual, codAlt, clienteClave, codigoEcom))
    ensures tipo != VerificadorCodigos.TIPO_ATENCION ==>
      CodClienteAltOf(tipo, clienteClave, codigoEcom, BuildMap(codActual, codAlt), literalIfFalse)
        == if literalIfFalse then LiteralFalse else Code(codigoEcom)
    ensures CodClienteAltOf(tipo, clienteClave, codigoEcom, BuildMap(codActual, codAlt), literalIfFalse).LiteralFalse?
      <==> tipo != VerificadorCodigos.TIPO_ATENCION && literalIfFalse
  {
    LookupIsLastMatch(codActual, codAlt, clienteClave, codigoEcom);
  }

  /**
   * Agent resolution against the drivers columns `codActual` and `jefe` (supervisor code
   * or name): a row that is not both of type "I" and "Sin asignar" keeps its fallback
   * value; such a row gets the supervisor of the last driver row for its client key,
   * or keeps the fallback value when there is none or it is empty.
   */
  lemma AgenteResueltoFromDrivers(tipo: string, agenteNombre: string, clienteClave: string, fallbackValue: string,
                                  codActual: seq<Option<string>>, jefe: seq<Option<string>>)
    requires |codActual| == |jefe|
    ensures !(tipo == VerificadorCodigos.TIPO_ATENCION && agenteNombre == VerificadorCodigos.SIN_ASIGNAR) ==>
      AgenteResueltoOf(tipo, agenteNombre, clienteClave, fallbackValue, BuildMap(codActual, jefe)) == fallbackValue
    ensures tipo == VerificadorCodigos.TIPO_ATENCION && agenteNombre == VerificadorCodigos.SIN_ASIGNAR ==>
      AgenteResueltoOf(tipo, agenteNombre, clienteClave, fallbackValue, BuildMap(codActual, jefe))
        == LastMatch(codActual, jefe, clienteClave, fallbackValue)
    ensures var r := AgenteResueltoOf(tipo, agenteNombre, clienteClave, fallbackValue, BuildMap(codActual, jefe));
      r == fallbackValue || exists j :: 0 <= j < |codActual| && codActual[j] == Some(clienteClave) && jefe[j] == Some(r)
  {
    LookupIsLastMatch(codActual, jefe, clienteClave, fallbackValue);
    LastMatchSource(codActual, jefe, clienteClave, fallbackValue);
  }
}
