/**
 * The application's derivation step: validate both tables' columns, then assign the
 * four derived columns to the sales table in the order the application does.
 */
module App {
  import opened Wrappers
  import opened Frames
  import opened Lookup
  import opened DataQuality
  import opened ExclusiveFunctions

  const STATUS_COL: string := "STATUS"
  const COD_ECOM_FINAL_COL: string := "COD ECOM FINAL"
  const COD_AC_FINAL_COL: string := "COD AC FINAL"
  const NOMBRE_AC_FINAL_COL: string := "NOMBRE AC FINAL"

  /** The alias maps name every alias the derivations read (a missing alias raises KeyError). */
  predicate AliasesConfigured(colsVtas: map<string, string>, colsDrivers: map<string, string>) {
    && "tipo_venta" in colsVtas && "agente_comercial_clave" in colsVtas && "agente_comercial" in colsVtas
    && "cliente_clave" in colsVtas && "codigo_ecom" in colsVtas
    && "cod_sap" in colsDrivers && "cambio_cod_ecom_crm" in colsDrivers && "cod_actual" in colsDrivers
    && "cod_cliente_alt" in colsDrivers && "cod_jefe_ventas" in colsDrivers && "jefe_ventas" in colsDrivers
  }

  /** No configured sales column is one of the four output columns. */
  predicate OutputsDisjoint(colsVtas: map<string, string>) {
    && STATUS_COL !in colsVtas.Values && COD_ECOM_FINAL_COL !in colsVtas.Values
    && COD_AC_FINAL_COL !in colsVtas.Values && NOMBRE_AC_FINAL_COL !in colsVtas.Values
  }

  /** The codes of a column that holds no literal `False`. */
  function CodeTexts(cells: seq<AltCode>): (r: seq<string>)
    requires forall i :: 0 <= i < |cells| ==> cells[i].Code?
    ensures |r| == |cells| && forall i :: 0 <= i < |cells| ==> r[i] == cells[i].code
  {
    seq(|cells|, i requires 0 <= i < |cells| => cells[i].code)
  }

  /**
   * Assigns column `name` of the sales table that `v` shares with its caller: the
   * column is added or replaced, and `v` sees the new table.
   */
  method AsignarColumna(v: VerificadorCodigos, name: string, col: seq<string>)
    requires v.Valid() && |col| == v.dfVtas.height
    modifies v
    ensures v.Valid()
    ensures v.dfVtas == WithColumn(old(v.dfVtas), name, col)
    ensures v.dfDrivers == old(v.dfDrivers) && v.colsVtas == old(v.colsVtas) && v.colsDrivers == old(v.colsDrivers)
    ensures v.mapaDrivers == old(v.mapaDrivers)
  {
    v.dfVtas := WithColumn(v.dfVtas, name, col);
  }

  /** The inputs the derivations read: well-formed tables whose configured aliases all resolve. */
  predicate Resolvable(dfVtas: Frame<string>, dfDrivers: Frame<Option<string>>,
                       colsVtas: map<string, string>, colsDrivers: map<string, string>)
  {
    && dfVtas.Valid() && dfDrivers.Valid() && AliasesConfigured(colsVtas, colsDrivers)
    && (forall alias :: alias in colsVtas ==> HasColumn(dfVtas, colsVtas, alias))
    && (forall alias :: alias in colsDrivers ==> HasColumn(dfDrivers, colsDrivers, alias))
  }

  /** `col` is the status rule applied to every sales row. */
  predicate IsStatusColumn(col: seq<string>, tipo: seq<string>, clave: seq<string>,
                           sap: seq<Option<string>>, corregido: seq<Option<string>>)
    requires |sap| == |corregido|
  {
    && |col| == |tipo| == |clave|
    && forall i :: 0 <= i < |col| ==> col[i] == StatusOf(tipo[i], clave[i], BuildMap(sap, corregido))
  }

  /** `col` is the alternate-client-code rule (without literal `False`) applied to every sales row. */
  predicate IsCodEcomColumn(col: seq<string>, tipo: seq<string>, cliente: seq<string>, ecom: seq<string>,
                            codActual: seq<Option<string>>, codAlt: seq<Option<string>>)
    requires |codActual| == |codAlt|
  {
    && |col| == |tipo| == |cliente| == |ecom|
    && forall i :: 0 <= i < |col| ==>
      Code(col[i]) == CodClienteAltOf(tipo[i], cliente[i], ecom[i], BuildMap(codActual, codAlt), false)
  }

  /** `col` is the agent-resolution rule applied to every sales row, `fb` being the fallback column. */
  predicate IsAgenteColumn(col: seq<string>, tipo: seq<string>, nombre: seq<string>, cliente: seq<string>, fb: seq<string>,
                           codActual: seq<Option<string>>, jefe: seq<Option<string>>)
    requires |codActual| == |jefe|
  {
    && |col| == |tipo| == |nombre| == |cliente| == |fb|
    && forall i :: 0 <= i < |col| ==>
      col[i] == AgenteResueltoOf(tipo[i], nombre[i], cliente[i], fb[i], BuildMap(codActual, jefe))
  }

  /** Adding a column that no alias names leaves every aliased column as it was. */
  lemma AliasedColumnsUnaffected(df0: Frame<string>, df1: Frame<string>, cols: map<string, string>, name: string, col: seq<string>)
    requires df0.Valid() && |col| == df0.height && df1 == WithColumn(df0, name, col)
    requires name !in cols.Values
    requires forall alias :: alias in cols ==> HasColumn(df0, cols, alias)
    ensures forall alias :: alias in cols ==> HasColumn(df1, cols, alias) && Column(df1, cols, alias) == Column(df0, cols, alias)
  {
    forall alias | alias in cols
      ensures HasColumn(df1, cols, alias) && Column(df1, cols, alias) == Column(df0, cols, alias)
    {
      assert cols[alias] in cols.Values;
    }
  }

  /** Adding a column keeps every alias resolvable. */
  lemma StillResolvable(v: VerificadorCodigos, df0: Frame<string>)
    requires Resolvable(df0, v.dfDrivers, v.colsVtas, v.colsDrivers)
    requires v.dfVtas.Valid() && v.dfVtas.height == df0.height && df0.columns.Keys <= v.dfVtas.columns.Keys
    ensures Resolvable(v.dfVtas, v.dfDrivers, v.colsVtas, v.colsDrivers)
  {
  }

  /** Every alias of `cols` reads the same column in `df` as in `df0`. */
  predicate SameAliased(df: Frame<string>, df0: Frame<string>, cols: map<string, string>) {
    && df.Valid() && df0.Valid() && df.height == df0.height
    && forall alias :: alias in cols ==>
      HasColumn(df, cols, alias) && HasColumn(df0, cols, alias) && Column(df, cols, alias) == Column(df0, cols, alias)
  }

  /**
   * Assigns the status column "STATUS". When no alias names
   * an output column, `df0` is the original table, read unchanged so far.
   */
  method AsignarStatus(v: VerificadorCodigos, ghost df0: Frame<string>) returns (col: seq<string>)
    requires v.Valid() && Resolvable(v.dfVtas, v.dfDrivers, v.colsVtas, v.colsDrivers)
    requires OutputsDisjoint(v.colsVtas) ==> SameAliased(v.dfVtas, df0, v.colsVtas)
    modifies v
    ensures v.Valid() && Resolvable(v.dfVtas, v.dfDrivers, v.colsVtas, v.colsDrivers)
    ensures v.dfDrivers == old(v.dfDrivers) && v.colsVtas == old(v.colsVtas) && v.colsDrivers == old(v.colsDrivers)
    ensures |col| == old(v.dfVtas.height) && v.dfVtas == WithColumn(old(v.dfVtas), STATUS_COL, col)
    ensures IsStatusColumn(col, Column(old(v.dfVtas), v.colsVtas, "tipo_venta"), Column(old(v.dfVtas), v.colsVtas, "agente_comercial_clave"),
                           Column(v.dfDrivers, v.colsDrivers, "cod_sap"), Column(v.dfDrivers, v.colsDrivers, "cambio_cod_ecom_crm"))
    ensures OutputsDisjoint(v.colsVtas) ==>
      && SameAliased(v.dfVtas, df0, v.colsVtas)
      && IsStatusColumn(col, Column(df0, v.colsVtas, "tipo_venta"), Column(df0, v.colsVtas, "agente_comercial_clave"),
                        Column(v.dfDrivers, v.colsDrivers, "cod_sap"), Column(v.dfDrivers, v.colsDrivers, "cambio_cod_ecom_crm"))
  {
    var status := v.CreateColStatus();
    col := status[..];
    ghost var before := v.dfVtas;
    AsignarColumna(v, STATUS_COL, col);
    StillResolvable(v, before);
    if OutputsDisjoint(v.colsVtas) {
      AliasedColumnsUnaffected(before, v.dfVtas, v.colsVtas, STATUS_COL, col);
    }
  }

  /** Assigns the alternate client codes, without literal `False`, as "COD ECOM FINAL". */
  method AsignarCodEcom(v: VerificadorCodigos, ghost df0: Frame<string>) returns (col: seq<string>)
    requires v.Valid() && Resolvable(v.dfVtas, v.dfDrivers, v.colsVtas, v.colsDrivers)
    requires OutputsDisjoint(v.colsVtas) ==> SameAliased(v.dfVtas, df0, v.colsVtas)
    modifies v
    ensures v.Valid() && Resolvable(v.dfVtas, v.dfDrivers, v.colsVtas, v.colsDrivers)
    ensures v.dfDrivers == old(v.dfDrivers) && v.colsVtas == old(v.colsVtas) && v.colsDrivers == old(v.colsDrivers)
    ensures |col| == old(v.dfVtas.height) && v.dfVtas == WithColumn(old(v.dfVtas), COD_ECOM_FINAL_COL, col)
    ensures IsCodEcomColumn(col, Column(old(v.dfVtas), v.colsVtas, "tipo_venta"), Column(old(v.dfVtas), v.colsVtas, "cliente_clave"),
                            Column(old(v.dfVtas), v.colsVtas, "codigo_ecom"),
                            Column(v.dfDrivers, v.colsDrivers, "cod_actual"), Column(v.dfDrivers, v.colsDrivers, "cod_cliente_alt"))
    ensures OutputsDisjoint(v.colsVtas) ==>
      && SameAliased(v.dfVtas, df0, v.colsVtas)
      && IsCodEcomColumn(col, Column(df0, v.colsVtas, "tipo_venta"), Column(df0, v.colsVtas, "cliente_clave"),
                         Column(df0, v.colsVtas, "codigo_ecom"),
                         Column(v.dfDrivers, v.colsDrivers, "cod_actual"), Column(v.dfDrivers, v.colsDrivers, "cod_cliente_alt"))
  {
    var alt := v.CreateColCodClienteAlt(false);
    col := CodeTexts(alt[..]);
    ghost var before := v.dfVtas;
    AsignarColumna(v, COD_ECOM_FINAL_COL, col);
    StillResolvable(v, before);
    if OutputsDisjoint(v.colsVtas) {
      AliasedColumnsUnaffected(before, v.dfVtas, v.colsVtas, COD_ECOM_FINAL_COL, col);
    }
  }

  /** Assigns a resolved-agent column ("COD AC FINAL" or "NOMBRE AC FINAL") under `name`. */
  method AsignarAgente(v: VerificadorCodigos, ghost df0: Frame<string>, name: string, driverVal: DriverVal, fallback: Fallback)
    returns (col: seq<string>)
    requires v.Valid() && Resolvable(v.dfVtas, v.dfDrivers, v.colsVtas, v.colsDrivers)
    requires OutputsDisjoint(v.colsVtas) ==> SameAliased(v.dfVtas, df0, v.colsVtas) && name !in v.colsVtas.Values
    modifies v
    ensures v.Valid() && Resolvable(v.dfVtas, v.dfDrivers, v.colsVtas, v.colsDrivers)
    ensures v.dfDrivers == old(v.dfDrivers) && v.colsVtas == old(v.colsVtas) && v.colsDrivers == old(v.colsDrivers)
    ensures |col| == old(v.dfVtas.height) && v.dfVtas == WithColumn(old(v.dfVtas), name, col)
    ensures IsAgenteColumn(col, Column(old(v.dfVtas), v.colsVtas, "tipo_venta"), Column(old(v.dfVtas), v.colsVtas, "agente_comercial"),
                           Column(old(v.dfVtas), v.colsVtas, "cliente_clave"), Column(old(v.dfVtas), v.colsVtas, FallbackAlias(fallback)),
                           Column(v.dfDrivers, v.colsDrivers, "cod_actual"), Column(v.dfDrivers, v.colsDrivers, DriverValAlias(driverVal)))
    ensures OutputsDisjoint(v.colsVtas) ==>
      && SameAliased(v.dfVtas, df0, v.colsVtas)
      && IsAgenteColumn(col, Column(df0, v.colsVtas, "tipo_venta"), Column(df0, v.colsVtas, "agente_comercial"),
                        Column(df0, v.colsVtas, "cliente_clave"), Column(df0, v.colsVtas, FallbackAlias(fallback)),
                        Column(v.dfDrivers, v.colsDrivers, "cod_actual"), Column(v.dfDrivers, v.colsDrivers, DriverValAlias(driverVal)))
  {
    var res := v.CreateColAgenteResuelta(driverVal, fallback);
    col := res[..];
    ghost var before := v.dfVtas;
    AsignarColumna(v, name, col);
    StillResolvable(v, before);
    if OutputsDisjoint(v.colsVtas) {
      AliasedColumnsUnaffected(before, v.dfVtas, v.colsVtas, name, col);
    }
  }

  /** The four derived columns of `dfVtas` are the four rules applied to its rows. */
  predicate DerivedByRules(out: Frame<string>, dfVtas: Frame<string>, dfDrivers: Frame<Option<string>>,
                           colsVtas: map<string, string>, colsDrivers: map<string, string>)
    requires Resolvable(dfVtas, dfDrivers, colsVtas, colsDrivers)
    requires {STATUS_COL, COD_ECOM_FINAL_COL, COD_AC_FINAL_COL, NOMBRE_AC_FINAL_COL} <= out.columns.Keys
  {
    var tipo := Column(dfVtas, colsVtas, "tipo_venta");
    var cliente := Column(dfVtas, colsVtas, "cliente_clave");
    var agente := Column(dfVtas, colsVtas, "agente_comercial");
    var clave := Column(dfVtas, colsVtas, "agente_comercial_clave");
    var codActual := Column(dfDrivers, colsDrivers, "cod_actual");
    && IsStatusColumn(out.columns[STATUS_COL], tipo, clave,
                      Column(dfDrivers, colsDrivers, "cod_sap"), Column(dfDrivers, colsDrivers, "cambio_cod_ecom_crm"))
    && IsCodEcomColumn(out.columns[COD_ECOM_FINAL_COL], tipo, cliente, Column(dfVtas, colsVtas, "codigo_ecom"),
                       codActual, Column(dfDrivers, colsDrivers, "cod_cliente_alt"))
    && IsAgenteColumn(out.columns[COD_AC_FINAL_COL], tipo, agente, cliente, clave,
                      codActual, Column(dfDrivers, colsDrivers, "cod_jefe_ventas"))
    && IsAgenteColumn(out.columns[NOMBRE_AC_FINAL_COL], tipo, agente, cliente, agente,
                      codActual, Column(dfDrivers, colsDrivers, "jefe_ventas"))
  }

  /** The table after the four assignments: the old columns, plus the four outputs. */
  lemma FourAssignments(df0: Frame<string>, df4: Frame<string>,
                        status: seq<string>, codEcom: seq<string>, codAc: seq<string>, nombreAc: seq<string>)
    requires df0.Valid() && |status| == |codEcom| == |codAc| == |nombreAc| == df0.height
    requires df4 == WithColumn(WithColumn(WithColumn(WithColumn(df0, STATUS_COL, status), COD_ECOM_FINAL_COL, codEcom),
                                          COD_AC_FINAL_COL, codAc), NOMBRE_AC_FINAL_COL, nombreAc)
    ensures df4.Valid() && df4.height == df0.height
    ensures df4.columns.Keys == df0.columns.Keys + {STATUS_COL, COD_ECOM_FINAL_COL, COD_AC_FINAL_COL, NOMBRE_AC_FINAL_COL}
    ensures forall c :: c in df0.columns && c !in {STATUS_COL, COD_ECOM_FINAL_COL, COD_AC_FINAL_COL, NOMBRE_AC_FINAL_COL} ==>
      df4.columns[c] == df0.columns[c]
    ensures df4.columns[STATUS_COL] == status && df4.columns[COD_ECOM_FINAL_COL] == codEcom
    ensures df4.columns[COD_AC_FINAL_COL] == codAc && df4.columns[NOMBRE_AC_FINAL_COL] == nombreAc
  {
  }

  /** The four columns placed in `out` are the four rules applied to the rows of `dfVtas`. */
  lemma RulesPlaced(out: Frame<string>, dfVtas: Frame<string>, dfDrivers: Frame<Option<string>>,
                    colsVtas: map<string, string>, colsDrivers: map<string, string>,
                    status: seq<string>, codEcom: seq<string>, codAc: seq<string>, nombreAc: seq<string>)
    requires Resolvable(dfVtas, dfDrivers, colsVtas, colsDrivers)
    requires {STATUS_COL, COD_ECOM_FINAL_COL, COD_AC_FINAL_COL, NOMBRE_AC_FINAL_COL} <= out.columns.Keys
    requires out.columns[STATUS_COL] == status && out.columns[COD_ECOM_FINAL_COL] == codEcom
    requires out.columns[COD_AC_FINAL_COL] == codAc && out.columns[NOMBRE_AC_FINAL_COL] == nombreAc
    requires IsStatusColumn(status, Column(dfVtas, colsVtas, "tipo_venta"), Column(dfVtas, colsVtas, "agente_comercial_clave"),
                            Column(dfDrivers, colsDrivers, "cod_sap"), Column(dfDrivers, colsDrivers, "cambio_cod_ecom_crm"))
    requires IsCodEcomColumn(codEcom, Column(dfVtas, colsVtas, "tipo_venta"), Column(dfVtas, colsVtas, "cliente_clave"),
                             Column(dfVtas, colsVtas, "codigo_ecom"),
                             Column(dfDrivers, colsDrivers, "cod_actual"), Column(dfDrivers, colsDrivers, "cod_cliente_alt"))
    requires IsAgenteColumn(codAc, Column(dfVtas, colsVtas, "tipo_venta"), Column(dfVtas, colsVtas, "agente_comercial"),
                            Column(dfVtas, colsVtas, "cliente_clave"), Column(dfVtas, colsVtas, FallbackAlias(FallbackClave)),
                            Column(dfDrivers, colsDrivers, "cod_actual"), Column(dfDrivers, colsDrivers, DriverValAlias(DriverCod)))
    requires IsAgenteColumn(nombreAc, Column(dfVtas, colsVtas, "tipo_venta"), Column(dfVtas, colsVtas, "agente_comercial"),
                            Column(dfVtas, colsVtas, "cliente_clave"), Column(dfVtas, colsVtas, FallbackAlias(FallbackNombre)),
                            Column(dfDrivers, colsDrivers, "cod_actual"), Column(dfDrivers, colsDrivers, DriverValAlias(DriverNombre)))
    ensures DerivedByRules(out, dfVtas, dfDrivers, colsVtas, colsDrivers)
  {
  }

  /**
   * main.py's four assignments, in order, on the sales table `v` works on:
   * "STATUS", "COD ECOM FINAL" (no literal `False`), "COD AC FINAL" (supervisor code,
   * falling back on the agent key) and "NOMBRE AC FINAL" (supervisor name, falling
   * back on the agent name).
   */
  method DerivarColumnas(v: VerificadorCodigos)
    requires v.Valid() && Resolvable(v.dfVtas, v.dfDrivers, v.colsVtas, v.colsDrivers)
    modifies v
    ensures v.Valid()
    ensures v.dfDrivers == old(v.dfDrivers) && v.colsVtas == old(v.colsVtas) && v.colsDrivers == old(v.colsDrivers)
    ensures v.dfVtas.Valid() && v.dfVtas.height == old(v.dfVtas.height)
    ensures v.dfVtas.columns.Keys == old(v.dfVtas.columns.Keys) + {STATUS_COL, COD_ECOM_FINAL_COL, COD_AC_FINAL_COL, NOMBRE_AC_FINAL_COL}
    ensures forall c :: c in old(v.dfVtas.columns) && c !in {STATUS_COL, COD_ECOM_FINAL_COL, COD_AC_FINAL_COL, NOMBRE_AC_FINAL_COL} ==>
      v.dfVtas.columns[c] == old(v.dfVtas.columns[c])
    ensures OutputsDisjoint(v.colsVtas) ==>
      Resolvable(old(v.dfVtas), v.dfDrivers, v.colsVtas, v.colsDrivers) &&
      DerivedByRules(v.dfVtas, old(v.dfVtas), v.dfDrivers, v.colsVtas, v.colsDrivers)
  {
    ghost var df0 := v.dfVtas;
    var status := AsignarStatus(v, df0);
    var codEcom := AsignarCodEcom(v, df0);
    var codAc := AsignarAgente(v, df0, COD_AC_FINAL_COL, DriverCod, FallbackClave);
    var nombreAc := AsignarAgente(v, df0, NOMBRE_AC_FINAL_COL, DriverNombre, FallbackNombre);
    FourAssignments(df0, v.dfVtas, status, codEcom, codAc, nombreAc);
    if OutputsDisjoint(v.colsVtas) {
      RulesPlaced(v.dfVtas, df0, v.dfDrivers, v.colsVtas, v.colsDrivers, status, codEcom, codAc, nombreAc);
    }
  }

  /**
   * Column validation of both tables (the first failure is raised), then the four
   * derived columns. When no configured sales column is an output column, each output
   * column is its rule applied to the original sales rows; otherwise a later
   * derivation reads what an earlier assignment wrote, as the shared table implies.
   */
  method AplicarFormulas(dfVtas: Frame<string>, dfDrivers: Frame<Option<string>>,
                         colsVtas: map<string, string>, colsDrivers: map<string, string>,
                         hojaVtas: string, hojaDrivers: string)
    returns (r: Result<Frame<string>, MissingColumns>)
    requires dfVtas.Valid() && dfDrivers.Valid()
    requires AliasesConfigured(colsVtas, colsDrivers)
    ensures r.Failure? <==>
      VerificarColumnas(dfVtas, colsVtas, hojaVtas).Fail? || VerificarColumnas(dfDrivers, colsDrivers, hojaDrivers).Fail?
    ensures VerificarColumnas(dfVtas, colsVtas, hojaVtas).Fail? ==>
      r == Failure(VerificarColumnas(dfVtas, colsVtas, hojaVtas).error)
    ensures VerificarColumnas(dfVtas, colsVtas, hojaVtas).Pass? && VerificarColumnas(dfDrivers, colsDrivers, hojaDrivers).Fail? ==>
      r == Failure(VerificarColumnas(dfDrivers, colsDrivers, hojaDrivers).error)
    ensures r.Success? ==> r.value.Valid() && r.value.height == dfVtas.height
    ensures r.Success? ==>
      r.value.columns.Keys == dfVtas.columns.Keys + {STATUS_COL, COD_ECOM_FINAL_COL, COD_AC_FINAL_COL, NOMBRE_AC_FINAL_COL}
    ensures r.Success? ==> forall c :: c in dfVtas.columns && c !in {STATUS_COL, COD_ECOM_FINAL_COL, COD_AC_FINAL_COL, NOMBRE_AC_FINAL_COL} ==>
      r.value.columns[c] == dfVtas.columns[c]
    ensures r.Success? && OutputsDisjoint(colsVtas) ==>
      Resolvable(dfVtas, dfDrivers, colsVtas, colsDrivers) && DerivedByRules(r.value, dfVtas, dfDrivers, colsVtas, colsDrivers)
  {
    var chkVtas := VerificarColumnas(dfVtas, colsVtas, hojaVtas);
    if chkVtas.Fail? {
      return Failure(chkVtas.error);
    }
    var chkDrivers := VerificarColumnas(dfDrivers, colsDrivers, hojaDrivers);
    if chkDrivers.Fail? {
      return Failure(chkDrivers.error);
    }
    var v := new VerificadorCodigos(dfVtas, dfDrivers, colsVtas, colsDrivers);
    DerivarColumnas(v);
    r := Success(v.dfVtas);
  }
}
