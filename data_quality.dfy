/** `verificar_columnas`: a table holds every real column name an alias map expects. */
module DataQuality {
  import opened Wrappers
  import opened Frames

  /** The ValueError raised for table `nombre`, naming the set of missing columns. */
  datatype MissingColumns = MissingColumns(nombre: string, faltantes: set<string>)

  /**
   * Passes exactly when every real name (a VALUE of `columnasEsperadas`; the aliases
   * are never looked at) is a column of `df`; otherwise fails naming exactly the
   * expected real names that are not columns.
   */
  function VerificarColumnas<C>(df: Frame<C>, columnasEsperadas: map<string, string>, nombre: string)
    : (r: Outcome<MissingColumns>)
    ensures r.Pass? <==> forall alias :: alias in columnasEsperadas ==> columnasEsperadas[alias] in df.columns
    ensures r.Fail? ==> r.error.nombre == nombre
    ensures r.Fail? ==> r.error.faltantes == columnasEsperadas.Values - df.columns.Keys && r.error.faltantes != {}
  {
    var esperadas := columnasEsperadas.Values;
    var presentes := df.columns.Keys;
    var faltantes := esperadas - presentes;
    assert forall alias :: alias in columnasEsperadas ==> columnasEsperadas[alias] in esperadas;
    if faltantes != {} then Fail(MissingColumns(nombre, faltantes)) else
      assert forall x :: x in esperadas ==> x !in faltantes;
      Pass
  }

  /** A passing check gives every alias of the map a column of the table. */
  lemma ValidatedHasColumn<C>(df: Frame<C>, columnasEsperadas: map<string, string>, nombre: string, alias: string)
    requires VerificarColumnas(df, columnasEsperadas, nombre).Pass?
    requires alias in columnasEsperadas
    ensures HasColumn(df, columnasEsperadas, alias)
  {
  }

  /**
   * Only the set of real names matters: alias maps with the same values (whatever
   * their aliases, and however many aliases share a real name) give the same outcome.
   */
  lemma OnlyRealNamesMatter<C>(df: Frame<C>, e1: map<string, string>, e2: map<string, string>, nombre: string)
    requires e1.Values == e2.Values
    ensures VerificarColumnas(df, e1, nombre) == VerificarColumnas(df, e2, nombre)
  {
  }

  /** Columns that are not expected never change the outcome. */
  lemma {:induction false} ExtraColumnsIrrelevant<C>(df1: Frame<C>, df2: Frame<C>, columnasEsperadas: map<string, string>, nombre: string)
    requires df1.columns.Keys * columnasEsperadas.Values == df2.columns.Keys * columnasEsperadas.Values
    ensures VerificarColumnas(df1, columnasEsperadas, nombre) == VerificarColumnas(df2, columnasEsperadas, nombre)
  {
    var v := columnasEsperadas.Values;
    assert v - df1.columns.Keys == v - df2.columns.Keys by {
      forall x | x in v
        ensures x in df1.columns.Keys <==> x in df2.columns.Keys
      {
        assert x in df1.columns.Keys <==> x in df1.columns.Keys * v;
        assert x in df2.columns.Keys <==> x in df2.columns.Keys * v;
      }
    }
  }
}
