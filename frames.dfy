/**
 * A pandas DataFrame as a value: a map from column name to that column's cells,
 * and the number of rows (the length of the index). Every column has one cell per row.
 */
module Frames {

  datatype Frame<C> = Frame(columns: map<string, seq<C>>, height: nat) {

    /** Every column is aligned with the index. */
    predicate Valid() {
      forall c :: c in columns ==> |columns[c]| == height
    }
  }

  /**
   * `alias` resolves through the alias map `cols` (alias -> real column name) to a
   * column that exists in `df`; reading `df[cols[alias]]` raises KeyError otherwise.
   */
  predicate HasColumn<C>(df: Frame<C>, cols: map<string, string>, alias: string) {
    alias in cols && cols[alias] in df.columns
  }

  /** `df[cols[alias]]`: the column bound to `alias`. */
  function Column<C>(df: Frame<C>, cols: map<string, string>, alias: string): (col: seq<C>)
    requires df.Valid() && HasColumn(df, cols, alias)
    ensures |col| == df.height
  {
    df.columns[cols[alias]]
  }

  /** `df[name] = col`: adds column `name`, or replaces it when it exists. */
  function WithColumn<C>(df: Frame<C>, name: string, col: seq<C>): (r: Frame<C>)
    requires df.Valid() && |col| == df.height
    ensures r.Valid() && r.height == df.height
    ensures r.columns.Keys == df.columns.Keys + {name}
    ensures r.columns[name] == col
    ensures forall c :: c in df.columns && c != name ==> r.columns[c] == df.columns[c]
  {
    Frame(df.columns[name := col], df.height)
  }
}
