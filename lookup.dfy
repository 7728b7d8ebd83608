/**
 * Lookup mappings built from two columns of the drivers table, and how a sales
 * column is looked up in them (`Series.map(mapping).fillna(fallback)`).
 */
module Lookup {
  import opened Wrappers

  /** Row `j` is the last row of `keys` holding the key `keys[j]`. */
  predicate IsLastOccurrence<K(==)>(keys: seq<K>, j: int)
    requires 0 <= j < |keys|
  {
    forall j' :: j < j' < |keys| ==> keys[j'] != keys[j]
  }

  /**
   * `dict(zip(keys, vals))`: the pairs are inserted in row order, so a key that
   * occurs several times is bound to the value of its last row.
   */
  function BuildMap<K, V>(keys: seq<K>, vals: seq<V>): (m: map<K, V>)
    requires |keys| == |vals|
    ensures m.Keys == set i | 0 <= i < |keys| :: keys[i]
    ensures forall k :: k in m ==> exists j :: 0 <= j < |keys| && keys[j] == k && vals[j] == m[k]
  {
    if |keys| == 0 then map[]
    else
      var n := |keys| - 1;
      var prefix := BuildMap(keys[..n], vals[..n]);
      assert forall k :: k in prefix ==> exists j :: 0 <= j < n && keys[j] == k && vals[j] == prefix[k] by {
        forall k | k in prefix ensures exists j :: 0 <= j < n && keys[j] == k && vals[j] == prefix[k] {
          var j :| 0 <= j < n && keys[..n][j] == k && vals[..n][j] == prefix[k];
          assert keys[j] == k && vals[j] == prefix[k];
        }
      }
      assert forall i :: 0 <= i < n ==> keys[..n][i] == keys[i];
      prefix[keys[n] := vals[n]]
  }

  /** Duplicated keys: the mapping holds the value of the key's last row. */
  lemma {:induction false} BuildMapLastWins<K, V>(keys: seq<K>, vals: seq<V>, j: int)
    requires |keys| == |vals| && 0 <= j < |keys| && IsLastOccurrence(keys, j)
    ensures keys[j] in BuildMap(keys, vals) && BuildMap(keys, vals)[keys[j]] == vals[j]
  {
    var n := |keys| - 1;
    if j < n {
      assert keys[n] != keys[j];
      assert IsLastOccurrence(keys[..n], j);
      BuildMapLastWins(keys[..n], vals[..n], j);
    }
  }

  /**
   * `series.map(m).fillna(fallback)` for one cell: the mapped value, or `fallback`
   * when the key is absent or is bound to an empty cell.
   */
  function MapFillna(m: map<Option<string>, Option<string>>, key: string, fallback: string): (r: string)
    ensures Some(key) in m && m[Some(key)].Some? ==> r == m[Some(key)].value
    ensures (Some(key) !in m || m[Some(key)].None?) ==> r == fallback
  {
    if Some(key) in m && m[Some(key)].Some? then m[Some(key)].value else fallback
  }

  /**
   * Reference reading of a lookup on the drivers table itself: scan from the bottom
   * for the last row whose key is `key`; its value if that cell is filled, otherwise
   * `fallback`; `fallback` when no row has the key.
   */
  function LastMatch(keys: seq<Option<string>>, vals: seq<Option<string>>, key: string, fallback: string): string
    requires |keys| == |vals|
  {
    if |keys| == 0 then fallback
    else
      var n := |keys| - 1;
      if keys[n] == Some(key) then (if vals[n].Some? then vals[n].value else fallback)
      else LastMatch(keys[..n], vals[..n], key, fallback)
  }

  /** Looking a key up in `dict(zip(keys, vals))` is the bottom-up scan of the table. */
  lemma {:induction false} LookupIsLastMatch(keys: seq<Option<string>>, vals: seq<Option<string>>, key: string, fallback: string)
    requires |keys| == |vals|
    ensures MapFillna(BuildMap(keys, vals), key, fallback) == LastMatch(keys, vals, key, fallback)
  {
    if |keys| > 0 {
      var n := |keys| - 1;
      if keys[n] != Some(key) {
        LookupIsLastMatch(keys[..n], vals[..n], key, fallback);
      }
    }
  }

  /** A lookup result is the fallback or the value cell of some driver row with that key. */
  lemma {:induction false} LastMatchSource(keys: seq<Option<string>>, vals: seq<Option<string>>, key: string, fallback: string)
    requires |keys| == |vals|
    ensures var r := LastMatch(keys, vals, key, fallback);
      r == fallback || exists j :: 0 <= j < |keys| && keys[j] == Some(key) && vals[j] == Some(r)
  {
    if |keys| > 0 {
      var n := |keys| - 1;
      if keys[n] != Some(key) {
        LastMatchSource(keys[..n], vals[..n], key, fallback);
        var r := LastMatch(keys, vals, key, fallback);
        if r != fallback {
          var j :| 0 <= j < n && keys[..n][j] == Some(key) && vals[..n][j] == Some(r);
          assert keys[j] == Some(key) && vals[j] == Some(r);
        }
      }
    }
  }

  /** A key that no driver row carries falls back. */
  lemma {:induction false} LastMatchMiss(keys: seq<Option<string>>, vals: seq<Option<string>>, key: string, fallback: string)
    requires |keys| == |vals|
    requires forall j :: 0 <= j < |keys| ==> keys[j] != Some(key)
    ensures LastMatch(keys, vals, key, fallback) == fallback
  {
    if |keys| > 0 {
      var n := |keys| - 1;
      LastMatchMiss(keys[..n], vals[..n], key, fallback);
    }
  }

  /**
   * A first-match reading of the BUSCARV (VLOOKUP) the status rule is described by: the
   * FIRST row with the key, with the same empty-cell fallback as the dictionary lookup
   * (Excel itself would return an empty hit cell as 0). The dictionary takes the last row;
   * the two agree when the key occurs at most once.
   */
  function FirstMatch(keys: seq<Option<string>>, vals: seq<Option<string>>, key: string, fallback: string): string
    requires |keys| == |vals|
  {
    if |keys| == 0 then fallback
    else if keys[0] == Some(key) then (if vals[0].Some? then vals[0].value else fallback)
    else FirstMatch(keys[1..], vals[1..], key, fallback)
  }

  /** The filled value of a driver cell, or `fallback` for an empty one. */
  function CellOr(cell: Option<string>, fallback: string): string {
    if cell.Some? then cell.value else fallback
  }

  /** A key carried by exactly one driver row reads that row's cell. */
  lemma {:induction false} LastMatchOnly(keys: seq<Option<string>>, vals: seq<Option<string>>, key: string, fallback: string, j: int)
    requires |keys| == |vals| && 0 <= j < |keys| && keys[j] == Some(key)
    requires forall i :: 0 <= i < |keys| && i != j ==> keys[i] != Some(key)
    ensures LastMatch(keys, vals, key, fallback) == CellOr(vals[j], fallback)
  {
    var n := |keys| - 1;
    if j < n {
      LastMatchOnly(keys[..n], vals[..n], key, fallback, j);
    }
  }

  /** The first-match reading of a key carried by exactly one driver row reads that row's cell. */
  lemma {:induction false} FirstMatchOnly(keys: seq<Option<string>>, vals: seq<Option<string>>, key: string, fallback: string, j: int)
    requires |keys| == |vals| && 0 <= j < |keys| && keys[j] == Some(key)
    requires forall i :: 0 <= i < |keys| && i != j ==> keys[i] != Some(key)
    ensures FirstMatch(keys, vals, key, fallback) == CellOr(vals[j], fallback)
  {
    if j > 0 {
      FirstMatchOnly(keys[1..], vals[1..], key, fallback, j - 1);
    }
  }

  /** The first-match reading of a key that no driver row carries falls back. */
  lemma {:induction false} FirstMatchMiss(keys: seq<Option<string>>, vals: seq<Option<string>>, key: string, fallback: string)
    requires |keys| == |vals|
    requires forall j :: 0 <= j < |keys| ==> keys[j] != Some(key)
    ensures FirstMatch(keys, vals, key, fallback) == fallback
  {
    if |keys| > 0 {
      FirstMatchMiss(keys[1..], vals[1..], key, fallback);
    }
  }

  /** With at most one driver row per key, the dictionary lookup agrees with the first-match reading. */
  lemma UniqueKeyFirstIsLast(keys: seq<Option<string>>, vals: seq<Option<string>>, key: string, fallback: string)
    requires |keys| == |vals|
    requires forall i, j :: 0 <= i < |keys| && 0 <= j < |keys| && keys[i] == Some(key) && keys[j] == Some(key) ==> i == j
    ensures FirstMatch(keys, vals, key, fallback) == LastMatch(keys, vals, key, fallback)
  {
    if j :| 0 <= j < |keys| && keys[j] == Some(key) {
      LastMatchOnly(keys, vals, key, fallback, j);
      FirstMatchOnly(keys, vals, key, fallback, j);
    } else {
      LastMatchMiss(keys, vals, key, fallback);
      FirstMatchMiss(keys, vals, key, fallback);
    }
  }
}
