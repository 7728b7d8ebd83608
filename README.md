# Sales–drivers code reconciliation, modelled in Dafny

The system reconciles a sales table against a drivers (reference) table. For every
sales row it derives four columns: a status flag, an alternate client code, a resolved
agent code and a resolved agent name. Each derived column starts from a default. It then
overwrites the rows a mask picks with a lookup in a `dict(zip(key column, value
column))` mapping of the drivers table. The status column has one extra mask: its type
"I" rows keyed "#" get a constant instead.

When a lookup misses or reads an empty cell, it falls back on a value specific to the
rule:
- for the status, "OK";
- for the resolved agent, the fallback column;
- for the alternate client code, the row's own e-commerce code, even when the default
  elsewhere is `False`.

Before deriving anything, the application checks that both tables hold every configured
column. Its settings come from an internal YAML
configuration that the user's configuration overrides through a recursive merge.

Modules:

- `Wrappers`: `Option`, `Outcome` and `Result`.
- `Frames`: a table as a value. It is a map from column name to column, plus its height. `WithColumn` is `df[name] = col`.
- `Lookup`:
  - `BuildMap` is `dict(zip(keys, vals))`, where the last occurrence of a key wins.
  - `MapFillna` is `series.map(m).fillna(fallback)` for one cell.
  - Two reference readings of a lookup on the table itself: `LastMatch` scans from the bottom. `FirstMatch` is a first-match reading of the BUSCARV (VLOOKUP) named in the status docstring, with the same empty-cell fallback as the dictionary.
- `ExclusiveFunctions`: class `VerificadorCodigos`, with its constants, the SAP-code mapping it builds at construction, and the three column derivations. Each derivation is a method with loops over a fresh array, proved against a per-row rule function.
- `DataQuality`: `verificar_columnas`.
- `Config`: the configuration value, its recursive merge and its key-path lookup. Class `ConfigLoader` has `deep_update`, `_combinar_configuraciones`, `get_config` and `__init__`.
- `App`: the application's validation and its four column assignments.
  - The sales table is shared between the application and the `VerificadorCodigos` object, as in the source.
  - So every assignment is visible to the derivations that follow it.

Where the docstrings and the code disagree, the model follows the code:

- For a type "I" row whose agent key is "#", the status is "SIN COD AC CORREGIDO". The docstring at `Utils/exclusive_functions.py:52` says "SIN COD AC".
- The constant `RESULTADO_SIN_COD_AC` is declared but no derivation assigns it.
- The code has no later pass that rewrites the status column once the agent name is resolved, so the model has none either.
- The docstring calls the status lookup a BUSCARV (VLOOKUP), which finds the first row with the key. The code's `dict(zip(...))` keeps the last.
  - `Lookup.LookupIsLastMatch` proves that the model takes the last row.
  - `Lookup.UniqueKeyFirstIsLast` proves that the last-row lookup and the first-match reading `FirstMatch` agree whenever the key occurs at most once among the driver rows.
  - `FirstMatch` falls back on an empty hit cell, as the dictionary lookup does. Excel's VLOOKUP would instead return such a cell as 0, and the model does not cover that.

A missing column never reaches the derivations: both tables must first pass
`verificar_columnas`, which `App.AplicarFormulas` models together with its error path.
After a pass, every aliased column exists (`DataQuality.ValidatedHasColumn`). The
application validates a minimal first read of each sheet and derives on a second, full
read. Both reads take all columns, so the headers agree, and the model treats the two
reads as one table.

A missing alias is never checked: `verificar_columnas` looks only at the alias map's
values. In the source, an alias map that lacks one of the aliases the derivations read
raises an unchecked `KeyError` during derivation. That happens in the constructor for
`cod_sap`/`cambio_cod_ecom_crm` and inside the `create_col_*` methods for the rest. The
model excludes this case with the precondition `App.AliasesConfigured`.

`App.AplicarFormulas` returns the final state of the sales table. The application's `main`
neither writes that table out nor returns it.

## Model

| member | source | states |
|---|---|---|
| ExclusiveFunctions.VerificadorCodigos.constructor | Utils/exclusive_functions.py:18-39 | stores both tables and both alias maps unchanged; the object is well formed, with `mapaDrivers` the SAP-code mapping of the drivers table |
| ExclusiveFunctions.VerificadorCodigos.CrearMapa | Utils/exclusive_functions.py:41-47 | the mapping's keys are exactly the SAP codes occurring in the drivers table |
| ExclusiveFunctions.VerificadorCodigos.ZipDrivers | Utils/exclusive_functions.py:102 | `dict(zip(...))` of two driver columns: its keys are exactly the values of the key column |
| Lookup.MapFillna | Utils/exclusive_functions.py:70-71 | `.map(m).fillna(fb)` on one cell: the mapped value when the key is bound to a filled cell, the fallback when the key is absent or bound to an empty cell (also lines 113-114 and 166-167) |
| Lookup.BuildMap | Utils/exclusive_functions.py:47 | the keys are exactly the keys of the rows, and every bound value is the value cell of some row carrying that key |
| Lookup.BuildMapLastWins | Utils/exclusive_functions.py:162 | a duplicated key is bound to the value of its last row |
| Lookup.LookupIsLastMatch | Utils/exclusive_functions.py:68-72 | `map(dict(zip(keys, vals))).fillna(fb)` on a cell equals the bottom-up scan of the table: the last row's value for the key, or `fb` when no row has the key or its value cell is empty |
| Lookup.LastMatchSource | Utils/exclusive_functions.py:111-115 | a lookup result is either the fallback or the value cell of a driver row with that key |
| Lookup.LastMatchMiss | Utils/exclusive_functions.py:71 | a key that no driver row carries gives the fallback |
| Lookup.LastMatchOnly | Utils/exclusive_functions.py:47 | a key carried by exactly one row reads that row's cell |
| Lookup.FirstMatchOnly | Utils/exclusive_functions.py:53 | the first-match reading of a key carried by exactly one row reads that row's cell |
| Lookup.FirstMatchMiss | Utils/exclusive_functions.py:53 | the first-match reading of a key that no row carries gives the fallback |
| Lookup.UniqueKeyFirstIsLast | Utils/exclusive_functions.py:53 | when a key occurs at most once, the dictionary lookup and the first-match reading agree |
| ExclusiveFunctions.HashStatusOf | Utils/exclusive_functions.py:59-66 | after the "#" pass over the all-"OK" default, a status is "SIN COD AC CORREGIDO" exactly on type "I" rows keyed "#", and "OK" otherwise |
| ExclusiveFunctions.StatusOf | Utils/exclusive_functions.py:59-72 | the status rule: "OK" off type "I", "SIN COD AC CORREGIDO" for key "#", and otherwise a filled value the mapping binds to the key, or "OK"; that bound value whenever the key is bound to a filled cell |
| ExclusiveFunctions.VerificadorCodigos.CreateColStatus | Utils/exclusive_functions.py:49-74 | a fresh column with one entry per sales row, where row i holds the status rule of row i; the object is unchanged |
| ExclusiveFunctions.VerificadorCodigos.MarcarHash | Utils/exclusive_functions.py:66 | on an all-"OK" column, exactly the type "I" rows with key "#" become "SIN COD AC CORREGIDO" |
| ExclusiveFunctions.VerificadorCodigos.MarcarLookup | Utils/exclusive_functions.py:63-72 | type "I" rows whose key is not "#" get the looked-up value, or "OK"; every other row keeps its value |
| ExclusiveFunctions.StatusFromDrivers | Utils/exclusive_functions.py:59-72 | the three cases of the status: "OK" off type "I"; "SIN COD AC CORREGIDO" for key "#"; otherwise the last matching driver row's corrected code, or "OK" |
| ExclusiveFunctions.StatusIsNeverInvented | Utils/exclusive_functions.py:59-72 | every status is "OK", "SIN COD AC CORREGIDO", or a corrected code that a driver row gives for that agent key |
| ExclusiveFunctions.DefaultAltOf | Utils/exclusive_functions.py:105-106 | the default alternate code is `False` exactly under the flag, and otherwise the row's e-commerce code |
| ExclusiveFunctions.CodClienteAltOf | Utils/exclusive_functions.py:105-115 | the alternate-code rule: `False` exactly off type "I" under the flag; non-"I" codes are the e-commerce code; every code is the e-commerce code or a filled value the mapping binds to the client key; a type "I" row whose key is bound to a filled cell gets that value |
| ExclusiveFunctions.VerificadorCodigos.CreateColCodClienteAlt | Utils/exclusive_functions.py:78-117 | a fresh column with one entry per sales row, where row i holds the alternate-client-code rule of row i; the object is unchanged |
| ExclusiveFunctions.VerificadorCodigos.CopiarCodigos | Utils/exclusive_functions.py:106 | the column becomes a copy of the e-commerce codes |
| ExclusiveFunctions.VerificadorCodigos.MarcarTipoI | Utils/exclusive_functions.py:109-115 | type "I" rows get the looked-up alternate code, falling back on their own e-commerce code; every other row keeps its default |
| ExclusiveFunctions.CodClienteAltFromDrivers | Utils/exclusive_functions.py:102-115 | type "I": the last matching driver row's alternate code, or the e-commerce code; otherwise `False` under the flag, else the e-commerce code; `False` appears exactly on non-"I" rows under the flag |
| ExclusiveFunctions.DriverValAlias | Utils/exclusive_functions.py:147-150 | "cod" reads the supervisor-code alias `cod_jefe_ventas`, and the other choice reads `jefe_ventas` |
| ExclusiveFunctions.FallbackAlias | Utils/exclusive_functions.py:153 | "clave" falls back on `agente_comercial_clave`, and the other choice on `agente_comercial` |
| ExclusiveFunctions.AgenteResueltoOf | Utils/exclusive_functions.py:153-168 | the agent rule: rows that are not both type "I" and "Sin asignar" keep the fallback value; any other result is a filled value the mapping binds to the client key; a masked row whose key is bound to a filled cell gets that value |
| ExclusiveFunctions.VerificadorCodigos.CreateColAgenteResuelta | Utils/exclusive_functions.py:120-169 | a fresh column with one entry per sales row, where row i holds the agent-resolution rule of row i, with the supervisor column and fallback column picked by the two options; the object is unchanged |
| ExclusiveFunctions.AgenteResueltoFromDrivers | Utils/exclusive_functions.py:153-168 | rows that are not both type "I" and "Sin asignar" keep the fallback; such rows get the last matching driver row's supervisor, or the fallback; a result is the fallback or a supervisor a driver row gives for that client key |
| DataQuality.VerificarColumnas | Utils/DataQuality_Functions.py:83-105 | passes iff every expected real column name is a column of the table; a failure names the table and exactly the non-empty set of missing names |
| DataQuality.ValidatedHasColumn | Utils/DataQuality_Functions.py:96-103 | after a pass, every alias of the map resolves to a column of the table |
| DataQuality.OnlyRealNamesMatter | Utils/DataQuality_Functions.py:96 | only the real names (the values) of the alias map decide the outcome |
| DataQuality.ExtraColumnsIrrelevant | Utils/DataQuality_Functions.py:97-99 | columns that are not expected never change the outcome |
| Config.Merged | Controllers/config_loader.py:29-44 | the recursive merge as a value: the keys of both sides; a base-only key keeps its value; an override replaces the base value unless both are dictionaries, whose merge is again a dictionary |
| Config.Resolve | Controllers/config_loader.py:76-83 | a key-path lookup: the empty path gives the value itself; a non-empty path resolves only through a dictionary holding its first key, and otherwise gives nothing |
| Config.ConfigLoader.DeepUpdate | Controllers/config_loader.py:29-44 | the result is the recursive merge: its keys are those of both sides; a key only in the base keeps its value; an override replaces the base value unless both are dictionaries, which are merged recursively |
| Config.ConfigLoader.CombinarConfiguraciones | Controllers/config_loader.py:46-58 | an empty user configuration gives the internal one itself; otherwise the merge of the user one into the internal one |
| Config.ConfigLoader.constructor | Controllers/config_loader.py:13-20 | keeps both configurations, and the combined configuration is their merge |
| Config.ConfigLoader.GetConfig | Controllers/config_loader.py:65-83 | the empty path gives the whole configuration; a path all of whose steps are existing keys of dictionaries gives the value there; any missing key, or a step through a non-dictionary, gives the default |
| Config.MergedWithEmpty | Controllers/config_loader.py:34-44 | merging an empty override changes nothing |
| Config.MergedWithSelf | Controllers/config_loader.py:29-44 | merging a configuration into itself gives it back |
| Config.MergedIdempotent | Controllers/config_loader.py:29-44 | applying the same overrides twice equals applying them once |
| Config.UserLeafWins | Controllers/config_loader.py:10 | a non-dictionary value that the user configuration holds at a key path is what the merged configuration holds there |
| Config.ResolveAppend | Controllers/config_loader.py:76-83 | looking up `p + q` is looking up `p` and then `q` from there |
| App.AsignarColumna | Scripts/main.py:55 | `df_vtas[name] = col` on the shared table: the column is added or replaced, and nothing else of the object changes |
| App.AsignarStatus | Scripts/main.py:55 | "STATUS" is assigned, and it is the status rule applied to the sales rows as they stand at the call; when no alias names an output column, those are also the original rows |
| App.AsignarCodEcom | Scripts/main.py:57 | "COD ECOM FINAL" is assigned, with no literal `False`, and it is the alternate-code rule applied to the sales rows as they stand at the call; when no alias names an output column, also to the original rows |
| App.AsignarAgente | Scripts/main.py:59-61 | an agent column is assigned, and it is the agent rule applied to the sales rows as they stand at the call; when no alias names an output column, also to the original rows |
| App.AliasedColumnsUnaffected | Scripts/main.py:55-61 | adding a column that no alias names leaves every aliased column as it was |
| App.StillResolvable | Scripts/main.py:55-61 | adding a column keeps every alias resolvable |
| App.FourAssignments | Scripts/main.py:55-61 | after the four assignments the table has the old columns plus the four outputs, and the others are unchanged |
| App.DerivarColumnas | Scripts/main.py:47-61 | the four columns are added in order and every other column is unchanged; when no alias names an output column, each output is its rule applied to the original rows |
| App.AplicarFormulas | Scripts/main.py:39-61 | fails iff either table misses a column, with the sales table's failure first; otherwise returns the sales table with the four derived columns as `DerivarColumnas` states |
| Frames.WithColumn | Scripts/main.py:55 | the named column is set to `col`, every other column is unchanged, and the table stays well formed |
| Frames.Column | Utils/exclusive_functions.py:61-62 | an aliased column has one cell per row |

## Left out

- File and Excel I/O, YAML parsing (`procesar_configuracion`), `_cargar_config_usuario` and its FileNotFoundError fallback, logging, `ensure_dir`, `resolve_existing_file`, `ProcesarInsumos` and `ConfigClaves` are not part of the model. Both configurations and both tables are parameters.
- The alternate-client-code column is typed with a literal `False` case. `App.CodeTexts` is only a representation helper: it turns that column back into text for "COD ECOM FINAL", where the flag is off and no `False` can occur.
- Sales cells are text. A NaN sales cell, numeric cells, and pandas index alignment beyond row position are not modelled. Driver cells are text or empty (`None`, standing for NaN).
- A missing alias (`KeyError`, unchecked in the source) is excluded by precondition (`AliasesConfigured`) instead of being modelled as an error. A missing column is a precondition of the derivations, and the application rules it out by validating columns first.
- YAML lists and numbers are modelled as `Scalar`. A user configuration that loads as YAML null, rather than as a dictionary, is not modelled.
- The `config` property getter (`Controllers/config_loader.py:60-63`) is the field `config` itself.
- App.DerivarColumnas: the per-row rules are stated only when no configured sales column is one of the four output columns. Otherwise a later derivation may read a column an earlier assignment replaced, and the model does not characterise that case.
- App.AplicarFormulas: the same restriction as `DerivarColumnas` applies to the rules it states.
