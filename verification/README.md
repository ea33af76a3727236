# Surf forecast service: verified model of its core

The service lets a user pick a beach ("playa") from a registry and returns a
simplified surf forecast. It puts together two Open-Meteo providers: the
marine API for the waves and the forecast API for the wind. This project
models the three pieces of sequential logic in the service, and proves what
they promise:

- **The bearing mapper** `transformar_grados_a_direccion` (`direction.dfy`).
  It turns an optional bearing into one of eight Spanish compass labels, or
  "N/A" when there is no bearing. It computes `int((g + 22.5) / 45) % 8`, and
  Python's `int()` rounds toward zero.
- **The selector builder** `generar_selector_html` (`selector.dfy`, with
  `sorting.dfy` and `names.dfy`). It sorts the registry items by display name
  (`nombre`) with a stable sort. A loop then appends one `<option>` per item to
  the Brasil accumulator or the España accumulator. Every country other than
  "Brasil" goes to España. The two accumulators are spliced into a fixed
  two-`optgroup` template. The loop is a Dafny method with invariants, proved
  against a specification function.
- **The forecast handler** `get_surf_forecast` (`forecast.dfy`, with
  `ascii.dfy`, `query.dfy`, `upstream.dfy` and `registry.dfy`). It lower-cases
  the id and answers 404 "Playa no encontrada" when the id is not a registry
  key. Otherwise it builds the two provider URLs from the beach's coordinates,
  reads the optional `current` object of each response, and assembles the
  result. Missing fields become null, and each direction label comes from the
  mapper.

The registry `PLAYAS` is a dictionary. Here it is the sequence of its items in
insertion order (`Registry.Entry`). The network is the parameter
`fetch: string -> Body`, which maps a URL to the parsed response. Python's
printing of a float inside an f-string is the parameter `show: real -> string`.
The handler's response records which URLs it requested, so "no request on a
404" can be stated. Bearings and coordinates are exact reals.

Points where the code's behaviour is easy to misread:
- `int()` truncates toward zero, so the mapper does not floor. Bearings below
  -22.5 land one sector clockwise of their floor sector. The exceptions are the
  band edges -67.5, -112.5, and so on, where truncation and floor agree. For
  example, -30 gives "Norte", while 330 gives "Noroeste"
  (`Direction.NegativeBand`, `Direction.FullTurnFailsBelowBound`). On bearings
  from -22.5 up the two readings agree. The model assumes, without proof, that
  the providers only send bearings in [0, 360].
- There are two fixed groups, not one per country: "Brasil", and España for
  every other country.
- The handler has no registration, deletion, protected ids or upstream-error
  response. None of these is modelled.

The URL reader in `query.dfy` (`IndexOf`, `ParseParam`, `ParseParams`,
`ParseUrl`) is not part of the service. It splits a URL at its `?`, `&` and `=`
to read the query string back, and it exists so that the round-trip lemmas
can state which parameters each request carries.

## Model

| member | source | states |
|---|---|---|
| `Direction.Trunc` | utils.py:49 | Python's `int()`: for x >= 0 the result n satisfies n <= x < n + 1; for x < 0, n - 1 < x <= n (rounds toward zero) |
| `Direction.SectorIndex` | utils.py:49 | the list index computed from any bearing is in [0, 8), so `direcciones[indice]` never fails |
| `Direction.ToCardinal` | utils.py:44-51 | the result is "N/A" exactly when the bearing is None; otherwise it is one of the eight labels |
| `Direction.SectorBand` | utils.py:48-51 | for k >= 0, every bearing in [45k - 22.5, 45k + 22.5) gets label k mod 8 |
| `Direction.TurnSectors` | utils.py:48-51 | on [0, 360): [0, 22.5) and [337.5, 360) give "Norte" (the latter through `% 8`); band k for 1 <= k < 8 gives label k |
| `Direction.NegativeBand` | utils.py:49 | for k < 0, band k gives label (k + 1) mod 8, except its lower edge, which gives k mod 8 (truncation instead of floor) |
| `Direction.FullTurn` | utils.py:49 | for g >= -22.5, g and g + 360 get the same label |
| `Direction.FullTurnFailsBelowBound` | utils.py:49 | -30 gives "Norte" while 330 gives "Noroeste", so the bound in FullTurn is needed |
| `Names.NameLeReflexive` | utils.py:24 | Python's string `<=` (code-point lexicographic order) is reflexive |
| `Names.NameLeTotal` | utils.py:24 | any two names are comparable |
| `Names.NameLeAntisymmetric` | utils.py:24 | names ordered both ways are equal |
| `Names.NameLeTransitive` | utils.py:24 | the name order is transitive |
| `Registry.Lookup` | main.py:208-211 | returns None exactly when no item has the id; a found record is the record of an item with that id |
| `Registry.LookupFindsItem` | main.py:208-211 | for a dictionary (unique ids), the lookup yields b exactly when the item (id, b) is in the registry |
| `Sorting.SortByNamePermutes` | utils.py:24 | the sort returns a permutation of the items |
| `Sorting.SortByNameSorted` | utils.py:24 | the sort's result is in non-decreasing order of `nombre` |
| `Sorting.SortByNameStable` | utils.py:24 | items with equal `nombre` keep their registry order (stability) |
| `Sorting.StableSortUnique` | utils.py:24 | any sorted sequence that keeps each name's items in registry order equals the model's sort, so the model is what `sorted` returns |
| `Sorting.SortedDeterminedByNames` | utils.py:24 | two sorted sequences with the same items of every name, in the same order, are equal |
| `Selector.GroupMember` | utils.py:29-32 | an item is in the Brasil group iff its `pais` is "Brasil", and in the España group iff it is anything else |
| `Selector.GroupsPartition` | utils.py:26-32 | the two groups together hold every item exactly once (multiset equality) |
| `Selector.OptionTagDecodes` | utils.py:27 | the `<option value="{id}">{nombre}</option>` tag determines the id and the name when the id holds no `"` |
| `Selector.OptionTagUnescaped` | utils.py:27 | nothing is escaped: two different items whose id or name contains `">` can print the same tag |
| `Selector.BuildSelector` | utils.py:20-41 | the loop over the sorted items returns the template with, in the Brasil slot, the options of the Brasil items and, in the España slot, those of all others, each in sorted order |
| `Selector.GroupOfSorted` | utils.py:24-32 | the group of the sorted registry is the stable sort of that group |
| `Selector.SelectorGroups` | utils.py:24-32 | each optgroup shows exactly its country's items (non-Brasil under España), as a permutation, sorted by `nombre`, ties in registry order |
| `Selector.EmptyRegistry` | utils.py:34-41 | an empty registry still gives both optgroups, empty, Brasil first |
| `Ascii.Lower` | main.py:207 | lower-casing keeps the length, maps each ASCII upper-case letter to its lower-case form (code point + 32) and changes no other character |
| `Ascii.LowerCharSame` | main.py:207 | two characters lower-case alike iff they are equal or the two cases of one ASCII letter |
| `Ascii.LowerEqualIff` | main.py:207-208 | two ids lower-case to the same key iff they differ only in ASCII case |
| `Ascii.LowerIdempotent` | main.py:207 | lower-casing a lower-cased id changes nothing |
| `Query.ParseRenderParams` | main.py:216-218 | a `k=v&k=v` query with no `&` in keys or values and no `=` in keys reads back to its parameters |
| `Query.ParseBuildUrl` | main.py:214-227 | reading back `endpoint?query` gives the endpoint and the parameters, in order |
| `Upstream.UrlsAsWritten` | main.py:214-227 | the two URLs are exactly the handler's concatenations: endpoint, `latitude`, `longitude`, the fixed `current` list, `timezone=auto` |
| `Upstream.UrlsReadBack` | main.py:214-227 | read back, both URLs carry the same latitude and longitude, their provider's fixed field list and `timezone=auto` |
| `Forecast.Assemble` | main.py:233-260 | never a 404; TypeError iff a direction is a string; `playa`/`latitud`/`longitud` are the registry's `nombre`/`lat`/`long`; each `direccion_texto` is the mapper applied to the `direccion_grados` beside it; wave fields and `momento_lectura` come from the wave provider's `current`, wind fields from the wind provider's; a body without `current` gives nulls and "N/A" |
| `Forecast.GetSurfForecast` | main.py:205-260 | 404 "Playa no encontrada" with no request made iff the lower-cased id is not a key; otherwise exactly the marine URL then the wind URL are requested, both from the entry's coordinates, and their bodies are assembled |
| `Forecast.CaseInsensitive` | main.py:207-208 | ids that differ only in ASCII case get the same response |
| `Forecast.FoundItem` | main.py:207-245 | for a registry item, both requests read back to the item's coordinates, and a 200 result names the item's beach and coordinates |

## Left out

- Loading and saving the registry file (`cargar_playas`, `guardar_playa`, utils.py:8-17) is file I/O and JSON (de)serialisation. The registry is an input of the model.
- The page handler `read_root` is a static HTML/CSS/JS literal whose only logic is the call to `generar_selector_html`, which is modelled. The browser script static/script.js is not part of this model.
- `requests.get(...).json()` is the parameter `fetch`. Network failures, timeouts, non-JSON bodies, and a `current` that is null or not an object are not modelled. In the code these raise, and the framework answers 500.
- JSON booleans, arrays and objects as field values inside `current` are not modelled (`Forecast.Value` has null, number and string).
- The float-to-text formatting of coordinates in the f-strings is the parameter `show`. `Upstream.UrlsReadBack` assumes its output holds no `&`, which Python's float printing never produces.
- IEEE-754 rounding in the bearing arithmetic is not modelled: bearings are exact reals.
- Ascii.Lower: only ASCII letters are lower-cased. Python's `str.lower()` also lower-cases letters outside ASCII, so ids differing in the case of such letters are not identified by the model.
- The sort is defined as insertion sort rather than Python's Timsort. `Sorting.StableSortUnique` shows that any stable sort by `nombre` gives the same result.
- FastAPI routing and `HTTPException` become the `Forecast.Outcome` variants. `Uncaught` stands for the 500 response that follows an unhandled exception.
- The module-level global `PLAYAS` (main.py:9) is the parameter `playas`. Its initialisation at import time and any concurrent change to it are not modelled.
- Registration, deletion and protected ids do not appear in the handler code modelled here. `guardar_playa` is imported in main.py:3 but never called.
