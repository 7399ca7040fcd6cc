# OwnCalendar grid core in Dafny

OwnCalendar tracks progress on repeating tasks. A *project* owns an ordered list of
*grids*, and each grid is a matrix of boolean cells (for example seven days by four
weeks). The core modelled here is the grid normalisation and grid-mutation logic in
`backend/routes/projects.js`. It turns a client-supplied grid descriptor into a grid whose
cell list has exactly `rows * cols` cells. It is applied by the four routes that write
grids: create a project (`POST /`), replace a project's fields and grid list
(`PATCH /:id`), append a grid (`POST /:id/grids`) and patch the grid at a position
(`PATCH /:id/grids/:gridIndex`).

Modules:

- `Wrappers` (`wrappers.dfy`): `Option`, for request fields that may be absent.
- `Json` (`json.dfy`): JSON request values and JavaScript truthiness (`Boolean(v)`).
- `Text` (`text.dfy`): JavaScript `String.prototype.trim` and the decimal rendering of
  `${index + 1}`, with their properties.
- `GridNormalizer` (`grid_normalizer.dfy`): `buildCells`, `buildGrid`, the default label,
  and the canonical form every write path stores.
- `ProjectStore` (`project_store.dfy`): the pure part of each route, and a `Store` class.
  The class holds the database as a map from project id to project. Its methods load a
  project, change it (push a grid, or overwrite the grid at an index) and save it back.
  `Store.Valid()` is the invariant every method keeps: every stored grid is canonical.

How the request values are represented:

- A `rows` or `cols` field is `Option<int>`: the integer given, or `None` when absent or
  null. On such inputs, `Number(x) || default` (create and append) and
  `x ? Number(x) : current` (grid patch) agree. Both mean "None or 0 falls back".
- A label is `Option<string>`. A cell list is `Option<seq<Json.Value>>`, `None` when absent.
- The grid index of `PATCH /:id/grids/:gridIndex` is `Option<int>`, with `None` for NaN.
- The grid's `label` field is called `name` in the model, because `label` is a Dafny keyword.

Four behaviours of the code a reader might not expect, all of which the model follows:

- **Negative dimensions.** A negative `rows` or `cols` is kept, because `Number(-3) || 4`
  is `-3`. It is not replaced by the default. The cell count is then
  `Array.from`'s clamped length, `max(0, rows * cols)`. The canonical form therefore
  requires non-zero dimensions, not positive ones.
- **Short cell lists in a grid patch.** Cells supplied to a grid patch replace the stored
  cells. Past the end of the supplied list the cells are padded with false. They are not
  kept from the stored grid (`PatchReplacesCells`).
- **Bad grid index.** Only a NaN index is rejected as invalid. A negative index is
  grid-not-found.
- **Blank title in `PATCH /:id`.** A blank title is stored without complaint. Only
  `POST /` rejects a blank title.

## Model

| member | source | states |
|---|---|---|
| `Text.Trim` | backend/routes/projects.js:38 | the trimmed string has no whitespace at either end, and it is empty exactly when the input is blank (the title check of `POST /`) |
| `Text.TrimIsSlice` | backend/routes/projects.js:19 | trimming removes only whitespace, and only at the two ends: the result is a slice of the input |
| `Text.TrimIdempotent` | backend/routes/projects.js:19 | trimming an already trimmed label changes nothing |
| `Text.TrimOfTrimmed` | backend/routes/projects.js:145 | trimming a label that already has no whitespace at its ends, such as a stored one, returns it unchanged |
| `Text.DecimalString` | backend/routes/projects.js:19 | `${index + 1}` renders as a non-empty string of decimal digits with no leading zero |
| `Text.DecimalRoundTrip` | backend/routes/projects.js:19 | the decimal rendering of `index + 1` in a default label reads back as the same number |
| `Text.DecimalStringInjective` | backend/routes/projects.js:19 | different positions render to different numbers |
| `Json.Truthy` | backend/routes/projects.js:11 | `Boolean(cells[idx])`: a JSON value is falsy exactly when it is null, false, 0 or the empty string |
| `GridNormalizer.NumberOr` | backend/routes/projects.js:15-16 | `Number(x)` falling back to the default when falsy (and `x ? Number(x) : current` at lines 143-144): an absent or zero value gives the fallback, any other integer is kept, and the result is non-zero whenever the fallback is |
| `GridNormalizer.ArrayLength` | backend/routes/projects.js:11 | the length `Array.from` gives for `rows * cols`: the product when it is not negative, 0 otherwise |
| `GridNormalizer.BuildCells` | backend/routes/projects.js:9-12 | the result has exactly `rows * cols` cells (clamped at 0); cell `idx` is the truthiness of input `idx` when it exists and false past the input's end |
| `GridNormalizer.BuildCellsTruncatesOrPads` | backend/routes/projects.js:11 | resizing is truncate-or-pad: the first `rows * cols` inputs as booleans, then false cells when the input is short |
| `GridNormalizer.BuildCellsOfBools` | backend/routes/projects.js:9-12 | booleans already of the right length come back unchanged |
| `GridNormalizer.DefaultLabel` | backend/routes/projects.js:19 | the label `Cuadrilla N` is never empty and has no whitespace at its ends |
| `GridNormalizer.DefaultLabelInjective` | backend/routes/projects.js:19 | two positions never share a default label |
| `GridNormalizer.BuildGrid` | backend/routes/projects.js:14-24 | the grid is canonical; rows and cols default to 4 and 7 when absent or zero and are kept otherwise; a non-blank trimmed label is kept, otherwise the label is `Cuadrilla index+1`; the cells are the input resized to the shape |
| `GridNormalizer.DefaultGrid` | backend/routes/projects.js:6-24 | `buildGrid({}, i)` is a 4 by 7 grid of 28 false cells labelled `Cuadrilla i+1` |
| `GridNormalizer.CanonicalIsFixedPoint` | backend/routes/projects.js:14-24 | a canonical grid sent back as a descriptor normalises to itself at any position |
| `GridNormalizer.BuildGridIdempotent` | backend/routes/projects.js:14-24 | normalising the output of `buildGrid` again returns it unchanged |
| `ProjectStore.NormalizeGrids` | backend/routes/projects.js:44 | one canonical grid per descriptor, each normalised at its own position |
| `ProjectStore.InitialGrids` | backend/routes/projects.js:42-45 | the grid list a new project gets is never empty and all canonical |
| `ProjectStore.NewProject` | backend/routes/projects.js:35-52 | creation fails with Invalid exactly when the title is missing or blank; otherwise title and description are trimmed and the grids are `InitialGrids` of the input |
| `ProjectStore.CreateWithoutGrids` | backend/routes/projects.js:42-45 | with no grids or an empty grid list, the project gets exactly one grid: 4 by 7, all false, labelled `Cuadrilla 1` |
| `ProjectStore.CreateWithGrids` | backend/routes/projects.js:42-45 | with a non-empty grid list, the project gets one grid per descriptor, each normalised at its own position |
| `ProjectStore.PatchedGrid` | backend/routes/projects.js:141-152 | the patched grid stays canonical; zero or absent rows and cols keep the current ones; a missing label keeps the current label and a blank one becomes `Cuadrilla index+1`; the given cells, or else the current cells, are resized to the new shape |
| `ProjectStore.AppendAgreesWithReplace` | backend/routes/projects.js:108-114 | appending a grid at position N gives the same list as normalising the extended descriptor list |
| `ProjectStore.AppendedDefaultLabelIsNew` | backend/routes/projects.js:108-112 | a grid appended without a label at position N is labelled unlike the default label of every earlier position |
| `ProjectStore.ReplaceWithOwnGrids` | backend/routes/projects.js:78-80 | replacing a project's grid list with its own grids, as sent to the client, leaves it unchanged |
| `ProjectStore.PatchWithoutCellsKeepsMarks` | backend/routes/projects.js:151 | a resize-only patch keeps every current mark the new shape still has room for, and the added cells are false |
| `ProjectStore.PatchReplacesCells` | backend/routes/projects.js:151 | patching a 4 by 7 grid with the cells `[true]` gives cell 0 true and all 27 others false, whatever was stored: supplied cells replace the stored ones and are not merged with them |
| `ProjectStore.EmptyPatchIsNoOp` | backend/routes/projects.js:141-152 | an empty patch of a canonical grid changes nothing |
| `ProjectStore.PatchWithWholeGrid` | backend/routes/projects.js:141-152 | patching with a whole canonical grid, as the client does when it toggles a cell, stores exactly that grid |
| `ProjectStore.Store.Create` | backend/routes/projects.js:35-58 | a rejected create stores nothing; otherwise `NewProject(input)` is stored under an id that was not in use, and every other project is unchanged; the invariant is kept |
| `ProjectStore.Store.Find` | backend/routes/projects.js:60-70 | returns the stored project, or project-not-found when there is none |
| `ProjectStore.Store.Update` | backend/routes/projects.js:72-97 | project-not-found leaves the store unchanged; otherwise only that project changes: a given title or description is replaced by its trimmed value, and a given grid list replaces the whole list, normalised position by position; the invariant is kept |
| `ProjectStore.Store.AppendGrid` | backend/routes/projects.js:99-121 | with N grids stored, the project then has N + 1 grids: the first N unchanged and `buildGrid(d, N)` at position N; title, description and other projects are unchanged |
| `ProjectStore.Store.PatchGrid` | backend/routes/projects.js:123-160 | a NaN index is Invalid, then a missing project is project-not-found, then an index outside `[0, len)` is grid-not-found, and none of these changes the store; on success only position `index` changes, to `PatchedGrid` of the grid that was there; the invariant is kept |

## Left out

- `GET /` is left out. It lists the projects sorted by creation time, and timestamps are
  not modelled.
- The `createdAt` and `updatedAt` timestamps are left out.
- Mongoose schema behaviour is left out: its trimming, defaults, `required` validation and
  casting.
- Project ids are modelled as a counter (`Store.nextId`). MongoDB generates ObjectIds.
- The "invalid id" answer (400) is left out. It comes from a malformed id or a storage
  failure caught by the `try`/`catch`.
- HTTP status codes and JSON responses are left out. They are the `Error` and `Result`
  values.
- String, array, object and non-integer values of `rows`/`cols` are left out, so is a
  string index such as `"1.5"` or `"0x1"`. JavaScript's `Number(...)` coercion of those
  values is not modelled. For instance, `"0"` is truthy in the grid patch but `Number("0")`
  is 0.
- A non-string, non-null `label` in create or append is left out. The `label?.trim()` call
  throws a `TypeError` for it.
- A `null` cell list in create or append is left out. The default parameter does not apply
  to it, so `null[idx]` throws. In the grid patch, `null` falls back to the current cells
  through `??`, which is modelled.
- A `null` element of `grids` in `POST /` or `PATCH /:id` is left out, because each
  descriptor is a `GridInput`. `buildGrid(null, i)` reads `null.rows` and throws a
  `TypeError`. These calls, like the `title.trim()` check, run outside the `try`, so the
  throw is an unhandled rejection rather than an error answer.
- A `description` that is neither a string nor absent/null in `POST /` is left out.
  `description?.trim()` throws for it inside the `try`, and the request gets a 500.
- A boolean `rows` or `cols` is left out. `Number(true)` is 1 and `Number(false)` is 0, so
  `true` behaves as `Some(1)` and `false` as `Some(0)`, but the input type carries only
  integers.
- A cell list that is a string, number or object is left out. Only arrays and absence are
  modelled.
- A non-string truthy `title` in `POST /` is left out. `title.trim()` throws for it.
- Cell counts beyond the largest array length (`Array.from` then throws `RangeError`) are
  left out. Integers here are unbounded.
- Concurrent requests on the same project are left out. Each route is atomic here, so
  lost updates between concurrent patches are not modelled.
- The frontend pages are not part of this model, and neither are the process startup
  (`backend/index.js`), the Express wiring (`backend/app.js`) or the cached database
  connection (`backend/lib/db.js`).
