/** The project routes of backend/routes/projects.js: creating a project, replacing its
    fields and grid list, appending a grid and patching the grid at a position. The
    database is a map from project id to project, owned by a `Store` object whose methods
    load a project, change it and save it back. */
module ProjectStore {
  import opened Wrappers
  import Json
  import Text
  import opened GridNormalizer

  /** The id the database assigns to a project. */
  type ProjectId = nat

  /** A stored project and its ordered grid list; a grid's position is its address. */
  datatype Project = Project(title: string, description: string, grids: seq<Grid>)

  /** The failures the routes report: a rejected request (400), a missing project (404)
      and a grid position outside the list (404). */
  datatype Error = Invalid | ProjectNotFound | GridNotFound

  datatype Result<T> = Ok(value: T) | Err(error: Error)

  /** The body of `POST /` and of `PATCH /:id`. Each field is None when absent; for the
      patch a title or description that is not a string, and grids that are not an array,
      are absent too. */
  datatype ProjectInput = ProjectInput(
    title: Option<string>,
    description: Option<string>,
    grids: Option<seq<GridInput>>)

  predicate AllCanonical(gs: seq<Grid>) {
    forall i :: 0 <= i < |gs| ==> IsCanonical(gs[i])
  }

  /** `grids.map((grid, index) => buildGrid(grid, index))`: one canonical grid per
      descriptor, each normalised at its own position in the list. */
  function NormalizeGrids(ds: seq<GridInput>): (gs: seq<Grid>)
    ensures |gs| == |ds| && AllCanonical(gs)
    ensures forall i :: 0 <= i < |ds| ==> gs[i] == BuildGrid(ds[i], i)
  {
    seq(|ds|, i requires 0 <= i < |ds| => BuildGrid(ds[i], i))
  }

  /** The grid list `POST /` stores: the given descriptors normalised at their positions
      when there is at least one, and otherwise the single default grid of position 0;
      never empty, and every grid canonical. */
  function InitialGrids(grids: Option<seq<GridInput>>): (gs: seq<Grid>)
    ensures |gs| >= 1 && AllCanonical(gs)
  {
    if grids.Some? && |grids.value| > 0 then NormalizeGrids(grids.value)
    else [BuildGrid(EmptyInput, 0)]
  }

  /** The project `POST /` stores: rejected exactly when the title is missing or blank;
      otherwise the title and description are trimmed and the grid list is
      `InitialGrids` of the given grids. */
  function NewProject(input: ProjectInput): (r: Result<Project>)
    ensures r.Err? <==> input.title.None? || Text.Trim(input.title.value) == []
    ensures r.Err? ==> r.error == Invalid
    ensures r.Ok? ==> r.value.title == Text.Trim(input.title.value) && r.value.title != []
    ensures r.Ok? ==> r.value.description == Text.Trim(input.description.GetOr(""))
    ensures r.Ok? ==> r.value.grids == InitialGrids(input.grids)
  {
    if input.title.None? || Text.Trim(input.title.value) == [] then
      Err(Invalid)
    else
      Ok(Project(
        Text.Trim(input.title.value),
        Text.Trim(input.description.GetOr("")),
        InitialGrids(input.grids)))
  }

  /** The grid `PATCH /:id/grids/:gridIndex` stores at position `index` in place of
      `current`: a zero or absent rows or cols keeps the current one; a label that is not
      given keeps the current label, and an empty label becomes the default label of
      `index`; the cells given (or else the current cells) are resized to the new shape. */
  function PatchedGrid(current: Grid, d: GridInput, index: nat): (g: Grid)
    ensures IsCanonical(current) ==> IsCanonical(g)
    ensures d.rows.None? || d.rows == Some(0) ==> g.rows == current.rows
    ensures d.rows.Some? && d.rows.value != 0 ==> g.rows == d.rows.value
    ensures d.cols.None? || d.cols == Some(0) ==> g.cols == current.cols
    ensures d.cols.Some? && d.cols.value != 0 ==> g.cols == d.cols.value
    ensures d.name.None? && current.name != [] ==> g.name == current.name
    ensures d.name.Some? && Text.Trim(d.name.value) != [] ==> g.name == Text.Trim(d.name.value)
    ensures d.name.Some? && Text.Trim(d.name.value) == [] ==> g.name == DefaultLabel(index)
    ensures d.cells.Some? ==> g.cells == BuildCells(d.cells.value, g.rows, g.cols)
    ensures d.cells.None? ==> g.cells == BuildCells(Json.FromBools(current.cells), g.rows, g.cols)
  {
    var nextRows := NumberOr(d.rows, current.rows);
    var nextCols := NumberOr(d.cols, current.cols);
    var nextLabel := if d.name.Some? then Text.Trim(d.name.value) else current.name;
    Grid(
      if nextLabel != "" then nextLabel else DefaultLabel(index),
      nextRows,
      nextCols,
      BuildCells(d.cells.GetOr(Json.FromBools(current.cells)), nextRows, nextCols))
  }

  /** Appending a descriptor to a list and normalising the whole list gives the grids of
      the shorter list followed by the new descriptor normalised at position `|ds|`:
      `POST /:id/grids` agrees with a full replacement of the grid list. */
  lemma AppendAgreesWithReplace(ds: seq<GridInput>, d: GridInput)
    ensures NormalizeGrids(ds + [d]) == NormalizeGrids(ds) + [BuildGrid(d, |ds|)]
  {
  }

  /** A grid appended without a label at position N is labelled unlike the default label
      of every earlier position: positions determine default labels one to one. */
  lemma AppendedDefaultLabelIsNew(d: GridInput, n: nat, k: nat)
    requires d.name.None? && k < n
    ensures BuildGrid(d, n).name != DefaultLabel(k)
  {
    DefaultLabelInjective(n, k);
  }

  /** Sending back the grids of a project, each as its JSON serialisation, through a full
      replacement of the grid list leaves them unchanged. */
  lemma ReplaceWithOwnGrids(gs: seq<Grid>)
    requires AllCanonical(gs)
    ensures NormalizeGrids(seq(|gs|, i requires 0 <= i < |gs| => AsInput(gs[i]))) == gs
  {
    var ds := seq(|gs|, i requires 0 <= i < |gs| => AsInput(gs[i]));
    forall i | 0 <= i < |gs|
      ensures NormalizeGrids(ds)[i] == gs[i]
    {
      CanonicalIsFixedPoint(gs[i], i);
    }
  }

  /** `POST /` without grids, or with an empty grid list, stores exactly one grid: the
      4 by 7 all-false grid labelled "Cuadrilla 1". */
  lemma CreateWithoutGrids(grids: Option<seq<GridInput>>)
    requires grids.None? || grids.value == []
    ensures InitialGrids(grids) == [Grid("Cuadrilla 1", 4, 7, Falses(28))]
  {
    DefaultGrid(0);
    assert Text.DecimalString(1) == "1";
    assert DefaultLabel(0) == "Cuadrilla 1";
  }

  /** `POST /` with a non-empty grid list stores one grid per descriptor, each normalised at
      its own position. */
  lemma CreateWithGrids(ds: seq<GridInput>)
    requires ds != []
    ensures |InitialGrids(Some(ds))| == |ds|
    ensures forall i :: 0 <= i < |ds| ==> InitialGrids(Some(ds))[i] == BuildGrid(ds[i], i)
  {
  }

  /** A patch that gives no cells keeps the current marks wherever the new shape still has
      a cell for them, and the cells the new shape adds are false. */
  lemma PatchWithoutCellsKeepsMarks(current: Grid, d: GridInput, index: nat)
    requires d.cells.None?
    ensures var g := PatchedGrid(current, d, index);
      forall k :: 0 <= k < |g.cells| ==> g.cells[k] == (k < |current.cells| && current.cells[k])
  {
  }

  /** Given cells replace the current ones rather than being merged with them: patching a
      4 by 7 grid with the single cell `true` leaves cell 0 marked and every other cell
      false, whatever the current grid held. */
  lemma PatchReplacesCells(current: Grid, index: nat)
    requires current.rows == 4 && current.cols == 7
    ensures PatchedGrid(current, GridInput(None, None, None, Some([Json.Bool(true)])), index).cells
      == [true] + Falses(27)
  {
  }

  /** An empty patch of a canonical grid changes nothing. */
  lemma EmptyPatchIsNoOp(current: Grid, index: nat)
    requires IsCanonical(current)
    ensures PatchedGrid(current, EmptyInput, index) == current
  {
  }

  /** Patching with a whole canonical grid, as the client does when it toggles a cell,
      stores exactly the grid sent, whatever was there before. */
  lemma PatchWithWholeGrid(current: Grid, g: Grid, index: nat)
    requires IsCanonical(g)
    ensures PatchedGrid(current, AsInput(g), index) == g
  {
  }

  /** The database: every stored project has an id below `nextId`, the next id to hand
      out, and every stored grid is canonical. */
  class Store {
    var projects: map<ProjectId, Project>
    var nextId: ProjectId

    ghost predicate Valid()
      reads this
    {
      && (forall id :: id in projects ==> id < nextId)
      && (forall id :: id in projects ==> AllCanonical(projects[id].grids))
    }

    /** An empty database. */
    constructor ()
      ensures Valid() && projects == map[] && nextId == 0
    {
      projects := map[];
      nextId := 0;
    }

    /** `POST /`: stores `NewProject(input)` under a fresh id, or rejects the request and
        stores nothing. */
    method Create(input: ProjectInput) returns (r: Result<ProjectId>)
      requires Valid()
      modifies this
      ensures Valid()
      ensures NewProject(input).Err? ==> r == Err(Invalid) && projects == old(projects)
      ensures NewProject(input).Ok? ==>
        && r.Ok?
        && r.value !in old(projects)
        && projects == old(projects)[r.value := NewProject(input).value]
    {
      var created := NewProject(input);
      if created.Err? {
        return Err(created.error);
      }
      var id := nextId;
      projects := projects[id := created.value];
      nextId := nextId + 1;
      r := Ok(id);
    }

    /** `GET /:id`: the stored project, or project-not-found. */
    method Find(id: ProjectId) returns (r: Result<Project>)
      ensures id in projects ==> r == Ok(projects[id])
      ensures id !in projects ==> r == Err(ProjectNotFound)
    {
      if id in projects {
        r := Ok(projects[id]);
      } else {
        r := Err(ProjectNotFound);
      }
    }

    /** `PATCH /:id`: replaces the fields the body gives (title and description trimmed;
        a grid list replaces the whole list, each grid normalised at its new position) and
        keeps the others; project-not-found when no project has `id`. */
    method Update(id: ProjectId, input: ProjectInput) returns (r: Result<Project>)
      requires Valid()
      modifies this
      ensures Valid() && nextId == old(nextId)
      ensures id !in old(projects) ==> r == Err(ProjectNotFound) && projects == old(projects)
      ensures id in old(projects) ==> r.Ok? && projects == old(projects)[id := r.value]
      ensures id in old(projects) ==>
        var before := old(projects)[id];
        && r.value.title == (if input.title.Some? then Text.Trim(input.title.value) else before.title)
        && r.value.description ==
             (if input.description.Some? then Text.Trim(input.description.value) else before.description)
        && r.value.grids == (if input.grids.Some? then NormalizeGrids(input.grids.value) else before.grids)
    {
      // The update document, built field by field.
      var title: Option<string> := None;
      var description: Option<string> := None;
      var grids: Option<seq<Grid>> := None;
      if input.title.Some? {
        title := Some(Text.Trim(input.title.value));
      }
      if input.description.Some? {
        description := Some(Text.Trim(input.description.value));
      }
      if input.grids.Some? {
        grids := Some(NormalizeGrids(input.grids.value));
      }

      if id !in projects {
        return Err(ProjectNotFound);
      }
      var project := projects[id];
      project := Project(
        title.GetOr(project.title),
        description.GetOr(project.description),
        grids.GetOr(project.grids));
      projects := projects[id := project];
      r := Ok(project);
    }

    /** `POST /:id/grids`: with N grids stored, the project afterwards has N + 1: the first
        N unchanged and `buildGrid(d, N)` at position N. */
    method AppendGrid(id: ProjectId, d: GridInput) returns (r: Result<Project>)
      requires Valid()
      modifies this
      ensures Valid() && nextId == old(nextId)
      ensures id !in old(projects) ==> r == Err(ProjectNotFound) && projects == old(projects)
      ensures id in old(projects) ==> r.Ok? && projects == old(projects)[id := r.value]
      ensures id in old(projects) ==>
        var before := old(projects)[id];
        && r.value.title == before.title
        && r.value.description == before.description
        && |r.value.grids| == |before.grids| + 1
        && r.value.grids[..|before.grids|] == before.grids
        && r.value.grids[|before.grids|] == BuildGrid(d, |before.grids|)
    {
      if id !in projects {
        return Err(ProjectNotFound);
      }
      var project := projects[id];
      var gridIndex := |project.grids|;
      var newGrid := BuildGrid(d, gridIndex);
      project := project.(grids := project.grids + [newGrid]);
      projects := projects[id := project];
      r := Ok(project);
    }

    /** `PATCH /:id/grids/:gridIndex`: a NaN position is rejected before the project is
        looked up; a position outside the grid list is grid-not-found; otherwise only the
        grid at `index` changes, to `PatchedGrid` of the grid that was there. */
    method PatchGrid(id: ProjectId, index: Option<int>, d: GridInput) returns (r: Result<Project>)
      requires Valid()
      modifies this
      ensures Valid() && nextId == old(nextId)
      ensures index.None? ==> r == Err(Invalid) && projects == old(projects)
      ensures index.Some? && id !in old(projects) ==>
        r == Err(ProjectNotFound) && projects == old(projects)
      ensures index.Some? && id in old(projects)
              && !(0 <= index.value < |old(projects)[id].grids|) ==>
        r == Err(GridNotFound) && projects == old(projects)
      ensures index.Some? && id in old(projects)
              && 0 <= index.value < |old(projects)[id].grids| ==>
        var before := old(projects)[id];
        var i := index.value;
        && r.Ok?
        && projects == old(projects)[id := r.value]
        && r.value.title == before.title
        && r.value.description == before.description
        && |r.value.grids| == |before.grids|
        && r.value.grids[i] == PatchedGrid(before.grids[i], d, i)
        && forall k :: 0 <= k < |before.grids| && k != i ==> r.value.grids[k] == before.grids[k]
    {
      if index.None? {
        return Err(Invalid);
      }
      if id !in projects {
        return Err(ProjectNotFound);
      }
      var project := projects[id];
      var i := index.value;
      if i < 0 || i >= |project.grids| {
        return Err(GridNotFound);
      }
      var currentGrid := project.grids[i];
      project := project.(grids := project.grids[i := PatchedGrid(currentGrid, d, i)]);
      projects := projects[id := project];
      r := Ok(project);
    }
  }
}
