/** The vertex data of the ground mesh, src/components/Entities/GroundMeshGenerator.ts:
    every cell of a fixed grid that holds a 1 becomes a box of 15 triangles,
    whose corners are written out as flat coordinate triples; the index
    buffer numbers the triples 0, 1, 2, ... The arrays the source builds with
    `push` and `splice` are sequences here. A corner's placement (the six
    numbers `posX`, `posY`, `posZ`, `scaleX`, `scaleY`, `scaleZ`) is passed as
    two vectors. */
module GroundMesh {
  import opened Vectors

  /** `gridScale`: the width of a cell. */
  const GRID_SCALE: real := 2.0

  /** `grid`: 8 rows of 10 cells; a 1 is a wall block. */
  const GRID: seq<seq<int>> := [
    [1, 1, 1, 1, 1, 1, 1, 1, 1, 1],
    [1, 0, 0, 0, 0, 0, 0, 0, 0, 1],
    [1, 0, 1, 0, 0, 0, 0, 1, 0, 1],
    [1, 0, 0, 0, 0, 0, 0, 0, 0, 1],
    [1, 0, 0, 0, 0, 0, 0, 0, 0, 1],
    [1, 0, 1, 0, 0, 1, 1, 1, 0, 1],
    [1, 0, 0, 0, 0, 0, 0, 0, 0, 1],
    [1, 1, 1, 1, 1, 1, 1, 1, 1, 1]
  ]

  /** `cube.t`: the triangles of the unit box, as indices into `CUBE_V`. */
  const CUBE_T: seq<seq<int>> := [
    [4, 5, 6],
    [4, 6, 7],
    [0, 4, 7],
    [0, 7, 3],
    [0, 5, 4],
    [0, 1, 5],
    [0, 1, 5],
    [1, 6, 5],
    [1, 2, 6],
    [1, 2, 6],
    [2, 7, 6],
    [2, 3, 7],
    [2, 3, 7],
    [0, 3, 2],
    [0, 2, 1]
  ]

  /** `cube.v`: the corners of the unit box centred at the origin. */
  const CUBE_V: seq<Vec3> := [
    Vec3(-0.5, -0.5, -0.5),
    Vec3(0.5, -0.5, -0.5),
    Vec3(0.5, -0.5, 0.5),
    Vec3(-0.5, -0.5, 0.5),
    Vec3(-0.5, 0.5, -0.5),
    Vec3(0.5, 0.5, -0.5),
    Vec3(0.5, 0.5, 0.5),
    Vec3(-0.5, 0.5, 0.5)
  ]

  /** Every index of the face names a corner of the box. */
  predicate ValidFace(face: seq<int>) {
    forall k :: 0 <= k < |face| ==> 0 <= face[k] < |CUBE_V|
  }

  predicate ValidFaces(faces: seq<seq<int>>) {
    forall i :: 0 <= i < |faces| ==> ValidFace(faces[i])
  }

  /** Every triangle of the box has three corners, each in range, so every
      `cube.v` lookup the generator makes is defined. */
  lemma CubeFacesValid()
    ensures |CUBE_T| == 15
    ensures ValidFaces(CUBE_T)
    ensures forall i :: 0 <= i < |CUBE_T| ==> |CUBE_T[i]| == 3
  {
  }

  /** The three numbers `generateFace` pushes for one corner: scaled per
      axis, then moved. */
  function Corner(v: Vec3, pos: Vec3, scale: Vec3): seq<real> {
    [v.x * scale.x + pos.x, v.y * scale.y + pos.y, v.z * scale.z + pos.z]
  }

  /** What `generateFace` returns: the placed corners of the face, in order. */
  function FaceData(face: seq<int>, pos: Vec3, scale: Vec3): seq<real>
    requires ValidFace(face)
    decreases |face|
  {
    if face == [] then []
    else FaceData(face[..|face| - 1], pos, scale) + Corner(CUBE_V[face[|face| - 1]], pos, scale)
  }

  /** Triple k of a face's data is the k-th corner of the face, placed. */
  lemma {:induction false} FaceDataAt(face: seq<int>, pos: Vec3, scale: Vec3)
    requires ValidFace(face)
    ensures |FaceData(face, pos, scale)| == 3 * |face|
    ensures forall k :: 0 <= k < |face| ==>
      FaceData(face, pos, scale)[3 * k..3 * k + 3] == Corner(CUBE_V[face[k]], pos, scale)
    decreases |face|
  {
    if face != [] {
      var p := face[..|face| - 1];
      FaceDataAt(p, pos, scale);
      var d := FaceData(face, pos, scale);
      assert d == FaceData(p, pos, scale) + Corner(CUBE_V[face[|face| - 1]], pos, scale);
      forall k | 0 <= k < |face|
        ensures d[3 * k..3 * k + 3] == Corner(CUBE_V[face[k]], pos, scale)
      {
        if k < |p| {
          assert d[3 * k..3 * k + 3] == FaceData(p, pos, scale)[3 * k..3 * k + 3];
          assert face[k] == p[k];
        }
      }
    }
  }

  /** `generateFace`: one triple per index of the face. */
  method GenerateFace(face: seq<int>, pos: Vec3, scale: Vec3) returns (data: seq<real>)
    requires ValidFace(face)
    ensures data == FaceData(face, pos, scale)
  {
    data := [];
    for k := 0 to |face|
      invariant ValidFace(face[..k])
      invariant data == FaceData(face[..k], pos, scale)
    {
      assert face[..k + 1][..k] == face[..k];
      var v := CUBE_V[face[k]];
      assert FaceData(face[..k + 1], pos, scale) == FaceData(face[..k], pos, scale) + Corner(v, pos, scale);
      data := data + Corner(v, pos, scale);
    }
    assert face[..|face|] == face;
  }

  /** The data of several faces, one after the other. */
  function FacesData(faces: seq<seq<int>>, pos: Vec3, scale: Vec3): seq<real>
    requires ValidFaces(faces)
    decreases |faces|
  {
    if faces == [] then []
    else FacesData(faces[..|faces| - 1], pos, scale) + FaceData(faces[|faces| - 1], pos, scale)
  }

  /** Triangles of three corners give nine numbers each. */
  lemma {:induction false} FacesDataLength(faces: seq<seq<int>>, pos: Vec3, scale: Vec3)
    requires ValidFaces(faces)
    requires forall i :: 0 <= i < |faces| ==> |faces[i]| == 3
    ensures |FacesData(faces, pos, scale)| == 9 * |faces|
    decreases |faces|
  {
    if faces != [] {
      FacesDataLength(faces[..|faces| - 1], pos, scale);
      FaceDataAt(faces[|faces| - 1], pos, scale);
    }
  }

  /** What `generateCube` returns: the faces of `CUBE_T` in order. */
  function CubeData(pos: Vec3, scale: Vec3): (r: seq<real>)
    ensures |r| == 135
  {
    CubeFacesValid();
    FacesDataLength(CUBE_T, pos, scale);
    FacesData(CUBE_T, pos, scale)
  }

  /** `generateCube`: each face's data spliced in at the end, which is an
      append. */
  method GenerateCube(pos: Vec3 := Vec3(0.0, 0.0, 0.0), scale: Vec3 := Vec3(1.0, 1.0, 1.0))
    returns (data: seq<real>)
    ensures data == CubeData(pos, scale)
  {
    CubeFacesValid();
    data := [];
    for i := 0 to |CUBE_T|
      invariant ValidFaces(CUBE_T[..i])
      invariant data == FacesData(CUBE_T[..i], pos, scale)
    {
      assert CUBE_T[..i + 1][..i] == CUBE_T[..i];
      var faceData := GenerateFace(CUBE_T[i], pos, scale);
      data := data + faceData;
    }
    assert CUBE_T[..|CUBE_T|] == CUBE_T;
  }

  /** Where the box of cell (i, j) goes, and how it is stretched. */
  function CellPos(posX: real, posZ: real, i: int, j: int): Vec3 {
    Vec3(posX + (i as real) * GRID_SCALE, 0.0, posZ + (j as real) * GRID_SCALE)
  }

  function CellScale(): Vec3 {
    Vec3(GRID_SCALE, 1.0, GRID_SCALE)
  }

  /** The boxes of the first n cells of row i: one per cell holding 1. */
  function CellsData(row: seq<int>, n: nat, i: int, posX: real, posZ: real): seq<real>
    requires n <= |row|
  {
    if n == 0 then []
    else
      CellsData(row, n - 1, i, posX, posZ) +
        (if row[n - 1] == 1 then CubeData(CellPos(posX, posZ, i, n - 1), CellScale()) else [])
  }

  /** The boxes of the first m rows, row by row. */
  function RowsData(rows: seq<seq<int>>, m: nat, posX: real, posZ: real): seq<real>
    requires m <= |rows|
  {
    if m == 0 then []
    else RowsData(rows, m - 1, posX, posZ) + CellsData(rows[m - 1], |rows[m - 1]|, m - 1, posX, posZ)
  }

  /** What `generateGrid` returns. */
  function GridData(posX: real, posZ: real): seq<real> {
    RowsData(GRID, |GRID|, posX, posZ)
  }

  /** The number of 1s among the first n cells of a row. */
  function RowOnes(row: seq<int>, n: nat): nat
    requires n <= |row|
  {
    if n == 0 then 0 else RowOnes(row, n - 1) + (if row[n - 1] == 1 then 1 else 0)
  }

  /** The number of 1s in the first m rows. */
  function GridOnes(rows: seq<seq<int>>, m: nat): nat
    requires m <= |rows|
  {
    if m == 0 then 0 else GridOnes(rows, m - 1) + RowOnes(rows[m - 1], |rows[m - 1]|)
  }

  /** 135 numbers per block, nothing for an empty cell. */
  lemma {:induction false} CellsDataLength(row: seq<int>, n: nat, i: int, posX: real, posZ: real)
    requires n <= |row|
    ensures |CellsData(row, n, i, posX, posZ)| == 135 * RowOnes(row, n)
  {
    if n != 0 {
      CellsDataLength(row, n - 1, i, posX, posZ);
    }
  }

  lemma {:induction false} RowsDataLength(rows: seq<seq<int>>, m: nat, posX: real, posZ: real)
    requires m <= |rows|
    ensures |RowsData(rows, m, posX, posZ)| == 135 * GridOnes(rows, m)
  {
    if m != 0 {
      RowsDataLength(rows, m - 1, posX, posZ);
      CellsDataLength(rows[m - 1], |rows[m - 1]|, m - 1, posX, posZ);
    }
  }

  /** The fixed grid has 38 blocks: the border and six inner blocks, so the
      grid's data is 135 * 38 = 5130 numbers. */
  lemma GridSize(posX: real, posZ: real)
    ensures GridOnes(GRID, |GRID|) == 38
    ensures |GridData(posX, posZ)| == 5130
  {
    GridRowOnes();
    RowsDataLength(GRID, |GRID|, posX, posZ);
  }

  /** The blocks of each row of the fixed grid. */
  lemma GridRowOnes()
    ensures |GRID| == 8
    ensures RowOnes(GRID[0], |GRID[0]|) == 10 && RowOnes(GRID[1], |GRID[1]|) == 2
    ensures RowOnes(GRID[2], |GRID[2]|) == 4 && RowOnes(GRID[3], |GRID[3]|) == 2
    ensures RowOnes(GRID[4], |GRID[4]|) == 2 && RowOnes(GRID[5], |GRID[5]|) == 6
    ensures RowOnes(GRID[6], |GRID[6]|) == 2 && RowOnes(GRID[7], |GRID[7]|) == 10
  {
  }

  /** `generateGrid`: row-major over `grid`, one box per cell holding 1,
      at (posX + 2i, 0, posZ + 2j) with scale (2, 1, 2). */
  method GenerateGrid(posX: real, posZ: real) returns (data: seq<real>)
    ensures data == GridData(posX, posZ)
  {
    data := GenerateRows(GRID, posX, posZ);
  }

  /** The two loops of `generateGrid`, over any grid. */
  method GenerateRows(rows: seq<seq<int>>, posX: real, posZ: real) returns (data: seq<real>)
    ensures data == RowsData(rows, |rows|, posX, posZ)
  {
    data := [];
    for i := 0 to |rows|
      invariant data == RowsData(rows, i, posX, posZ)
    {
      var row := rows[i];
      ghost var before := data;
      for j := 0 to |row|
        invariant data == before + CellsData(row, j, i, posX, posZ)
      {
        ghost var cells := CellsData(row, j, i, posX, posZ);
        if row[j] == 1 {
          var cube := GenerateCube(CellPos(posX, posZ, i, j), CellScale());
          data := data + cube;
          assert CellsData(row, j + 1, i, posX, posZ) == cells + cube;
          assert (before + cells) + cube == before + (cells + cube);
        } else {
          assert CellsData(row, j + 1, i, posX, posZ) == cells + [];
          assert cells + [] == cells;
        }
      }
      assert RowsData(rows, i + 1, posX, posZ) == before + CellsData(row, |row|, i, posX, posZ);
    }
  }

  /** The entries of `s` at the positions divisible by 3, in order: the
      `filter((value, index) => index % 3 === 0)` of `generateVertexData`. */
  function EveryThird<T>(s: seq<T>): seq<T>
    decreases |s|
  {
    if s == [] then []
    else EveryThird(s[..|s| - 1]) + (if (|s| - 1) % 3 == 0 then [s[|s| - 1]] else [])
  }

  /** The filter keeps ceil(|s| / 3) entries, entry k being s[3k]. */
  lemma {:induction false} EveryThirdAt<T>(s: seq<T>)
    ensures |EveryThird(s)| == (|s| + 2) / 3
    ensures forall k :: 0 <= k < |EveryThird(s)| ==> 3 * k < |s| && EveryThird(s)[k] == s[3 * k]
    decreases |s|
  {
    if s != [] {
      var p := s[..|s| - 1];
      EveryThirdAt(p);
      forall k | 0 <= k < |EveryThird(p)|
        ensures EveryThird(s)[k] == s[3 * k]
      {
        assert EveryThird(s)[k] == EveryThird(p)[k];
        assert p[3 * k] == s[3 * k];
      }
    }
  }

  /** `map((value, index) => index)`: each entry replaced by its position. */
  function Positions<T>(s: seq<T>): (r: seq<int>)
    ensures |r| == |s|
    ensures forall k :: 0 <= k < |r| ==> r[k] == k
  {
    seq(|s|, k => k)
  }

  /** `VertexData` with the two arrays the generator fills. */
  datatype VertexData = VertexData(positions: seq<real>, indices: seq<int>)

  /** `generateVertexData`: the grid placed at (-8, -8), and one index per
      coordinate triple. */
  method GenerateVertexData() returns (data: VertexData)
    ensures data.positions == GridData(-8.0, -8.0)
    ensures |data.positions| == 5130 && |data.indices| == 1710
    ensures 3 * |data.indices| == |data.positions|
    ensures forall k :: 0 <= k < |data.indices| ==> data.indices[k] == k
  {
    var positions: seq<real> := [];
    var grid := GenerateGrid(-8.0, -8.0);
    positions := positions + grid;
    GridSize(-8.0, -8.0);
    EveryThirdAt(positions);
    var indices := Positions(EveryThird(positions));
    data := VertexData(positions, indices);
  }
}
