/** The constant geometry of the mesher: one unit-square template per cube
    side, the rotation-to-face table, and the pure face lookups built on them. */
module ChunkFaces {

  import opened Blocks
  import TerrainGrid

  datatype Vec3 = Vec3(x: int, y: int, z: int)

  function Add(a: Vec3, b: Vec3): Vec3
  {
    Vec3(a.x + b.x, a.y + b.y, a.z + b.z)
  }

  /** The plane of the unit cube [0,1]^3 that carries side `s`. */
  predicate OnSidePlane(s: BlockFace, v: Vec3)
  {
    match s
    case LEFT => v.x == 0
    case RIGHT => v.x == 1
    case TOP => v.y == 1
    case BOTTOM => v.y == 0
    case BACK => v.z == 0
    case FRONT => v.z == 1
  }

  predicate IsUnitCorner(v: Vec3)
  {
    0 <= v.x <= 1 && 0 <= v.y <= 1 && 0 <= v.z <= 1
  }

  /** The four corner vertices of side `s`: distinct corners of the unit cube,
      all on that side's plane. */
  function SideVertices(s: BlockFace): (vs: seq<Vec3>)
    ensures |vs| == 4
    ensures forall i :: 0 <= i < 4 ==> IsUnitCorner(vs[i]) && OnSidePlane(s, vs[i])
    ensures forall i, j :: 0 <= i < j < 4 ==> vs[i] != vs[j]
  {
    match s
    case LEFT => [Vec3(0, 0, 1), Vec3(0, 0, 0), Vec3(0, 1, 0), Vec3(0, 1, 1)]
    case RIGHT => [Vec3(1, 0, 0), Vec3(1, 0, 1), Vec3(1, 1, 1), Vec3(1, 1, 0)]
    case TOP => [Vec3(0, 1, 0), Vec3(1, 1, 0), Vec3(1, 1, 1), Vec3(0, 1, 1)]
    case BOTTOM => [Vec3(0, 0, 0), Vec3(1, 0, 0), Vec3(1, 0, 1), Vec3(0, 0, 1)]
    case BACK => [Vec3(0, 0, 0), Vec3(1, 0, 0), Vec3(1, 1, 0), Vec3(0, 1, 0)]
    case FRONT => [Vec3(1, 0, 1), Vec3(0, 0, 1), Vec3(0, 1, 1), Vec3(1, 1, 1)]
  }

  /** The two triangles of side `s`, as offsets into its four vertices; together
      they use every corner. */
  function SideIndices(s: BlockFace): (ix: seq<int>)
    ensures |ix| == 6
    ensures forall i :: 0 <= i < 6 ==> 0 <= ix[i] < 4
    ensures forall c :: 0 <= c < 4 ==> c in ix
  {
    match s
    case LEFT | RIGHT | TOP => [1, 0, 2, 0, 3, 2]
    case BOTTOM => [1, 2, 0, 2, 3, 0]
    case BACK | FRONT => [2, 1, 0, 0, 3, 2]
  }

  /** The position of a side in a rotation-table row: LEFT, RIGHT, TOP,
      BOTTOM, BACK, FRONT (not the enum order, which puts FRONT before BACK). */
  function Slot(f: BlockFace): (n: nat)
    ensures n < 6
  {
    match f
    case LEFT => 0
    case RIGHT => 1
    case TOP => 2
    case BOTTOM => 3
    case BACK => 4
    case FRONT => 5
  }

  /** Rows for facing front, right, back and left. Entry i of row r is the face
      whose texture is shown on the side in slot i. */
  const RotationMappings: seq<seq<BlockFace>> := [
    [LEFT, RIGHT, TOP, BOTTOM, BACK, FRONT],
    [FRONT, BACK, TOP, BOTTOM, LEFT, RIGHT],
    [RIGHT, LEFT, TOP, BOTTOM, FRONT, BACK],
    [BACK, FRONT, TOP, BOTTOM, RIGHT, LEFT]
  ]

  function Row(r: TerrainGrid.Rotation): (row: seq<BlockFace>)
    ensures |row| == 6
  {
    RotationMappings[r]
  }

  /** Row 0 is the identity. */
  lemma RowZeroIsIdentity(f: BlockFace)
    ensures Row(0)[Slot(f)] == f
  {
  }

  /** Every row is a permutation of the six faces that keeps TOP and BOTTOM
      in their slots. */
  lemma RowIsPermutation(r: TerrainGrid.Rotation)
    ensures Row(r)[2] == TOP && Row(r)[3] == BOTTOM
    ensures forall i, j :: 0 <= i < j < 6 ==> Row(r)[i] != Row(r)[j]
    ensures forall f: BlockFace :: f in Row(r)
  {
    forall f: BlockFace ensures f in Row(r) {
      var row := Row(r);
      match f
      case LEFT => assert row[0] == LEFT || row[1] == LEFT || row[4] == LEFT || row[5] == LEFT;
      case RIGHT => assert row[0] == RIGHT || row[1] == RIGHT || row[4] == RIGHT || row[5] == RIGHT;
      case TOP => assert row[2] == TOP;
      case BOTTOM => assert row[3] == BOTTOM;
      case BACK => assert row[0] == BACK || row[1] == BACK || row[4] == BACK || row[5] == BACK;
      case FRONT => assert row[0] == FRONT || row[1] == FRONT || row[4] == FRONT || row[5] == FRONT;
    }
  }

  /** Applying row 1 to the faces of a row. */
  function Turn(row: seq<BlockFace>): (t: seq<BlockFace>)
    requires |row| == 6
    ensures |t| == 6
    ensures forall i :: 0 <= i < 6 ==> t[i] == Row(1)[Slot(row[i])]
  {
    var one := Row(1);
    [one[Slot(row[0])], one[Slot(row[1])], one[Slot(row[2])],
     one[Slot(row[3])], one[Slot(row[4])], one[Slot(row[5])]]
  }

  /** Row r is row 1 applied r times, and four turns come back to row 0. */
  lemma RowsAreTurns()
    ensures Row(1) == Turn(Row(0))
    ensures Row(2) == Turn(Row(1))
    ensures Row(3) == Turn(Row(2))
    ensures Row(0) == Turn(Row(3))
  {
  }

  /** `TransformFacing`: TOP and BOTTOM stay; LEFT, RIGHT, BACK and FRONT are
      read from slots 0, 1, 4 and 5 of the cell's rotation row. */
  function TransformFacing(facing: BlockFace, rotation: TerrainGrid.Rotation): (g: BlockFace)
    ensures facing == TOP || facing == BOTTOM ==> g == facing
    ensures g == Row(rotation)[Slot(facing)]
  {
    var faceMapping := Row(rotation);
    match facing
    case LEFT => faceMapping[0]
    case RIGHT => faceMapping[1]
    case BACK => faceMapping[4]
    case FRONT => faceMapping[5]
    case _ => facing
  }

  /** For a fixed rotation, distinct faces map to distinct faces. */
  lemma TransformFacingInjective(f: BlockFace, g: BlockFace, r: TerrainGrid.Rotation)
    requires f != g
    ensures TransformFacing(f, r) != TransformFacing(g, r)
  {
    RowIsPermutation(r);
  }

  /** The face `GetBlockHitInfo` reports for the floored position just outside
      the hit (`towards`) and just inside it (`hit`): the first axis, in the
      order x, y, z, on which they differ decides; equal positions give the
      enum default, LEFT. */
  function HitFace(towards: Vec3, hit: Vec3): (f: BlockFace)
    ensures towards == hit ==> f == DefaultFace
  {
    if towards.x > hit.x then RIGHT
    else if towards.x < hit.x then LEFT
    else if towards.y > hit.y then TOP
    else if towards.y < hit.y then BOTTOM
    else if towards.z > hit.z then FRONT
    else if towards.z < hit.z then BACK
    else DefaultFace
  }

  /** The outward unit normal of each side. */
  function Normal(f: BlockFace): Vec3
  {
    match f
    case LEFT => Vec3(-1, 0, 0)
    case RIGHT => Vec3(1, 0, 0)
    case TOP => Vec3(0, 1, 0)
    case BOTTOM => Vec3(0, -1, 0)
    case FRONT => Vec3(0, 0, 1)
    case BACK => Vec3(0, 0, -1)
  }

  /** A hit through side f, whose outside neighbour lies one step along f's
      normal, is reported as side f; and that side's template sits on the plane
      the normal points through. */
  lemma HitFaceRecoversSide(hit: Vec3, f: BlockFace)
    ensures HitFace(Add(hit, Normal(f)), hit) == f
    ensures forall i :: 0 <= i < 4 ==> OnSidePlane(f, SideVertices(f)[i])
  {
  }
}
