/**
 * The transform converter: Maya's 4x4 matrices (row-vector convention,
 * row 3 holds the translation) over the reals, the fixed sign remap that
 * turns a Maya-space matrix into an Unreal-space one, the 90 degree up-axis
 * correction, and the colour conversion used for lights.
 */
module Transforms {

  /** A 4x4 matrix as four rows of four entries, indexed `m[row][column]`. */
  type Mat4 = m: seq<seq<real>> | |m| == 4 && forall i :: 0 <= i < 4 ==> |m[i]| == 4
    witness [[0.0, 0.0, 0.0, 0.0], [0.0, 0.0, 0.0, 0.0], [0.0, 0.0, 0.0, 0.0], [0.0, 0.0, 0.0, 0.0]]

  datatype Vec3 = Vec3(x: real, y: real, z: real)

  /** `MMatrix::identity`, also the value of a default-constructed `MMatrix`. */
  function Identity(): Mat4 {
    [[1.0, 0.0, 0.0, 0.0],
     [0.0, 1.0, 0.0, 0.0],
     [0.0, 0.0, 1.0, 0.0],
     [0.0, 0.0, 0.0, 1.0]]
  }

  /** The matrix product `a * b` of `MMatrix::operator*`. */
  function Mul(a: Mat4, b: Mat4): (r: Mat4)
    ensures forall i, j :: 0 <= i < 4 && 0 <= j < 4 ==> r[i][j] == Dot(a, b, i, j)
  {
    seq(4, i requires 0 <= i < 4 => seq(4, j requires 0 <= j < 4 => Dot(a, b, i, j)))
  }

  /** Entry (i, j) of the product: row i of `a` times column j of `b`. */
  function Dot(a: Mat4, b: Mat4, i: nat, j: nat): real
    requires i < 4 && j < 4
  {
    Dot4(a[i][0], a[i][1], a[i][2], a[i][3], b[0][j], b[1][j], b[2][j], b[3][j])
  }

  function Dot4(x0: real, x1: real, x2: real, x3: real, y0: real, y1: real, y2: real, y3: real): real {
    x0 * y0 + x1 * y1 + x2 * y2 + x3 * y3
  }

  /** Two matrices with the same sixteen entries are equal. */
  lemma MatEq(a: Mat4, b: Mat4)
    requires forall i, j :: 0 <= i < 4 && 0 <= j < 4 ==> a[i][j] == b[i][j]
    ensures a == b
  {
    forall i | 0 <= i < 4
      ensures a[i] == b[i]
    {
    }
  }

  /**
   * The row remap of BuildUETransformFromMayaTransform: row 1 becomes
   * (-r0, r1, -r2, -r3) and every other row (r0, -r1, r2, r3). Entry by
   * entry, an entry changes sign exactly when one, but not both, of its row
   * and its column is 1.
   */
  function UnrealSpace(m: Mat4): (r: Mat4)
    ensures forall i, j :: 0 <= i < 4 && 0 <= j < 4 ==>
      r[i][j] == if (i == 1) != (j == 1) then -m[i][j] else m[i][j]
  {
    seq(4, i requires 0 <= i < 4 =>
      if i == 1 then [-m[i][0], m[i][1], -m[i][2], -m[i][3]]
      else [m[i][0], -m[i][1], m[i][2], m[i][3]])
  }

  /** The handedness flip diag(1, -1, 1, 1) that negates the Y axis. */
  function FlipY(): Mat4 {
    [[1.0, 0.0, 0.0, 0.0],
     [0.0, -1.0, 0.0, 0.0],
     [0.0, 0.0, 1.0, 0.0],
     [0.0, 0.0, 0.0, 1.0]]
  }

  /** The remap is the change of basis by the Y flip: FlipY * m * FlipY. */
  lemma UnrealSpaceIsFlipConjugation(m: Mat4)
    ensures UnrealSpace(m) == Mul(Mul(FlipY(), m), FlipY())
  {
    var r := Mul(Mul(FlipY(), m), FlipY());
    var u := UnrealSpace(m);
    forall i, j | 0 <= i < 4 && 0 <= j < 4
      ensures u[i][j] == r[i][j]
    {
    }
    MatEq(u, r);
  }

  /** The remap is an involution: converting twice gives the matrix back. */
  lemma UnrealSpaceInvolution(m: Mat4)
    ensures UnrealSpace(UnrealSpace(m)) == m
  {
    var u := UnrealSpace(UnrealSpace(m));
    forall i, j | 0 <= i < 4 && 0 <= j < 4
      ensures u[i][j] == m[i][j]
    {
    }
    MatEq(u, m);
  }

  /**
   * The remap commutes with composition: converting a product equals the
   * product of the converted factors, so converting a composed joint matrix
   * is the same as composing converted factors.
   */
  lemma UnrealSpaceDistributes(a: Mat4, b: Mat4)
    ensures UnrealSpace(Mul(a, b)) == Mul(UnrealSpace(a), UnrealSpace(b))
  {
    var l := UnrealSpace(Mul(a, b));
    var r := Mul(UnrealSpace(a), UnrealSpace(b));
    forall i, j | 0 <= i < 4 && 0 <= j < 4
      ensures l[i][j] == r[i][j]
    {
      UnrealSpaceDistributesAt(a, b, i, j);
    }
    MatEq(l, r);
  }

  lemma UnrealSpaceDistributesAt(a: Mat4, b: Mat4, i: nat, j: nat)
    requires i < 4 && j < 4
    ensures UnrealSpace(Mul(a, b))[i][j] == Mul(UnrealSpace(a), UnrealSpace(b))[i][j]
  {
    var ua, ub := UnrealSpace(a), UnrealSpace(b);
    // term k is negated once for row i and once for column j of the product,
    // except the k == 1 term, whose two factors are negated when i and j are not 1
    var x0, x1, x2, x3 := a[i][0], a[i][1], a[i][2], a[i][3];
    var y0, y1, y2, y3 := b[0][j], b[1][j], b[2][j], b[3][j];
    var ni, nj := i == 1, j == 1;
    assert ua[i][0] == (if ni then -x0 else x0) && ua[i][1] == (if ni then x1 else -x1);
    assert ua[i][2] == (if ni then -x2 else x2) && ua[i][3] == (if ni then -x3 else x3);
    assert ub[0][j] == (if nj then -y0 else y0) && ub[1][j] == (if nj then y1 else -y1);
    assert ub[2][j] == (if nj then -y2 else y2) && ub[3][j] == (if nj then -y3 else y3);
    SignedDot(x0, x1, x2, x3, y0, y1, y2, y3, ni, nj);
  }

  lemma SignedDot(x0: real, x1: real, x2: real, x3: real, y0: real, y1: real, y2: real, y3: real, ni: bool, nj: bool)
    ensures Dot4(if ni then -x0 else x0, if ni then x1 else -x1, if ni then -x2 else x2, if ni then -x3 else x3,
                 if nj then -y0 else y0, if nj then y1 else -y1, if nj then -y2 else y2, if nj then -y3 else y3)
         == if ni != nj then -Dot4(x0, x1, x2, x3, y0, y1, y2, y3) else Dot4(x0, x1, x2, x3, y0, y1, y2, y3)
  {
    SignedProduct(x0, y0, ni, nj);
    SignedProduct(x1, y1, !ni, !nj);
    SignedProduct(x2, y2, ni, nj);
    SignedProduct(x3, y3, ni, nj);
  }

  /** The product of two possibly negated factors. */
  lemma SignedProduct(x: real, y: real, nx: bool, ny: bool)
    ensures (if nx then -x else x) * (if ny then -y else y) == if nx != ny then -(x * y) else x * y
  {
  }

  /**
   * `RotOffset.asMatrix()` for a quaternion of 90 degrees about the X axis,
   * in Maya's row-vector convention (cos 90 taken as exactly 0).
   */
  function UpRotation(): Mat4 {
    [[1.0, 0.0, 0.0, 0.0],
     [0.0, 0.0, 1.0, 0.0],
     [0.0, -1.0, 0.0, 0.0],
     [0.0, 0.0, 0.0, 1.0]]
  }

  /**
   * RotateCoordinateSystemForUnreal: `InOutMatrix *= RotOffset.asMatrix()`.
   * Column 1 becomes minus the old column 2, column 2 the old column 1;
   * columns 0 and 3 are kept.
   */
  function RotateForUnreal(m: Mat4): (r: Mat4)
    ensures forall i :: 0 <= i < 4 ==>
      r[i][0] == m[i][0] && r[i][1] == -m[i][2] && r[i][2] == m[i][1] && r[i][3] == m[i][3]
  {
    Mul(m, UpRotation())
  }

  /** The up-axis correction is a quarter turn: four of them are the identity. */
  lemma RotateForUnrealFourTimes(m: Mat4)
    ensures RotateForUnreal(RotateForUnreal(RotateForUnreal(RotateForUnreal(m)))) == m
  {
    var r := RotateForUnreal(RotateForUnreal(RotateForUnreal(RotateForUnreal(m))));
    forall i | 0 <= i < 4
      ensures r[i] == m[i]
    {
    }
  }

  /** The matrix of `MTransformationMatrix::setScale` on an otherwise identity matrix. */
  function ScaleMatrix(s: Vec3): Mat4 {
    [[s.x, 0.0, 0.0, 0.0],
     [0.0, s.y, 0.0, 0.0],
     [0.0, 0.0, s.z, 0.0],
     [0.0, 0.0, 0.0, 1.0]]
  }

  function Recip(x: real): real {
    if x == 0.0 then 0.0 else 1.0 / x
  }

  /** `JointScale.inverse()` for the diagonal scale matrix. */
  function InverseScaleMatrix(s: Vec3): Mat4 {
    ScaleMatrix(Vec3(Recip(s.x), Recip(s.y), Recip(s.z)))
  }

  /** For a non-degenerate scale, InverseScaleMatrix is a two-sided inverse. */
  lemma ScaleInverse(s: Vec3)
    requires s.x != 0.0 && s.y != 0.0 && s.z != 0.0
    ensures Mul(ScaleMatrix(s), InverseScaleMatrix(s)) == Identity()
    ensures Mul(InverseScaleMatrix(s), ScaleMatrix(s)) == Identity()
  {
    var a := Mul(ScaleMatrix(s), InverseScaleMatrix(s));
    var b := Mul(InverseScaleMatrix(s), ScaleMatrix(s));
    forall i, j | 0 <= i < 4 && 0 <= j < 4
      ensures a[i][j] == Identity()[i][j] && b[i][j] == Identity()[i][j]
    {
    }
    MatEq(a, Identity());
    MatEq(b, Identity());
  }

  /** The matrix of `MTransformationMatrix::setTranslation`: identity with row 3 = (t, 1). */
  function TranslationMatrix(t: Vec3): Mat4 {
    [[1.0, 0.0, 0.0, 0.0],
     [0.0, 1.0, 0.0, 0.0],
     [0.0, 0.0, 1.0, 0.0],
     [t.x, t.y, t.z, 1.0]]
  }

  /**
   * The camera matrix of StreamCamera: SetMatrixRow writes the first three
   * entries of rows 0..3 of an identity matrix with the right, view and up
   * directions and the eye point.
   */
  function BasisMatrix(right: Vec3, view: Vec3, up: Vec3, eye: Vec3): Mat4 {
    [[right.x, right.y, right.z, 0.0],
     [view.x, view.y, view.z, 0.0],
     [up.x, up.y, up.z, 0.0],
     [eye.x, eye.y, eye.z, 1.0]]
  }

  /**
   * An Unreal `FTransform` as far as this model follows it: the Unreal-space
   * matrix it is decomposed from, and whether the camera's extra -90 degree
   * yaw has been applied to its rotation.
   */
  datatype UETransform = UETransform(unrealSpace: Mat4, yawCorrected: bool)

  /** BuildUETransformFromMayaTransform, up to the decomposition of the remapped matrix. */
  function BuildUETransform(m: Mat4): UETransform {
    UETransform(UnrealSpace(m), false)
  }

  /** The remap loses nothing: the Maya-space matrix is recovered from the streamed one. */
  lemma BuildUETransformRecoversMaya(m: Mat4)
    ensures !BuildUETransform(m).yawCorrected
    ensures UnrealSpace(BuildUETransform(m).unrealSpace) == m
  {
    UnrealSpaceInvolution(m);
  }

  datatype MColor = MColor(r: real, g: real, b: real)
  datatype FColor = FColor(r: int, g: int, b: int, a: int)

  /** `FMath::Clamp(c * 255.0, 0.0, 255.0)` stored into a byte (truncation of a non-negative value). */
  function ColorChannel(c: real): (v: int)
    ensures 0 <= v <= 255
    ensures c >= 1.0 ==> v == 255
    ensures c <= 0.0 ==> v == 0
  {
    var scaled := c * 255.0;
    var clamped := if scaled < 0.0 then 0.0 else if scaled > 255.0 then 255.0 else scaled;
    clamped.Floor
  }

  function MayaColorToUnreal(c: MColor): (r: FColor)
    ensures 0 <= r.r <= 255 && 0 <= r.g <= 255 && 0 <= r.b <= 255 && r.a == 255
  {
    FColor(ColorChannel(c.r), ColorChannel(c.g), ColorChannel(c.b), 255)
  }

  /** A byte colour written as a Maya colour (byte / 255) converts back to the same byte. */
  lemma ColorChannelRoundTrip(b: int)
    requires 0 <= b <= 255
    ensures ColorChannel(b as real / 255.0) == b
  {
    assert (b as real / 255.0) * 255.0 == b as real;
  }
}
