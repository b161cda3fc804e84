/**
  The shape cycle of the blob widget: the three kinds of blob, the string
  tags the widget keeps for them, the geometry parameters each kind is built
  with, and the vertex density chosen from the viewport width.

  Geometry construction itself belongs to the rendering library; here a
  geometry is the parameter record handed to that library.
 */
module Geometry {

  datatype Option<+T> = None | Some(value: T)

  /** A point or vertex position in model space. */
  datatype Vec3 = Vec3(x: real, y: real, z: real)

  /** Uniform scaling of a point about the origin. */
  function Scale(v: Vec3, s: real): Vec3 {
    Vec3(v.x * s, v.y * s, v.z * s)
  }

  datatype BlobKind = Box | Sphere | Torus

  /** The string the widget stores for each kind: one of the three tags it recognises. */
  function Tag(k: BlobKind): (r: string)
    ensures r in {"box", "sphere", "torus"}
  {
    match k
    case Box => "box"
    case Sphere => "sphere"
    case Torus => "torus"
  }

  /** Recognises a stored tag; any other string is unknown. */
  function ParseTag(s: string): (r: Option<BlobKind>)
    ensures r.Some? ==> Tag(r.value) == s
    ensures r.None? ==> s != "box" && s != "sphere" && s != "torus"
  {
    if s == "box" then Some(Box)
    else if s == "sphere" then Some(Sphere)
    else if s == "torus" then Some(Torus)
    else None
  }

  /** Every stored tag is recognised as the kind it was stored for. */
  lemma ParseTagOfTag(k: BlobKind)
    ensures ParseTag(Tag(k)) == Some(k)
  {
  }

  /** The fixed rotation: box, then sphere, then torus, then box again. */
  function NextKind(k: BlobKind): (r: BlobKind)
    ensures r != k
  {
    match k
    case Box => Sphere
    case Sphere => Torus
    case Torus => Box
  }

  /** The kind reached after `n` steps of the rotation. */
  function Iterate(k: BlobKind, n: nat): BlobKind
    decreases n
  {
    if n == 0 then k else Iterate(NextKind(k), n - 1)
  }

  /** One more step of the rotation advances the kind reached so far. */
  lemma {:induction false} IterateStep(k: BlobKind, n: nat)
    ensures Iterate(k, n + 1) == NextKind(Iterate(k, n))
    decreases n
  {
    if n > 0 {
      IterateStep(NextKind(k), n - 1);
    }
  }

  /** Three steps of the rotation lead back to where they started. */
  lemma ThreeStepsReturn(k: BlobKind)
    ensures NextKind(NextKind(NextKind(k))) == k
  {
  }

  /** The rotation has period three from any starting kind and any step. */
  lemma {:induction false} CyclePeriod(k: BlobKind, n: nat)
    ensures Iterate(k, n + 3) == Iterate(k, n)
    decreases n
  {
    if n == 0 {
      ThreeStepsReturn(k);
      calc {
        Iterate(k, 3);
        Iterate(NextKind(k), 2);
        Iterate(NextKind(NextKind(k)), 1);
        Iterate(NextKind(NextKind(NextKind(k))), 0);
      }
    } else {
      CyclePeriod(NextKind(k), n - 1);
    }
  }

  /** Any three consecutive steps visit all three kinds. */
  lemma {:induction false} CycleVisitsAll(k: BlobKind, n: nat, target: BlobKind)
    ensures Iterate(k, n) == target || Iterate(k, n + 1) == target || Iterate(k, n + 2) == target
    decreases n
  {
    if n == 0 {
      assert Iterate(k, 1) == NextKind(k);
      assert Iterate(k, 2) == NextKind(NextKind(k));
    } else {
      CycleVisitsAll(NextKind(k), n - 1, target);
    }
  }

  /**
    The kinds shown by the widget. It starts with the tag of a box; the
    construction of the widget performs the first advance, and each click
    performs one more. So after `clicks` clicks the kind on screen is
    `Iterate(Box, clicks + 1)`: a sphere at start, then torus, box, sphere.
   */
  lemma FirstClicks()
    ensures Iterate(Box, 1) == Sphere
    ensures Iterate(Box, 2) == Torus
    ensures Iterate(Box, 3) == Box
    ensures Iterate(Box, 4) == Sphere
  {
    CyclePeriod(Box, 1);
  }

  /** Vertex density: 80 segments on a viewport wider than 575 pixels, 40 otherwise. */
  function Density(viewportWidth: int): (d: nat)
    ensures d == 80 || d == 40
    ensures d == 80 <==> viewportWidth > 575
  {
    if viewportWidth > 575 then 80 else 40
  }

  /** The parameters of a geometry the rendering library is asked to build. */
  datatype Shape =
    | BoxShape(width: real, height: real, depth: real,
               widthSegments: nat, heightSegments: nat, depthSegments: nat)
    | SphereShape(radius: real, widthSegments: nat, heightSegments: nat)
    | TorusShape(radius: real, tube: real, radialSegments: nat, tubularSegments: nat)

  function KindOf(s: Shape): BlobKind {
    match s
    case BoxShape(_, _, _, _, _, _) => Box
    case SphereShape(_, _, _) => Sphere
    case TorusShape(_, _, _, _) => Torus
  }

  /** The segment-count arguments of a geometry, in argument order. */
  function Segments(s: Shape): seq<nat> {
    match s
    case BoxShape(_, _, _, a, b, c) => [a, b, c]
    case SphereShape(_, a, b) => [a, b]
    case TorusShape(_, _, a, b) => [a, b]
  }

  /** The geometry built for a kind at a given density. */
  function ShapeFor(k: BlobKind, density: nat): (s: Shape)
    ensures KindOf(s) == k
  {
    match k
    case Box => BoxShape(100.0, 100.0, 100.0, density, density, density)
    case Sphere => SphereShape(100.0, density, density)
    case Torus => TorusShape(100.0, 25.0, density, density)
  }

  /** Every segment argument of the chosen geometry is the one density. */
  lemma UniformDensity(k: BlobKind, density: nat)
    ensures |Segments(ShapeFor(k, density))| > 0
    ensures forall c :: c in Segments(ShapeFor(k, density)) ==> c == density
  {
  }
}
