/**
  The widget object: the viewport size, the pointer, the reference
  distance, the current blob kind, the live vertex buffer of the current
  geometry and the snapshot of its reference vertices.

  `build` stands for the rendering library's geometry constructors: it
  gives the vertex positions of the geometry with the given parameters.
 */
module BlobWidget {
  import opened Geometry
  import opened Displacement

  /**
    The snapshot dictionary after recording the vertices `vs` over the
    dictionary `prev`: indices below `|vs|` hold copies of the vertices, and
    entries of an earlier, larger geometry above them are kept as they were.
   */
  function Snapshot(prev: map<nat, Vec3>, vs: seq<Vec3>): (m: map<nat, Vec3>)
    ensures forall i :: 0 <= i < |vs| ==> i in m && m[i] == vs[i]
    ensures forall i :: i in prev && i >= |vs| ==> i in m && m[i] == prev[i]
    ensures forall i :: i in m ==> i < |vs| || i in prev
    decreases |vs|
  {
    if vs == [] then prev
    else Snapshot(prev, vs[..|vs| - 1])[|vs| - 1 := vs[|vs| - 1]]
  }

  /** The first `n` entries of a snapshot dictionary, as a sequence. */
  function Prefix(m: map<nat, Vec3>, n: nat): (s: seq<Vec3>)
    requires forall i :: 0 <= i < n ==> i in m
    ensures |s| == n
    ensures forall i :: 0 <= i < n ==> s[i] == m[i]
  {
    seq(n, i requires 0 <= i < n => m[i])
  }

  /** Reading back the first `|vs|` entries of a fresh snapshot gives exactly the recorded vertices. */
  lemma SnapshotRoundTrip(prev: map<nat, Vec3>, vs: seq<Vec3>)
    ensures forall i :: 0 <= i < |vs| ==> i in Snapshot(prev, vs)
    ensures Prefix(Snapshot(prev, vs), |vs|) == vs
  {
    var m := Snapshot(prev, vs);
    assert forall i :: 0 <= i < |vs| ==> Prefix(m, |vs|)[i] == vs[i];
  }

  class Blobs {
    var width: nat
    var height: nat
    /** The eased pointer position, in viewport pixels. */
    var mouseX: real
    var mouseY: real
    /** The reference distance used to normalise the pointer distance. */
    var maxDist: real
    var currentKind: BlobKind
    /** The parameters of the current geometry. */
    var shape: Shape
    /** The live vertex buffer of the current geometry. */
    var vertices: array<Vec3>
    /** The reference vertices, keyed by vertex index. */
    var original: map<nat, Vec3>
    var meshRotationY: real
    var meshRotationZ: real

    /** The current geometry is of the current kind, and every live vertex has a reference. */
    ghost predicate Valid()
      reads this
    {
      && KindOf(shape) == currentKind
      && forall i :: 0 <= i < vertices.Length ==> i in original
    }

    /** The reference vertices of the current geometry, one per live vertex. */
    ghost function Reference(): (r: seq<Vec3>)
      reads this
      requires Valid()
      ensures |r| == vertices.Length
    {
      Prefix(original, vertices.Length)
    }

    /**
      The widget starts on the tag of a box with the pointer at the origin,
      measures the reference distance from there to the viewport centre, and
      sets up its first blob.
     */
    constructor (canvasWidth: nat, canvasHeight: nat, initialMaxDist: real, build: Shape -> seq<Vec3>)
      requires IsDistance(initialMaxDist, 0.0, 0.0, canvasWidth as real / 2.0, canvasHeight as real / 2.0)
      ensures Valid() && fresh(vertices)
      ensures width == canvasWidth && height == canvasHeight
      ensures mouseX == 0.0 && mouseY == 0.0 && maxDist == initialMaxDist
      ensures currentKind == Sphere && shape == ShapeFor(Sphere, Density(canvasWidth))
      ensures vertices[..] == build(shape) && Reference() == vertices[..]
      ensures original == Snapshot(map[], vertices[..])
      ensures meshRotationY == 0.0 && meshRotationZ == 0.0
    {
      width, height := canvasWidth, canvasHeight;
      mouseX, mouseY := 0.0, 0.0;
      maxDist := initialMaxDist;
      currentKind := Box;
      // No geometry exists before the first set-up; an empty buffer stands for it.
      shape := ShapeFor(Box, Density(canvasWidth));
      vertices := new Vec3[0];
      original := map[];
      new;
      SetupBlob(build);
    }

    /**
      Advances from the kind named by `tag` to the next one and returns that
      kind's geometry at the density for the current width. An unknown tag
      gives a sphere and leaves the current kind alone.

      It changes the kind without installing the geometry, so on its own it
      does not keep `Valid()`; it is only called from `SetupBlob`, which
      installs the returned geometry and restores `Valid()`.
     */
    method NextBlobGeometry(tag: string) returns (g: Shape)
      modifies this`currentKind
      ensures ParseTag(tag).Some? ==>
        currentKind == NextKind(ParseTag(tag).value) && g == ShapeFor(currentKind, Density(width))
      ensures ParseTag(tag).None? ==>
        currentKind == old(currentKind) && g == ShapeFor(Sphere, Density(width))
      ensures ParseTag(tag).Some? ==> KindOf(g) == currentKind
    {
      var vertex := Density(width);
      if tag == "torus" {
        currentKind := Box;
        g := BoxShape(100.0, 100.0, 100.0, vertex, vertex, vertex);
      } else if tag == "box" {
        currentKind := Sphere;
        g := SphereShape(100.0, vertex, vertex);
      } else if tag == "sphere" {
        currentKind := Torus;
        g := TorusShape(100.0, 25.0, vertex, vertex);
      } else {
        g := SphereShape(100.0, vertex, vertex);
      }
    }

    /**
      Replaces the geometry by the next kind's and records a copy of each of
      its vertices as the reference for that index. The geometry goes into a
      new mesh, whose rotation starts at zero until the next frame sets it.
     */
    method SetupBlob(build: Shape -> seq<Vec3>)
      modifies this`currentKind, this`shape, this`vertices, this`original
      modifies this`meshRotationY, this`meshRotationZ
      ensures Valid() && fresh(vertices)
      ensures meshRotationY == 0.0 && meshRotationZ == 0.0
      ensures currentKind == NextKind(old(currentKind))
      ensures shape == ShapeFor(currentKind, Density(width))
      ensures vertices[..] == build(shape)
      ensures original == Snapshot(old(original), vertices[..])
      ensures Reference() == vertices[..]
    {
      meshRotationY, meshRotationZ := 0.0, 0.0;
      ParseTagOfTag(currentKind);
      var g := NextBlobGeometry(Tag(currentKind));
      shape := g;
      var vs := build(g);
      vertices := new Vec3[|vs|](i requires 0 <= i < |vs| => vs[i]);
      assert vertices[..] == vs;
      RecordReference();
      SnapshotRoundTrip(old(original), vs);
    }

    /** Records a copy of each live vertex as the reference for its index. */
    method RecordReference()
      modifies this`original
      ensures original == Snapshot(old(original), vertices[..])
    {
      var i := 0;
      while i < vertices.Length
        invariant 0 <= i <= vertices.Length
        invariant original == Snapshot(old(original), vertices[..i])
      {
        assert vertices[..i + 1][..i] == vertices[..i];
        original := original[i := vertices[i]];
        i := i + 1;
      }
      assert vertices[..i] == vertices[..];
    }

    /**
      One frame of displacement: every live vertex is reset to its reference
      point and scaled by the ratio of the noise sampled at that point.
     */
    method UpdateVertices(time: real, pointerDist: real, noise3: Noise)
      requires Valid() && maxDist != 0.0
      requires IsDistance(pointerDist, mouseX, mouseY, width as real / 2.0, height as real / 2.0)
      modifies vertices
      ensures vertices[..] == Displace(noise3, Reference(), time, Proximity(pointerDist, maxDist))
      ensures original == old(original)
    {
      var dist := pointerDist / maxDist;
      dist := Map(dist, 1.0, 0.0, 0.0, 1.0);
      var i := 0;
      while i < vertices.Length
        invariant 0 <= i <= vertices.Length
        invariant forall k :: 0 <= k < i ==> vertices[k] == DisplaceVertex(noise3, original[k], time, dist)
      {
        vertices[i] := original[i];
        var vector := vertices[i];
        var perlin := NoiseAt(noise3, vector, time);
        var ratio := Ratio(perlin, dist);
        vertices[i] := Scale(vector, ratio);
        i := i + 1;
      }
      forall k | 0 <= k < vertices.Length
        ensures vertices[k] == Displace(noise3, Reference(), time, dist)[k]
      {
        DisplaceAt(noise3, Reference(), time, dist, k);
      }
    }

    /** One animation frame: the mesh rotation follows the pointer, then the vertices are displaced. */
    method Render(time: real, pointerDist: real, noise3: Noise)
      requires Valid() && maxDist != 0.0 && width > 0 && height > 0
      requires IsDistance(pointerDist, mouseX, mouseY, width as real / 2.0, height as real / 2.0)
      modifies this`meshRotationY, this`meshRotationZ, vertices
      ensures meshRotationY == RotationY(mouseX, width as real)
      ensures meshRotationZ == RotationZ(mouseY, height as real)
      ensures vertices[..] == Displace(noise3, Reference(), time, Proximity(pointerDist, maxDist))
    {
      meshRotationY := -4.0 + Map(mouseX, 0.0, width as real, 0.0, 4.0);
      meshRotationZ := 4.0 + Map(mouseY, 0.0, height as real, 0.0, -4.0);
      UpdateVertices(time, pointerDist, noise3);
    }

    /** A resize takes the new viewport size; the reference distance keeps its value from construction. */
    method OnResize(newWidth: nat, newHeight: nat)
      modifies this`width, this`height
      ensures width == newWidth && height == newHeight
      ensures maxDist == old(maxDist)
    {
      width, height := newWidth, newHeight;
    }
  }

  /**
    The kinds on screen when a widget of any viewport size is created and
    after each of the next three clicks.
   */
  method ClickSequence(canvasWidth: nat, canvasHeight: nat, initialMaxDist: real, build: Shape -> seq<Vec3>)
      returns (kinds: seq<BlobKind>)
    requires IsDistance(initialMaxDist, 0.0, 0.0, canvasWidth as real / 2.0, canvasHeight as real / 2.0)
    ensures kinds == [Sphere, Torus, Box, Sphere]
  {
    var blobs := new Blobs(canvasWidth, canvasHeight, initialMaxDist, build);
    var atStart := blobs.currentKind;
    blobs.SetupBlob(build);
    var afterOne := blobs.currentKind;
    blobs.SetupBlob(build);
    var afterTwo := blobs.currentKind;
    blobs.SetupBlob(build);
    var afterThree := blobs.currentKind;
    kinds := [atStart, afterOne, afterTwo, afterThree];
  }

  /**
    The kind on screen after `clicks` clicks on a new widget: construction
    performs the first advance from the tag of a box, and each click one more.
   */
  method ClickKind(canvasWidth: nat, canvasHeight: nat, initialMaxDist: real, build: Shape -> seq<Vec3>, clicks: nat)
      returns (kind: BlobKind)
    requires IsDistance(initialMaxDist, 0.0, 0.0, canvasWidth as real / 2.0, canvasHeight as real / 2.0)
    ensures kind == Iterate(Box, clicks + 1)
  {
    var blobs := new Blobs(canvasWidth, canvasHeight, initialMaxDist, build);
    var n := 0;
    while n < clicks
      invariant 0 <= n <= clicks
      invariant blobs.currentKind == Iterate(Box, n + 1)
    {
      IterateStep(Box, n + 1);
      blobs.SetupBlob(build);
      n := n + 1;
    }
    kind := blobs.currentKind;
  }

  /**
    A frame depends on nothing the previous frames left in the buffer: a
    frame at `time`, then one at `other`, then one at `time` again, leaves
    the buffer as the first frame did.
   */
  method ReplayFrame(blobs: Blobs, time: real, other: real, pointerDist: real, noise3: Noise)
      returns (first: seq<Vec3>, again: seq<Vec3>)
    requires blobs.Valid() && blobs.maxDist != 0.0
    requires IsDistance(pointerDist, blobs.mouseX, blobs.mouseY, blobs.width as real / 2.0, blobs.height as real / 2.0)
    modifies blobs.vertices
    ensures first == again
  {
    blobs.UpdateVertices(time, pointerDist, noise3);
    first := blobs.vertices[..];
    blobs.UpdateVertices(other, pointerDist, noise3);
    blobs.UpdateVertices(time, pointerDist, noise3);
    again := blobs.vertices[..];
  }
}
