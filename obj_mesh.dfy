/**
 * Flattening of a parsed Wavefront OBJ file into a triangle list. The parser
 * itself is outside the model: its output tables (the flat coordinate and
 * normal arrays, and per shape the face list and the index triples) are the
 * input. Every face is read as a triangle, three consecutive index entries
 * per face, and every corner becomes one vertex whose colour is its normal.
 *
 * Coordinates are opaque values of type R (tinyobj::real_t); they are copied,
 * never computed with.
 */
module Meshes {
  import opened VkTypes

  datatype Vec3<R> = Vec3(x: R, y: R, z: R)

  /** Vertex, without the uv field, which the loader never writes. */
  datatype Vertex<R> = Vertex(position: Vec3<R>, normal: Vec3<R>, color: Vec3<R>)

  /** tinyobj::index_t: which position and which normal a face corner uses. */
  datatype Index = Index(vertexIndex: int, normalIndex: int)

  /** tinyobj::mesh_t: per-face corner counts and the flat index list. */
  datatype ShapeMesh = ShapeMesh(numFaceVertices: seq<nat>, indices: seq<Index>)

  /** tinyobj::attrib_t: flat x, y, z arrays of positions and normals. */
  datatype Attrib<R> = Attrib(vertices: seq<R>, normals: seq<R>)

  /** Everything LoadObj hands back: warning text, error text and the tables. */
  datatype LoaderOutput<R> = LoaderOutput(warn: string, err: string, attrib: Attrib<R>, shapes: seq<ShapeMesh>)

  /** Mesh: its vertex list (the GPU buffer is filled elsewhere). */
  datatype Mesh<R> = Mesh(vertices: seq<Vertex<R>>)

  /** The loader treats every face as a triangle. */
  const FACE_VERTICES: nat := 3

  /** The three coordinates an index entry points at exist in both tables. */
  predicate IndexInBounds<R>(attrib: Attrib<R>, idx: Index) {
    && 0 <= idx.vertexIndex && 3 * idx.vertexIndex + 2 < |attrib.vertices|
    && 0 <= idx.normalIndex && 3 * idx.normalIndex + 2 < |attrib.normals|
  }

  /** Three index entries per face exist, and each points inside the tables. */
  predicate ShapeInBounds<R>(attrib: Attrib<R>, shape: ShapeMesh) {
    && FACE_VERTICES * |shape.numFaceVertices| <= |shape.indices|
    && forall i :: 0 <= i < FACE_VERTICES * |shape.numFaceVertices| ==> IndexInBounds(attrib, shape.indices[i])
  }

  predicate TablesInBounds<R>(attrib: Attrib<R>, shapes: seq<ShapeMesh>) {
    forall s :: 0 <= s < |shapes| ==> ShapeInBounds(attrib, shapes[s])
  }

  /** The vertex one face corner produces: its position, its normal, and the normal again as colour. */
  function Corner<R>(attrib: Attrib<R>, idx: Index): Vertex<R>
    requires IndexInBounds(attrib, idx)
  {
    var p := 3 * idx.vertexIndex;
    var n := 3 * idx.normalIndex;
    var normal := Vec3(attrib.normals[n], attrib.normals[n + 1], attrib.normals[n + 2]);
    Vertex(Vec3(attrib.vertices[p], attrib.vertices[p + 1], attrib.vertices[p + 2]), normal, normal)
  }

  /** The vertices of the first `count` index entries, in order. */
  function Corners<R>(attrib: Attrib<R>, indices: seq<Index>, count: nat): (r: seq<Vertex<R>>)
    requires count <= |indices|
    requires forall i :: 0 <= i < count ==> IndexInBounds(attrib, indices[i])
    ensures |r| == count
  {
    if count == 0 then [] else Corners(attrib, indices, count - 1) + [Corner(attrib, indices[count - 1])]
  }

  /** The triangle-list vertices of one shape. */
  function ShapeVertices<R>(attrib: Attrib<R>, shape: ShapeMesh): seq<Vertex<R>>
    requires ShapeInBounds(attrib, shape)
  {
    Corners(attrib, shape.indices, FACE_VERTICES * |shape.numFaceVertices|)
  }

  /** All shapes' vertices, shape after shape. */
  function Flatten<R>(attrib: Attrib<R>, shapes: seq<ShapeMesh>): seq<Vertex<R>>
    requires TablesInBounds(attrib, shapes)
  {
    if shapes == [] then []
    else Flatten(attrib, shapes[..|shapes| - 1]) + ShapeVertices(attrib, shapes[|shapes| - 1])
  }

  /** Total number of faces over all shapes. */
  function TotalFaces(shapes: seq<ShapeMesh>): nat {
    if shapes == [] then 0 else TotalFaces(shapes[..|shapes| - 1]) + |shapes[|shapes| - 1].numFaceVertices|
  }

  /**
   * load_mesh_from_obj after the parser has run: a non-empty error text
   * yields no mesh; otherwise the mesh holds exactly the flattened
   * triangle-list vertices. Out-of-range indices would be reads past the
   * parser's arrays, so they are excluded whenever the parser reports no
   * error.
   */
  method LoadMeshFromObj<R>(output: LoaderOutput<R>) returns (mesh: Option<Mesh<R>>)
    requires output.err == [] ==> TablesInBounds(output.attrib, output.shapes)
    ensures mesh.None? <==> output.err != []
    ensures mesh.Some? ==> mesh.value.vertices == Flatten(output.attrib, output.shapes)
  {
    if output.err != [] {
      return None;
    }
    var attrib, shapes := output.attrib, output.shapes;
    var vertices: seq<Vertex<R>> := [];
    var s := 0;
    while s < |shapes|
      invariant 0 <= s <= |shapes|
      invariant vertices == Flatten(attrib, shapes[..s])
    {
      assert ShapeInBounds(attrib, shapes[s]);
      vertices := AppendShapeVertices(attrib, shapes[s], vertices);
      assert shapes[..s + 1][..s] == shapes[..s];
      s := s + 1;
    }
    assert shapes[..|shapes|] == shapes;
    mesh := Some(Mesh(vertices));
  }

  /**
   * The loader's loops over one shape: for each face, three index entries in
   * order, each turned into a vertex and appended.
   */
  method AppendShapeVertices<R>(attrib: Attrib<R>, shape: ShapeMesh, vertices0: seq<Vertex<R>>) returns (vertices: seq<Vertex<R>>)
    requires ShapeInBounds(attrib, shape)
    ensures vertices == vertices0 + ShapeVertices(attrib, shape)
  {
    vertices := vertices0;
    var indexOffset := 0;
    var f := 0;
    while f < |shape.numFaceVertices|
      invariant 0 <= f <= |shape.numFaceVertices|
      invariant indexOffset == FACE_VERTICES * f
      invariant vertices == vertices0 + Corners(attrib, shape.indices, indexOffset)
    {
      var fv := FACE_VERTICES;
      var v := 0;
      while v < fv
        invariant 0 <= v <= fv
        invariant vertices == vertices0 + Corners(attrib, shape.indices, indexOffset + v)
      {
        var idx := shape.indices[indexOffset + v];
        assert IndexInBounds(attrib, idx);
        var position := Vec3(attrib.vertices[3 * idx.vertexIndex + 0], attrib.vertices[3 * idx.vertexIndex + 1], attrib.vertices[3 * idx.vertexIndex + 2]);
        var normal := Vec3(attrib.normals[3 * idx.normalIndex + 0], attrib.normals[3 * idx.normalIndex + 1], attrib.normals[3 * idx.normalIndex + 2]);
        vertices := vertices + [Vertex(position, normal, normal)];
        v := v + 1;
      }
      indexOffset := indexOffset + fv;
      f := f + 1;
    }
  }

  /** Exactly three vertices per face, whatever the face's own corner count says. */
  lemma {:induction false} FlattenLength<R>(attrib: Attrib<R>, shapes: seq<ShapeMesh>)
    requires TablesInBounds(attrib, shapes)
    ensures |Flatten(attrib, shapes)| == FACE_VERTICES * TotalFaces(shapes)
  {
    if shapes != [] {
      FlattenLength(attrib, shapes[..|shapes| - 1]);
    }
  }

  /** The k-th vertex of a shape comes from the shape's k-th index entry. */
  lemma {:induction false} CornersAt<R>(attrib: Attrib<R>, indices: seq<Index>, count: nat, k: nat)
    requires count <= |indices|
    requires forall i :: 0 <= i < count ==> IndexInBounds(attrib, indices[i])
    requires k < count
    ensures Corners(attrib, indices, count)[k] == Corner(attrib, indices[k])
  {
    if k < count - 1 {
      CornersAt(attrib, indices, count - 1, k);
    }
  }

  /**
   * Corner v of face f of the last shape is the vertex at position
   * 3 * (faces of the earlier shapes) + 3 * f + v, and it is built from
   * index entry 3 * f + v of that shape.
   */
  lemma LastShapeCornerAt<R>(attrib: Attrib<R>, shapes: seq<ShapeMesh>, f: nat, v: nat)
    requires TablesInBounds(attrib, shapes)
    requires shapes != []
    requires f < |shapes[|shapes| - 1].numFaceVertices| && v < FACE_VERTICES
    ensures var shape := shapes[|shapes| - 1];
      var k := FACE_VERTICES * TotalFaces(shapes[..|shapes| - 1]) + FACE_VERTICES * f + v;
      k < |Flatten(attrib, shapes)| && Flatten(attrib, shapes)[k] == Corner(attrib, shape.indices[FACE_VERTICES * f + v])
  {
    var shape := shapes[|shapes| - 1];
    var init := shapes[..|shapes| - 1];
    var j := FACE_VERTICES * f + v;
    assert ShapeInBounds(attrib, shape);
    assert j < FACE_VERTICES * |shape.numFaceVertices|;
    var prefix := Flatten(attrib, init);
    var last := ShapeVertices(attrib, shape);
    assert Flatten(attrib, shapes) == prefix + last;
    FlattenLength(attrib, init);
    CornersAt(attrib, shape.indices, FACE_VERTICES * |shape.numFaceVertices|, j);
    assert (prefix + last)[|prefix| + j] == last[j];
  }

  /**
   * Any shape, not only the last: corner v of face f of shape s sits after
   * three vertices for every face of the shapes before it, at 3 * f + v
   * within its own run, and comes from that shape's index entry 3 * f + v.
   */
  lemma {:induction false} ShapeCornerAt<R>(attrib: Attrib<R>, shapes: seq<ShapeMesh>, s: nat, f: nat, v: nat)
    requires TablesInBounds(attrib, shapes)
    requires s < |shapes| && f < |shapes[s].numFaceVertices| && v < FACE_VERTICES
    ensures var k := FACE_VERTICES * TotalFaces(shapes[..s]) + FACE_VERTICES * f + v;
      k < |Flatten(attrib, shapes)| && Flatten(attrib, shapes)[k] == Corner(attrib, shapes[s].indices[FACE_VERTICES * f + v])
    decreases |shapes|
  {
    var n := |shapes|;
    if s == n - 1 {
      LastShapeCornerAt(attrib, shapes, f, v);
    } else {
      var init := shapes[..n - 1];
      assert TablesInBounds(attrib, init) by {
        forall i | 0 <= i < |init| ensures ShapeInBounds(attrib, init[i]) {
          assert init[i] == shapes[i];
        }
      }
      assert init[s] == shapes[s];
      assert init[..s] == shapes[..s];
      ShapeCornerAt(attrib, init, s, f, v);
      var k := FACE_VERTICES * TotalFaces(shapes[..s]) + FACE_VERTICES * f + v;
      var prefix := Flatten(attrib, init);
      var last := ShapeVertices(attrib, shapes[n - 1]);
      assert Flatten(attrib, shapes) == prefix + last;
      assert k < |prefix|;
      assert (prefix + last)[k] == prefix[k];
    }
  }

  /** Every vertex the loader produces carries its normal as its colour. */
  lemma {:induction false} ColorIsNormal<R>(attrib: Attrib<R>, shapes: seq<ShapeMesh>)
    requires TablesInBounds(attrib, shapes)
    ensures forall vertex :: vertex in Flatten(attrib, shapes) ==> vertex.color == vertex.normal
  {
    if shapes != [] {
      ColorIsNormal(attrib, shapes[..|shapes| - 1]);
      var shape := shapes[|shapes| - 1];
      var n := FACE_VERTICES * |shape.numFaceVertices|;
      forall vertex | vertex in ShapeVertices(attrib, shape)
        ensures vertex.color == vertex.normal
      {
        var k :| 0 <= k < n && ShapeVertices(attrib, shape)[k] == vertex;
        CornersAt(attrib, shape.indices, n, k);
      }
    }
  }
}
