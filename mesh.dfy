/**
 * The cube mesh: its constant vertex and index tables, the interleaved
 * vertex layout, and the object that owns the three GPU handles.
 */
module Mesh {
  import opened Trace

  // ---- record sizes, in bytes ----

  const FloatBytes: nat := 4
  /** sizeof(glm::vec4) */
  const Vec4Bytes: nat := 4 * FloatBytes
  /** sizeof(Vertex): a position and a colour, both vec4 (the header comment's 16 bytes is wrong) */
  const VertexBytes: nat := 2 * Vec4Bytes
  /** sizeof(Index), a GLuint */
  const IndexBytes: nat := 4

  /** Vertex attribute 0 is the position, attribute 1 the colour; both read vertex binding 0. */
  const PositionAttrib: nat := 0
  const ColorAttrib: nat := 1
  const VertexBinding: nat := 0
  const PositionOffset: nat := 0
  /** offset of Vertex::color, which is sizeof(Vertex::position) */
  const ColorOffset: nat := Vec4Bytes
  const ComponentsPerAttrib: nat := 4

  // ---- the cube tables ----

  const Red := Vec4(1, 0, 0, 1)
  const Green := Vec4(0, 1, 0, 1)
  const Blue := Vec4(0, 0, 1, 1)

  /** A cube corner; `x`, `y`, `z` are +1 or -1 half units, w is 1.0. */
  function Corner(x: int, y: int, z: int): Vec4 {
    Vec4(x, y, z, 2)
  }

  /**
   * Vertex i of the table: four per face, front, back, left, right, top,
   * bottom; each lies on its face's plane, with w = 1 and the face's colour.
   */
  function CubeVertex(i: nat): (r: Vertex)
    requires i < 24
    ensures Coordinate(r.position, FixedAxis(i / 4)) == FixedValue(i / 4)
    ensures r.position.w == 2 && r.color == FaceColor(i / 4)
  {
    match i
    case 0 => Vertex(Corner(-1, -1, 1), Red) // front
    case 1 => Vertex(Corner(1, -1, 1), Red)
    case 2 => Vertex(Corner(-1, 1, 1), Red)
    case 3 => Vertex(Corner(1, 1, 1), Red)
    case 4 => Vertex(Corner(-1, -1, -1), Red) // back
    case 5 => Vertex(Corner(1, -1, -1), Red)
    case 6 => Vertex(Corner(-1, 1, -1), Red)
    case 7 => Vertex(Corner(1, 1, -1), Red)
    case 8 => Vertex(Corner(-1, -1, -1), Green) // left
    case 9 => Vertex(Corner(-1, -1, 1), Green)
    case 10 => Vertex(Corner(-1, 1, -1), Green)
    case 11 => Vertex(Corner(-1, 1, 1), Green)
    case 12 => Vertex(Corner(1, -1, -1), Green) // right
    case 13 => Vertex(Corner(1, -1, 1), Green)
    case 14 => Vertex(Corner(1, 1, -1), Green)
    case 15 => Vertex(Corner(1, 1, 1), Green)
    case 16 => Vertex(Corner(-1, 1, -1), Blue) // top
    case 17 => Vertex(Corner(-1, 1, 1), Blue)
    case 18 => Vertex(Corner(1, 1, -1), Blue)
    case 19 => Vertex(Corner(1, 1, 1), Blue)
    case 20 => Vertex(Corner(-1, -1, -1), Blue) // bottom
    case 21 => Vertex(Corner(-1, -1, 1), Blue)
    case 22 => Vertex(Corner(1, -1, -1), Blue)
    case _ => Vertex(Corner(1, -1, 1), Blue)
  }

  /**
   * The vertex table as the sequence Mesh::init uploads: four entries per
   * face, each on that face's plane, with w = 1 and the face's colour.
   */
  function CubeVertices(): (r: seq<Vertex>)
    ensures |r| == 4 * FaceCount && forall i | 0 <= i < 24 :: r[i] == CubeVertex(i)
    ensures forall i | 0 <= i < |r| ::
      Coordinate(r[i].position, FixedAxis(i / 4)) == FixedValue(i / 4)
      && r[i].position.w == 2 && r[i].color == FaceColor(i / 4)
  {
    seq(24, i requires 0 <= i < 24 => CubeVertex(i))
  }

  const FaceCount: nat := 6

  /** Which coordinate a face fixes (0 = x, 1 = y, 2 = z) and to what value. */
  function FixedAxis(face: nat): nat requires face < FaceCount {
    [2, 2, 0, 0, 1, 1][face]
  }

  function FixedValue(face: nat): int requires face < FaceCount {
    [1, -1, -1, 1, 1, -1][face]
  }

  function FaceColor(face: nat): Vec4 requires face < FaceCount {
    [Red, Red, Green, Green, Blue, Blue][face]
  }

  function Coordinate(p: Vec4, axis: nat): int requires axis < 3 {
    if axis == 0 then p.x else if axis == 1 then p.y else p.z
  }

  /** A triangle whose three corners are three different vertices. */
  predicate NonDegenerate(tri: seq<nat>) {
    |tri| == 3 && tri[0] != tri[1] && tri[1] != tri[2] && tri[0] != tri[2]
  }

  /** The six indices of face `k`, as rows of the index table. */
  function FaceIndices(k: nat): (r: seq<nat>)
    requires k < FaceCount
    ensures |r| == 6
  {
    match k
    case 0 => [0, 1, 3, 3, 2, 0]
    case 1 => [5, 4, 7, 7, 4, 6]
    case 2 => [8, 9, 11, 11, 10, 8]
    case 3 => [13, 12, 15, 15, 12, 14]
    case 4 => [16, 17, 19, 19, 18, 16]
    case _ => [23, 21, 20, 23, 20, 22]
  }

  /** The index table: two triangles per face, one row per face, in vertex-table order. */
  const CubeIndices: seq<nat> := FaceIndices(0) + FaceIndices(1) + FaceIndices(2)
    + FaceIndices(3) + FaceIndices(4) + FaceIndices(5)

  /** Row k of the index table is face k's six indices. */
  lemma FaceRowsInPlace(k: nat)
    requires k < FaceCount
    ensures CubeIndices[6 * k .. 6 * k + 6] == FaceIndices(k)
  {
    assert forall i | 0 <= i < 6 :: CubeIndices[6 * k + i] == FaceIndices(k)[i];
  }

  lemma CubeTableSizes()
    ensures |CubeVertices()| == 24 && |CubeIndices| == 36
    ensures |CubeVertices()| == 4 * FaceCount && |CubeIndices| == 6 * FaceCount
  {
  }

  /** Every index names a vertex of the table. */
  lemma IndicesInRange()
    ensures forall i | 0 <= i < |CubeIndices| :: CubeIndices[i] < |CubeVertices()|
  {
  }

  /**
   * Face k's six indices name only its own vertices 4k..4k+3 and form two
   * proper triangles.
   */
  lemma FaceUsesOwnVertices(k: nat)
    requires k < FaceCount
    ensures forall i | 0 <= i < 6 :: 4 * k <= FaceIndices(k)[i] < 4 * k + 4
    ensures NonDegenerate(FaceIndices(k)[..3]) && NonDegenerate(FaceIndices(k)[3..])
  {
    if k == 0 {
      assert FaceIndices(k) == [0, 1, 3, 3, 2, 0];
    } else if k == 1 {
      assert FaceIndices(k) == [5, 4, 7, 7, 4, 6];
    } else if k == 2 {
      assert FaceIndices(k) == [8, 9, 11, 11, 10, 8];
    } else if k == 3 {
      assert FaceIndices(k) == [13, 12, 15, 15, 12, 14];
    } else if k == 4 {
      assert FaceIndices(k) == [16, 17, 19, 19, 18, 16];
    } else {
      assert FaceIndices(k) == [23, 21, 20, 23, 20, 22];
    }
  }

  /**
   * Face k names each of its four vertices: its first and last vertex (the
   * diagonal the two triangles share) twice, the other two once.
   */
  lemma FaceDiagonalNamedTwice(k: nat)
    requires k < FaceCount
    ensures forall v | 4 * k <= v < 4 * k + 4 ::
      multiset(FaceIndices(k))[v] == if v == 4 * k || v == 4 * k + 3 then 2 else 1
  {
    FaceUsesOwnVertices(k);
    forall v | 4 * k <= v < 4 * k + 4
      ensures multiset(FaceIndices(k))[v] == if v == 4 * k || v == 4 * k + 3 then 2 else 1
    {
      TriangleCounts(FaceIndices(k), v);
      DiagonalShared(k, v);
    }
  }

  /** The two triangles of face k both use corners 0 and 3, and each of corners 1 and 2 once. */
  lemma DiagonalShared(k: nat, v: nat)
    requires k < FaceCount && 4 * k <= v < 4 * k + 4
    ensures (v in FaceIndices(k)[..3] && v in FaceIndices(k)[3..]) <==> (v == 4 * k || v == 4 * k + 3)
    ensures v in FaceIndices(k)[..3] || v in FaceIndices(k)[3..]
  {
    if k == 0 {
      assert FaceIndices(k)[..3] == [0, 1, 3] && FaceIndices(k)[3..] == [3, 2, 0];
    } else if k == 1 {
      assert FaceIndices(k)[..3] == [5, 4, 7] && FaceIndices(k)[3..] == [7, 4, 6];
    } else if k == 2 {
      assert FaceIndices(k)[..3] == [8, 9, 11] && FaceIndices(k)[3..] == [11, 10, 8];
    } else if k == 3 {
      assert FaceIndices(k)[..3] == [13, 12, 15] && FaceIndices(k)[3..] == [15, 12, 14];
    } else if k == 4 {
      assert FaceIndices(k)[..3] == [16, 17, 19] && FaceIndices(k)[3..] == [19, 18, 16];
    } else {
      assert FaceIndices(k)[..3] == [23, 21, 20] && FaceIndices(k)[3..] == [23, 20, 22];
    }
  }

  /** In a row of two proper triangles, a vertex occurs once per triangle using it. */
  lemma TriangleCounts(f: seq<nat>, v: nat)
    requires |f| == 6 && NonDegenerate(f[..3]) && NonDegenerate(f[3..])
    ensures multiset(f)[v] == (if v in f[..3] then 1 else 0) + (if v in f[3..] then 1 else 0)
  {
    assert f == f[..3] + f[3..];
    TriangleCount(f[..3], v);
    TriangleCount(f[3..], v);
  }

  lemma TriangleCount(tri: seq<nat>, v: nat)
    requires NonDegenerate(tri)
    ensures multiset(tri)[v] == if v in tri then 1 else 0
  {
    assert tri == [tri[0]] + [tri[1]] + [tri[2]];
  }

  /**
   * Every vertex of face k lies on that face's plane, has its other two
   * coordinates at +-0.5, w = 1, and carries the face's colour with alpha 1.
   */
  lemma FaceVertexShape(k: nat, j: nat)
    requires k < FaceCount && j < 4
    ensures Coordinate(CubeVertices()[4 * k + j].position, FixedAxis(k)) == FixedValue(k)
    ensures var p := CubeVertices()[4 * k + j].position;
      (p.x == 1 || p.x == -1) && (p.y == 1 || p.y == -1) && (p.z == 1 || p.z == -1) && p.w == 2
    ensures CubeVertices()[4 * k + j].color == FaceColor(k) && FaceColor(k).w == 1
  {
    assert k == 0 || k == 1 || k == 2 || k == 3 || k == 4 || k == 5;
    assert j == 0 || j == 1 || j == 2 || j == 3;
  }

  /** The four vertices of a face are four distinct corners. */
  lemma FaceCornersDistinct(k: nat, j1: nat, j2: nat)
    requires k < FaceCount && j1 < 4 && j2 < 4 && j1 != j2
    ensures CubeVertices()[4 * k + j1].position != CubeVertices()[4 * k + j2].position
  {
    assert k == 0 || k == 1 || k == 2 || k == 3 || k == 4 || k == 5;
    assert j1 == 0 || j1 == 1 || j1 == 2 || j1 == 3;
  }

  // ---- the layout ----

  /** The two attributes fill one stride exactly, position first, without overlap. */
  lemma LayoutIsDense()
    ensures VertexBytes == 32
    ensures PositionOffset + ComponentsPerAttrib * FloatBytes == ColorOffset
    ensures ColorOffset + ComponentsPerAttrib * FloatBytes == VertexBytes
  {
  }

  /** The byte counts handed to the two uploads. */
  function VertexUploadBytes(): (n: nat)
    ensures n == 768
  {
    |CubeVertices()| * VertexBytes
  }

  function IndexUploadBytes(): (n: nat)
    ensures n == 144
  {
    |CubeIndices| * IndexBytes
  }

  // Each After* function is the trace `t` followed by the calls one step issues.

  /** Mesh::init's vertex-buffer step: create, then upload the whole vertex table. */
  function AfterVertexUpload(t: Log, vbo: Handle): Log {
    t.Then(CreateBuffer(vbo)).Then(BufferStorage(vbo, VertexUploadBytes(), Vertices(CubeVertices())))
  }

  /** Mesh::init's index-buffer step: create, then upload the whole index table. */
  function AfterIndexUpload(t: Log, ibo: Handle): Log {
    t.Then(CreateBuffer(ibo)).Then(BufferStorage(ibo, IndexUploadBytes(), Indices(CubeIndices)))
  }

  /** Mesh::init's vertex-array step: attach both buffers, describe the two attributes. */
  function AfterLayout(t: Log, vbo: Handle, ibo: Handle, vao: Handle): Log {
    t.Then(CreateVertexArray(vao))
      .Then(VertexArrayVertexBuffer(vao, VertexBinding, vbo, 0, VertexBytes))
      .Then(VertexArrayElementBuffer(vao, ibo))
      .Then(AttribFormat(vao, PositionAttrib, ComponentsPerAttrib, false, PositionOffset))
      .Then(AttribBinding(vao, PositionAttrib, VertexBinding))
      .Then(EnableAttrib(vao, PositionAttrib))
      .Then(AttribFormat(vao, ColorAttrib, ComponentsPerAttrib, false, ColorOffset))
      .Then(AttribBinding(vao, ColorAttrib, VertexBinding))
      .Then(EnableAttrib(vao, ColorAttrib))
  }

  /** Everything Mesh::init issues, given the three names the driver hands out. */
  function AfterInit(t: Log, vbo: Handle, ibo: Handle, vao: Handle): Log {
    AfterLayout(AfterIndexUpload(AfterVertexUpload(t, vbo), ibo), vbo, ibo, vao)
  }

  function AfterDestroy(t: Log, vbo: Handle, ibo: Handle, vao: Handle): Log {
    t.Then(DeleteBuffer(ibo)).Then(DeleteBuffer(vbo)).Then(DeleteVertexArray(vao))
  }

  /** The vertex-array step uploads nothing and creates only the vertex array. */
  lemma LayoutKinds(t: Log, vbo: Handle, ibo: Handle, vao: Handle, k: Kind)
    requires k == Uploads || k == Lifetimes
    ensures Filter(AfterLayout(t, vbo, ibo, vao), k)
         == if k == Lifetimes then Filter(t, k).Then(CreateVertexArray(vao)) else Filter(t, k)
  {
    var t1 := t.Then(CreateVertexArray(vao));
    var t2 := t1.Then(VertexArrayVertexBuffer(vao, VertexBinding, vbo, 0, VertexBytes));
    var t3 := t2.Then(VertexArrayElementBuffer(vao, ibo));
    var t4 := t3.Then(AttribFormat(vao, PositionAttrib, ComponentsPerAttrib, false, PositionOffset));
    var t5 := t4.Then(AttribBinding(vao, PositionAttrib, VertexBinding));
    var t6 := t5.Then(EnableAttrib(vao, PositionAttrib));
    var t7 := t6.Then(AttribFormat(vao, ColorAttrib, ComponentsPerAttrib, false, ColorOffset));
    var t8 := t7.Then(AttribBinding(vao, ColorAttrib, VertexBinding));
    FilterThen(t, CreateVertexArray(vao), k);
    FilterThen(t1, VertexArrayVertexBuffer(vao, VertexBinding, vbo, 0, VertexBytes), k);
    FilterThen(t2, VertexArrayElementBuffer(vao, ibo), k);
    FilterThen(t3, AttribFormat(vao, PositionAttrib, ComponentsPerAttrib, false, PositionOffset), k);
    FilterThen(t4, AttribBinding(vao, PositionAttrib, VertexBinding), k);
    FilterThen(t5, EnableAttrib(vao, PositionAttrib), k);
    FilterThen(t6, AttribFormat(vao, ColorAttrib, ComponentsPerAttrib, false, ColorOffset), k);
    FilterThen(t7, AttribBinding(vao, ColorAttrib, VertexBinding), k);
    FilterThen(t8, EnableAttrib(vao, ColorAttrib), k);
  }

  /**
   * The layout binds the vertex buffer with one vertex record as its stride
   * and attaches the index buffer, then formats, binds to binding 0 and
   * enables the position attribute and then the colour attribute.
   */
  lemma LayoutDescribesVertex(t: Log, vbo: Handle, ibo: Handle, vao: Handle)
    ensures Filter(AfterLayout(t, vbo, ibo, vao), Layouts)
         == Filter(t, Layouts)
              .Then(VertexArrayVertexBuffer(vao, VertexBinding, vbo, 0, VertexBytes))
              .Then(VertexArrayElementBuffer(vao, ibo))
              .Then(AttribFormat(vao, PositionAttrib, ComponentsPerAttrib, false, PositionOffset))
              .Then(AttribBinding(vao, PositionAttrib, VertexBinding))
              .Then(EnableAttrib(vao, PositionAttrib))
              .Then(AttribFormat(vao, ColorAttrib, ComponentsPerAttrib, false, ColorOffset))
              .Then(AttribBinding(vao, ColorAttrib, VertexBinding))
              .Then(EnableAttrib(vao, ColorAttrib))
  {
    var k := Layouts;
    var t1 := t.Then(CreateVertexArray(vao));
    var t2 := t1.Then(VertexArrayVertexBuffer(vao, VertexBinding, vbo, 0, VertexBytes));
    var t3 := t2.Then(VertexArrayElementBuffer(vao, ibo));
    var t4 := t3.Then(AttribFormat(vao, PositionAttrib, ComponentsPerAttrib, false, PositionOffset));
    var t5 := t4.Then(AttribBinding(vao, PositionAttrib, VertexBinding));
    var t6 := t5.Then(EnableAttrib(vao, PositionAttrib));
    var t7 := t6.Then(AttribFormat(vao, ColorAttrib, ComponentsPerAttrib, false, ColorOffset));
    var t8 := t7.Then(AttribBinding(vao, ColorAttrib, VertexBinding));
    FilterThen(t, CreateVertexArray(vao), k);
    FilterThen(t1, VertexArrayVertexBuffer(vao, VertexBinding, vbo, 0, VertexBytes), k);
    FilterThen(t2, VertexArrayElementBuffer(vao, ibo), k);
    FilterThen(t3, AttribFormat(vao, PositionAttrib, ComponentsPerAttrib, false, PositionOffset), k);
    FilterThen(t4, AttribBinding(vao, PositionAttrib, VertexBinding), k);
    FilterThen(t5, EnableAttrib(vao, PositionAttrib), k);
    FilterThen(t6, AttribFormat(vao, ColorAttrib, ComponentsPerAttrib, false, ColorOffset), k);
    FilterThen(t7, AttribBinding(vao, ColorAttrib, VertexBinding), k);
    FilterThen(t8, EnableAttrib(vao, ColorAttrib), k);
  }

  /** The two buffer steps: each creates its buffer, then uploads into it. */
  lemma UploadKinds(t: Log, vbo: Handle, ibo: Handle, k: Kind)
    requires k == Uploads || k == Lifetimes || k == Layouts
    ensures Filter(AfterIndexUpload(AfterVertexUpload(t, vbo), ibo), k)
         == if k == Uploads then
              Filter(t, k).Then(BufferStorage(vbo, VertexUploadBytes(), Vertices(CubeVertices())))
                .Then(BufferStorage(ibo, IndexUploadBytes(), Indices(CubeIndices)))
            else if k == Lifetimes then Filter(t, k).Then(CreateBuffer(vbo)).Then(CreateBuffer(ibo))
            else Filter(t, k)
  {
    var t1 := t.Then(CreateBuffer(vbo));
    var t2 := AfterVertexUpload(t, vbo);
    var t3 := t2.Then(CreateBuffer(ibo));
    FilterThen(t, CreateBuffer(vbo), k);
    FilterThen(t1, BufferStorage(vbo, VertexUploadBytes(), Vertices(CubeVertices())), k);
    FilterThen(t2, CreateBuffer(ibo), k);
    FilterThen(t3, BufferStorage(ibo, IndexUploadBytes(), Indices(CubeIndices)), k);
  }

  /**
   * init makes exactly two uploads: the whole vertex table into the vertex
   * buffer, then the whole index table into the index buffer, each sized as
   * element count times record size.
   */
  lemma InitUploads(t: Log, vbo: Handle, ibo: Handle, vao: Handle)
    ensures Filter(AfterInit(t, vbo, ibo, vao), Uploads)
         == Filter(t, Uploads)
              .Then(BufferStorage(vbo, |CubeVertices()| * VertexBytes, Vertices(CubeVertices())))
              .Then(BufferStorage(ibo, |CubeIndices| * IndexBytes, Indices(CubeIndices)))
  {
    UploadKinds(t, vbo, ibo, Uploads);
    LayoutKinds(AfterIndexUpload(AfterVertexUpload(t, vbo), ibo), vbo, ibo, vao, Uploads);
  }

  /** init describes the layout of LayoutDescribesVertex and makes no other layout call. */
  lemma InitLayout(t: Log, vbo: Handle, ibo: Handle, vao: Handle)
    ensures Filter(AfterInit(t, vbo, ibo, vao), Layouts)
         == Filter(t, Layouts)
              .Then(VertexArrayVertexBuffer(vao, VertexBinding, vbo, 0, VertexBytes))
              .Then(VertexArrayElementBuffer(vao, ibo))
              .Then(AttribFormat(vao, PositionAttrib, ComponentsPerAttrib, false, PositionOffset))
              .Then(AttribBinding(vao, PositionAttrib, VertexBinding))
              .Then(EnableAttrib(vao, PositionAttrib))
              .Then(AttribFormat(vao, ColorAttrib, ComponentsPerAttrib, false, ColorOffset))
              .Then(AttribBinding(vao, ColorAttrib, VertexBinding))
              .Then(EnableAttrib(vao, ColorAttrib))
  {
    UploadKinds(t, vbo, ibo, Layouts);
    LayoutDescribesVertex(AfterIndexUpload(AfterVertexUpload(t, vbo), ibo), vbo, ibo, vao);
  }

  /**
   * Every attribute format init issues stays inside one vertex record, the
   * vertex buffer is bound with that record's size as its stride, the index
   * buffer is the element buffer, and both attributes read binding 0 and are
   * enabled, all on the mesh's own vertex array.
   */
  lemma InitAttributesFitStride(vbo: Handle, ibo: Handle, vao: Handle, e: Event)
    requires Occurs(Filter(AfterInit(Start, vbo, ibo, vao), Layouts), e)
    ensures e.AttribFormat? ==> e.vao == vao && e.offset + e.components * FloatBytes <= VertexBytes
    ensures e.VertexArrayVertexBuffer? ==> e.vao == vao && e.buffer == vbo && e.stride == VertexBytes
    ensures e.VertexArrayElementBuffer? ==> e.vao == vao && e.buffer == ibo
    ensures e.AttribBinding? ==> e.vao == vao && e.binding == VertexBinding
    ensures e.EnableAttrib? ==> e.vao == vao && (e.attrib == PositionAttrib || e.attrib == ColorAttrib)
  {
    InitLayout(Start, vbo, ibo, vao);
    var l1 := Start.Then(VertexArrayVertexBuffer(vao, VertexBinding, vbo, 0, VertexBytes));
    var l2 := l1.Then(VertexArrayElementBuffer(vao, ibo));
    var l3 := l2.Then(AttribFormat(vao, PositionAttrib, ComponentsPerAttrib, false, PositionOffset));
    var l4 := l3.Then(AttribBinding(vao, PositionAttrib, VertexBinding));
    var l5 := l4.Then(EnableAttrib(vao, PositionAttrib));
    var l6 := l5.Then(AttribFormat(vao, ColorAttrib, ComponentsPerAttrib, false, ColorOffset));
    var l7 := l6.Then(AttribBinding(vao, ColorAttrib, VertexBinding));
    OccursThen(l7, EnableAttrib(vao, ColorAttrib), e);
    OccursThen(l6, AttribBinding(vao, ColorAttrib, VertexBinding), e);
    OccursThen(l5, AttribFormat(vao, ColorAttrib, ComponentsPerAttrib, false, ColorOffset), e);
    OccursThen(l4, EnableAttrib(vao, PositionAttrib), e);
    OccursThen(l3, AttribBinding(vao, PositionAttrib, VertexBinding), e);
    OccursThen(l2, AttribFormat(vao, PositionAttrib, ComponentsPerAttrib, false, PositionOffset), e);
    OccursThen(l1, VertexArrayElementBuffer(vao, ibo), e);
    OccursThen(Start, VertexArrayVertexBuffer(vao, VertexBinding, vbo, 0, VertexBytes), e);
  }

  /**
   * Taken together, init's creations and uploads run: create the vertex
   * buffer, upload into it, create the index buffer, upload into it, then
   * create the vertex array. Each buffer is created before its upload.
   */
  lemma InitCreatesBeforeUploads(t: Log, vbo: Handle, ibo: Handle, vao: Handle)
    ensures FilterPair(AfterInit(t, vbo, ibo, vao), Lifetimes, Uploads)
         == FilterPair(t, Lifetimes, Uploads)
              .Then(CreateBuffer(vbo)).Then(BufferStorage(vbo, VertexUploadBytes(), Vertices(CubeVertices())))
              .Then(CreateBuffer(ibo)).Then(BufferStorage(ibo, IndexUploadBytes(), Indices(CubeIndices)))
              .Then(CreateVertexArray(vao))
  {
    var k1, k2 := Lifetimes, Uploads;
    var u1 := t.Then(CreateBuffer(vbo));
    var u2 := AfterVertexUpload(t, vbo);
    var u3 := u2.Then(CreateBuffer(ibo));
    var t0 := AfterIndexUpload(u2, ibo);
    var t1 := t0.Then(CreateVertexArray(vao));
    var t2 := t1.Then(VertexArrayVertexBuffer(vao, VertexBinding, vbo, 0, VertexBytes));
    var t3 := t2.Then(VertexArrayElementBuffer(vao, ibo));
    var t4 := t3.Then(AttribFormat(vao, PositionAttrib, ComponentsPerAttrib, false, PositionOffset));
    var t5 := t4.Then(AttribBinding(vao, PositionAttrib, VertexBinding));
    var t6 := t5.Then(EnableAttrib(vao, PositionAttrib));
    var t7 := t6.Then(AttribFormat(vao, ColorAttrib, ComponentsPerAttrib, false, ColorOffset));
    var t8 := t7.Then(AttribBinding(vao, ColorAttrib, VertexBinding));
    FilterPairOwn(t, CreateBuffer(vbo), Lifetimes, k1, k2);
    FilterPairOwn(u1, BufferStorage(vbo, VertexUploadBytes(), Vertices(CubeVertices())), Uploads, k1, k2);
    FilterPairOwn(u2, CreateBuffer(ibo), Lifetimes, k1, k2);
    FilterPairOwn(u3, BufferStorage(ibo, IndexUploadBytes(), Indices(CubeIndices)), Uploads, k1, k2);
    FilterPairOwn(t0, CreateVertexArray(vao), Lifetimes, k1, k2);
    FilterPairOwn(t1, VertexArrayVertexBuffer(vao, VertexBinding, vbo, 0, VertexBytes), Layouts, k1, k2);
    FilterPairOwn(t2, VertexArrayElementBuffer(vao, ibo), Layouts, k1, k2);
    FilterPairOwn(t3, AttribFormat(vao, PositionAttrib, ComponentsPerAttrib, false, PositionOffset), Layouts, k1, k2);
    FilterPairOwn(t4, AttribBinding(vao, PositionAttrib, VertexBinding), Layouts, k1, k2);
    FilterPairOwn(t5, EnableAttrib(vao, PositionAttrib), Layouts, k1, k2);
    FilterPairOwn(t6, AttribFormat(vao, ColorAttrib, ComponentsPerAttrib, false, ColorOffset), Layouts, k1, k2);
    FilterPairOwn(t7, AttribBinding(vao, ColorAttrib, VertexBinding), Layouts, k1, k2);
    FilterPairOwn(t8, EnableAttrib(vao, ColorAttrib), Layouts, k1, k2);
  }

  /** init creates the two buffers and then the vertex array; destroy deletes them in the order index, vertex, array. */
  lemma InitDestroyLifetimes(t: Log, vbo: Handle, ibo: Handle, vao: Handle)
    ensures Filter(AfterInit(t, vbo, ibo, vao), Lifetimes)
         == Filter(t, Lifetimes).Then(CreateBuffer(vbo)).Then(CreateBuffer(ibo)).Then(CreateVertexArray(vao))
    ensures Filter(AfterDestroy(t, vbo, ibo, vao), Lifetimes)
         == Filter(t, Lifetimes).Then(DeleteBuffer(ibo)).Then(DeleteBuffer(vbo)).Then(DeleteVertexArray(vao))
  {
    UploadKinds(t, vbo, ibo, Lifetimes);
    LayoutKinds(AfterIndexUpload(AfterVertexUpload(t, vbo), ibo), vbo, ibo, vao, Lifetimes);
    FilterThen(t, DeleteBuffer(ibo), Lifetimes);
    FilterThen(t.Then(DeleteBuffer(ibo)), DeleteBuffer(vbo), Lifetimes);
    FilterThen(t.Then(DeleteBuffer(ibo)).Then(DeleteBuffer(vbo)), DeleteVertexArray(vao), Lifetimes);
  }

  /**
   * init followed by destroy leaves exactly the objects that were alive
   * before: init creates three new objects and destroy releases those three
   * and no other.
   */
  lemma InitDestroyReleasesAll(live: set<GlObject>, t: Log, vbo: Handle, ibo: Handle, vao: Handle)
    requires vbo != ibo
    requires var before := LiveAfter(live, t);
      BufferObject(vbo) !in before && BufferObject(ibo) !in before && VertexArrayObject(vao) !in before
    ensures LiveAfter(live, AfterInit(t, vbo, ibo, vao))
         == LiveAfter(live, t) + {BufferObject(vbo), BufferObject(ibo), VertexArrayObject(vao)}
    ensures LiveAfter(live, AfterDestroy(AfterInit(t, vbo, ibo, vao), vbo, ibo, vao)) == LiveAfter(live, t)
  {
    var i := AfterInit(t, vbo, ibo, vao);
    var f := Filter(t, Lifetimes);
    InitDestroyLifetimes(t, vbo, ibo, vao);
    InitDestroyLifetimes(i, vbo, ibo, vao);
    LiveAfterLifetimes(live, t);
    LiveAfterLifetimes(live, i);
    LiveAfterLifetimes(live, AfterDestroy(i, vbo, ibo, vao));
    var g := f.Then(CreateBuffer(vbo)).Then(CreateBuffer(ibo)).Then(CreateVertexArray(vao));
    LiveThen(live, f, CreateBuffer(vbo));
    LiveThen(live, f.Then(CreateBuffer(vbo)), CreateBuffer(ibo));
    LiveThen(live, f.Then(CreateBuffer(vbo)).Then(CreateBuffer(ibo)), CreateVertexArray(vao));
    LiveThen(live, g, DeleteBuffer(ibo));
    LiveThen(live, g.Then(DeleteBuffer(ibo)), DeleteBuffer(vbo));
    LiveThen(live, g.Then(DeleteBuffer(ibo)).Then(DeleteBuffer(vbo)), DeleteVertexArray(vao));
  }

  /** draw issues _index_count indices as a triangle list: 12 triangles for the cube. */
  lemma CubeDrawIsTwelveTriangles()
    ensures |CubeIndices| % 3 == 0 && |CubeIndices| / 3 == 12 && |CubeIndices| / 3 == 2 * FaceCount
  {
  }

  /**
   * The GPU-side geometry. The source leaves the handle fields uninitialised
   * until init; here they start at 0.
   */
  class Mesh {
    var bufferVertices: Handle
    var bufferIndices: Handle
    var bufferMesh: Handle
    var indexCount: nat

    constructor ()
      ensures bufferVertices == 0 && bufferIndices == 0 && bufferMesh == 0 && indexCount == 0
    {
      bufferVertices, bufferIndices, bufferMesh, indexCount := 0, 0, 0, 0;
    }

    /** Mesh::init: uploads the cube tables and describes the layout. */
    method Init(ctx: Context)
      modifies this, ctx
      ensures indexCount == |CubeIndices| == 36
      ensures bufferVertices == old(ctx.nextName) && bufferIndices == bufferVertices + 1
      ensures bufferMesh == bufferVertices + 2 && ctx.nextName == bufferVertices + 3
      ensures ctx.trace == AfterInit(old(ctx.trace), bufferVertices, bufferIndices, bufferMesh)
      ensures ctx.captured == old(ctx.captured)
    {
      indexCount := |CubeIndices|;
      var vbo := UploadVertices(ctx);
      var ibo := UploadIndices(ctx);
      var vao := DescribeLayout(ctx, vbo, ibo);
      // glCreateBuffers and glCreateVertexArrays store the names into the fields
      bufferVertices, bufferIndices, bufferMesh := vbo, ibo, vao;
    }

    /** The first block of Mesh::init: the vertex buffer. */
    static method UploadVertices(ctx: Context) returns (vbo: Handle)
      modifies ctx
      ensures vbo == old(ctx.nextName) && ctx.nextName == vbo + 1
      ensures ctx.trace == AfterVertexUpload(old(ctx.trace), vbo)
      ensures ctx.captured == old(ctx.captured)
    {
      vbo := ctx.NewName();
      ctx.Emit(CreateBuffer(vbo));
      ctx.Emit(BufferStorage(vbo, VertexUploadBytes(), Vertices(CubeVertices())));
    }

    /** The second block of Mesh::init: the index buffer. */
    static method UploadIndices(ctx: Context) returns (ibo: Handle)
      modifies ctx
      ensures ibo == old(ctx.nextName) && ctx.nextName == ibo + 1
      ensures ctx.trace == AfterIndexUpload(old(ctx.trace), ibo)
      ensures ctx.captured == old(ctx.captured)
    {
      ibo := ctx.NewName();
      ctx.Emit(CreateBuffer(ibo));
      ctx.Emit(BufferStorage(ibo, IndexUploadBytes(), Indices(CubeIndices)));
    }

    /** The third block of Mesh::init: the vertex array and its two attributes. */
    static method DescribeLayout(ctx: Context, vbo: Handle, ibo: Handle) returns (vao: Handle)
      modifies ctx
      ensures vao == old(ctx.nextName) && ctx.nextName == vao + 1
      ensures ctx.trace == AfterLayout(old(ctx.trace), vbo, ibo, vao)
      ensures ctx.captured == old(ctx.captured)
    {
      vao := ctx.NewName();
      ctx.Emit(CreateVertexArray(vao));
      ctx.Emit(VertexArrayVertexBuffer(vao, VertexBinding, vbo, 0, VertexBytes));
      ctx.Emit(VertexArrayElementBuffer(vao, ibo));
      ctx.Emit(AttribFormat(vao, PositionAttrib, ComponentsPerAttrib, false, PositionOffset));
      ctx.Emit(AttribBinding(vao, PositionAttrib, VertexBinding));
      ctx.Emit(EnableAttrib(vao, PositionAttrib));
      ctx.Emit(AttribFormat(vao, ColorAttrib, ComponentsPerAttrib, false, ColorOffset));
      ctx.Emit(AttribBinding(vao, ColorAttrib, VertexBinding));
      ctx.Emit(EnableAttrib(vao, ColorAttrib));
    }

    /** Mesh::destroy: deletes the index buffer, the vertex buffer, the vertex array. */
    method Destroy(ctx: Context)
      modifies ctx
      ensures ctx.trace == AfterDestroy(old(ctx.trace), bufferVertices, bufferIndices, bufferMesh)
      ensures ctx.nextName == old(ctx.nextName) && ctx.captured == old(ctx.captured)
    {
      ctx.Emit(DeleteBuffer(bufferIndices));
      ctx.Emit(DeleteBuffer(bufferVertices));
      ctx.Emit(DeleteVertexArray(bufferMesh));
    }

    method Bind(ctx: Context)
      modifies ctx
      ensures ctx.trace == old(ctx.trace).Then(BindVertexArray(bufferMesh))
      ensures ctx.nextName == old(ctx.nextName) && ctx.captured == old(ctx.captured)
    {
      ctx.Emit(BindVertexArray(bufferMesh));
    }

    /** Mesh::draw: one indexed triangle-list draw of exactly _index_count indices. */
    method Draw(ctx: Context)
      modifies ctx
      ensures ctx.trace == old(ctx.trace).Then(DrawTriangles(indexCount))
      ensures ctx.nextName == old(ctx.nextName) && ctx.captured == old(ctx.captured)
    {
      ctx.Emit(DrawTriangles(indexCount));
    }
  }
}
