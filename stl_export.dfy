/** The STL variant of the exporter: the binary STL encoder `mesh_to_stl_binary` and the
    per-element loop of `get_metadata` that pairs each element's STL bytes with its
    metadata. Binary STL is an 80-byte header, a little-endian 32-bit triangle count and
    one 50-byte record per triangle (normal, three vertices, attribute byte count). */
module StlExport {
  import opened Wrappers
  import opened IfcGraph
  import opened ArchiCad
  import opened IfcExport

  type byte = x: int | 0 <= x < 256

  /** What `struct.pack("<f", x)` returns: four bytes. */
  type Word4 = s: seq<byte> | |s| == 4 witness [0, 0, 0, 0]

  /** The IEEE-754 single-precision packing, which this model does not define. */
  type FloatPacker = real -> Word4

  const TwoTo32: nat := 0x1_0000_0000

  function Zeros(n: nat): (r: seq<byte>)
    ensures |r| == n && forall i :: 0 <= i < n ==> r[i] == 0
  {
    seq(n, _ => 0 as byte)
  }

  /** `struct.pack("<I", n)`. */
  function U32LE(n: nat): (r: seq<byte>)
    requires n < TwoTo32
    ensures |r| == 4
  {
    [n % 256, (n / 256) % 256, (n / 65536) % 256, n / 16777216]
  }

  /** `struct.unpack("<I", b)`. */
  function DecodeU32LE(b: seq<byte>): nat
    requires |b| == 4
  {
    b[0] as int + 256 * b[1] as int + 65536 * b[2] as int + 16777216 * b[3] as int
  }

  lemma U32RoundTrip(n: nat)
    requires n < TwoTo32
    ensures DecodeU32LE(U32LE(n)) == n
  {
    var q1 := n / 256;
    var q2 := q1 / 256;
    var q3 := q2 / 256;
    assert n == 256 * q1 + n % 256;
    assert q1 == 256 * q2 + q1 % 256;
    assert q2 == 256 * q3 + q2 % 256;
    assert n / 65536 == q2;
    assert n / 16777216 == q3;
    assert q3 < 256;
  }

  /** One base-256 digit comes back off the bottom of a number. */
  lemma SplitByte(lo: byte, hi: nat)
    ensures (lo + 256 * hi) % 256 == lo && (lo + 256 * hi) / 256 == hi
  {
  }

  lemma U32DecodeRoundTrip(b: seq<byte>)
    requires |b| == 4
    ensures DecodeU32LE(b) < TwoTo32 && U32LE(DecodeU32LE(b)) == b
  {
    var n := DecodeU32LE(b);
    var q2 := b[2] as int + 256 * b[3] as int;
    var q1 := b[1] as int + 256 * q2;
    assert n == b[0] as int + 256 * q1;
    SplitByte(b[0], q1);
    SplitByte(b[1], q2);
    SplitByte(b[2], b[3]);
    assert n / 65536 == (n / 256) / 256;
    assert n / 16777216 == (n / 65536) / 256;
  }

  /** The triangles `0 .. k - 1` exist and their vertex indices are in range. */
  predicate TrianglesValid(m: Mesh, k: nat) {
    3 * k <= |m.faces| && forall i :: 0 <= i < 3 * k ==> 3 * m.faces[i] + 2 < |m.verts|
  }

  /** The three coordinates of vertex `v` (an index into the flat list, `3 * face`). */
  function PackVertex(pack: FloatPacker, verts: seq<real>, v: nat): (r: seq<byte>)
    requires v + 2 < |verts|
    ensures |r| == 12
  {
    pack(verts[v]) + pack(verts[v + 1]) + pack(verts[v + 2])
  }

  /** The five appends of one loop iteration: a zero normal, the vertices at flat
      offsets `v1`, `v2`, `v3`, and a zero attribute byte count. */
  function PackTriangle(pack: FloatPacker, verts: seq<real>, v1: nat, v2: nat, v3: nat): (r: seq<byte>)
    requires v1 + 2 < |verts| && v2 + 2 < |verts| && v3 + 2 < |verts|
    ensures |r| == 50
  {
    pack(0.0) + pack(0.0) + pack(0.0) +
    PackVertex(pack, verts, v1) + PackVertex(pack, verts, v2) + PackVertex(pack, verts, v3) +
    [0, 0]
  }

  /** The 50-byte record of triangle `t`. */
  function TriangleRecord(pack: FloatPacker, m: Mesh, t: nat): (r: seq<byte>)
    requires TrianglesValid(m, t + 1)
    ensures |r| == 50
  {
    PackTriangle(pack, m.verts, 3 * m.faces[3 * t], 3 * m.faces[3 * t + 1], 3 * m.faces[3 * t + 2])
  }

  /** The concatenation of `chunks`, in order. */
  function Concat(chunks: seq<seq<byte>>): (r: seq<byte>)
    ensures (forall c <- chunks :: |c| == 50) ==> |r| == 50 * |chunks|
  {
    if chunks == [] then [] else Concat(chunks[..|chunks| - 1]) + chunks[|chunks| - 1]
  }

  /** The records of triangles `0 .. k - 1`, one per triangle, in face order. */
  function RecordList(pack: FloatPacker, m: Mesh, k: nat): (r: seq<seq<byte>>)
    requires TrianglesValid(m, k)
    ensures |r| == k && forall c <- r :: |c| == 50
  {
    if k == 0 then [] else RecordList(pack, m, k - 1) + [TriangleRecord(pack, m, k - 1)]
  }

  /** The record bytes of triangles `0 .. k - 1`. */
  function Records(pack: FloatPacker, m: Mesh, k: nat): (r: seq<byte>)
    requires TrianglesValid(m, k)
    ensures |r| == 50 * k
  {
    Concat(RecordList(pack, m, k))
  }

  /** The meshes `mesh_to_stl_binary` encodes without raising: whole triangles, a count
      that fits the 32-bit field, and vertex indices within the vertex list. */
  predicate Encodable(m: Mesh) {
    |m.faces| % 3 == 0 && |m.faces| / 3 < TwoTo32 && TrianglesValid(m, |m.faces| / 3)
  }

  /** `mesh_to_stl_binary`, `None` where it raises. */
  function StlBinary(pack: FloatPacker, m: Mesh): (r: Option<seq<byte>>)
    ensures r.Some? ==> |r.value| == 84 + 50 * (|m.faces| / 3)
  {
    if Encodable(m) then
      var n := |m.faces| / 3;
      Some(Zeros(80) + U32LE(n) + Records(pack, m, n))
    else None
  }

  /** Encoding fails exactly on a partial last triangle, a count too large for the
      32-bit field, or a vertex index past the end of the vertex list. */
  lemma StlRejects(pack: FloatPacker, m: Mesh)
    ensures StlBinary(pack, m).None? <==>
              |m.faces| % 3 != 0 || |m.faces| / 3 >= TwoTo32 ||
              exists i :: 0 <= i < |m.faces| && 3 * m.faces[i] + 2 >= |m.verts|
  {
  }

  /** The header is 80 zero bytes followed by the triangle count. */
  lemma StlHeader(pack: FloatPacker, m: Mesh)
    requires StlBinary(pack, m).Some?
    ensures var b := StlBinary(pack, m).value;
            b[..80] == Zeros(80) && DecodeU32LE(b[80..84]) == |m.faces| / 3
  {
    var n := |m.faces| / 3;
    var b := StlBinary(pack, m).value;
    assert b[..80] == Zeros(80);
    assert b[80..84] == U32LE(n);
    U32RoundTrip(n);
  }

  /** A slice past the end of `a` is a slice of `b`. */
  lemma SliceOfSuffix(a: seq<byte>, b: seq<byte>, lo: nat, hi: nat)
    requires lo <= hi <= |b|
    ensures (a + b)[|a| + lo .. |a| + hi] == b[lo..hi]
  {
  }

  /** Appending a chunk appends its bytes. */
  lemma ConcatAppend(chunks: seq<seq<byte>>, c: seq<byte>)
    ensures Concat(chunks + [c]) == Concat(chunks) + c
  {
    assert (chunks + [c])[..|chunks|] == chunks;
  }

  /** In a concatenation of 50-byte chunks, chunk `t` is the 50 bytes at offset `50 t`. */
  lemma {:induction false} ConcatAt(chunks: seq<seq<byte>>, t: nat)
    requires forall c <- chunks :: |c| == 50
    requires t < |chunks|
    ensures Concat(chunks)[50 * t .. 50 * t + 50] == chunks[t]
    decreases |chunks|
  {
    var front := chunks[..|chunks| - 1];
    var last := chunks[|chunks| - 1];
    assert forall c <- front :: c in chunks;
    assert Concat(chunks) == Concat(front) + last;
    if t < |chunks| - 1 {
      ConcatAt(front, t);
      assert front[t] == chunks[t];
      assert (Concat(front) + last)[50 * t .. 50 * t + 50] == Concat(front)[50 * t .. 50 * t + 50];
    }
  }

  /** Entry `t` of the record list is the record of triangle `t`. */
  lemma {:induction false} RecordListAt(pack: FloatPacker, m: Mesh, k: nat, t: nat)
    requires TrianglesValid(m, k) && t < k
    ensures RecordList(pack, m, k)[t] == TriangleRecord(pack, m, t)
    decreases k
  {
    assert TrianglesValid(m, k - 1);
    if t < k - 1 {
      RecordListAt(pack, m, k - 1, t);
    }
  }

  lemma RecordsAt(pack: FloatPacker, m: Mesh, k: nat, t: nat)
    requires TrianglesValid(m, k) && t < k
    ensures Records(pack, m, k)[50 * t .. 50 * t + 50] == TriangleRecord(pack, m, t)
  {
    ConcatAt(RecordList(pack, m, k), t);
    RecordListAt(pack, m, k, t);
  }

  /** Triangle `t` is the 50 bytes at offset `84 + 50 t`: records follow face order, one
      per index triple. */
  lemma StlTriangleAt(pack: FloatPacker, m: Mesh, t: nat)
    requires StlBinary(pack, m).Some? && t < |m.faces| / 3
    ensures StlBinary(pack, m).value[84 + 50 * t .. 84 + 50 * t + 50] == TriangleRecord(pack, m, t)
  {
    var n := |m.faces| / 3;
    RecordsAt(pack, m, n, t);
    SliceOfSuffix(Zeros(80) + U32LE(n), Records(pack, m, n), 50 * t, 50 * t + 50);
  }

  /** A triangle record is the packed zero normal, the three vertices `vertices[3 f ..
      3 f + 2]` of the triangle's face indices `f`, and two zero attribute bytes. */
  lemma TriangleRecordLayout(pack: FloatPacker, m: Mesh, t: nat)
    requires TrianglesValid(m, t + 1)
    ensures var r := TriangleRecord(pack, m, t);
            && r[..12] == pack(0.0) + pack(0.0) + pack(0.0)
            && (forall k :: 0 <= k < 3 ==>
                  r[12 + 12 * k .. 24 + 12 * k] == PackVertex(pack, m.verts, 3 * m.faces[3 * t + k]))
            && r[48..] == [0, 0]
  {
    var r := TriangleRecord(pack, m, t);
    var normal := pack(0.0) + pack(0.0) + pack(0.0);
    var v0 := PackVertex(pack, m.verts, 3 * m.faces[3 * t]);
    var v1 := PackVertex(pack, m.verts, 3 * m.faces[3 * t + 1]);
    var v2 := PackVertex(pack, m.verts, 3 * m.faces[3 * t + 2]);
    assert r == normal + v0 + v1 + v2 + [0, 0];
    assert r[12..24] == v0 && r[24..36] == v1 && r[36..48] == v2;
  }

  lemma PartialTriangleRejected(m: Mesh, t: nat)
    requires 3 * t < |m.faces| <= 3 * t + 2
    ensures !Encodable(m)
  {
  }

  lemma BadIndexRejected(m: Mesh, t: nat)
    requires 3 * t + 2 < |m.faces|
    requires 3 * m.faces[3 * t] + 2 >= |m.verts| || 3 * m.faces[3 * t + 1] + 2 >= |m.verts| ||
             3 * m.faces[3 * t + 2] + 2 >= |m.verts|
    ensures !Encodable(m)
  {
  }

  lemma AllTriangles(m: Mesh, t: nat)
    requires 3 * t == |m.faces|
    ensures |m.faces| % 3 == 0 && |m.faces| / 3 == t
  {
  }

  lemma ValidExtends(m: Mesh, t: nat)
    requires TrianglesValid(m, t) && 3 * t + 2 < |m.faces|
    requires 3 * m.faces[3 * t] + 2 < |m.verts| && 3 * m.faces[3 * t + 1] + 2 < |m.verts|
    requires 3 * m.faces[3 * t + 2] + 2 < |m.verts|
    ensures TrianglesValid(m, t + 1)
  {
  }

  /** One loop step: appending the packed triangle at the flat offsets of triangle `t`
      extends the records by triangle `t`. */
  lemma AppendRecord(pack: FloatPacker, m: Mesh, t: nat, header: seq<byte>, data: seq<byte>,
                     v1: nat, v2: nat, v3: nat)
    requires TrianglesValid(m, t) && data == header + Records(pack, m, t) && 3 * t + 2 < |m.faces|
    requires v1 == 3 * m.faces[3 * t] && v2 == 3 * m.faces[3 * t + 1] && v3 == 3 * m.faces[3 * t + 2]
    requires v1 + 2 < |m.verts| && v2 + 2 < |m.verts| && v3 + 2 < |m.verts|
    ensures TrianglesValid(m, t + 1)
    ensures data + PackTriangle(pack, m.verts, v1, v2, v3) == header + Records(pack, m, t + 1)
  {
    ValidExtends(m, t);
    assert PackTriangle(pack, m.verts, v1, v2, v3) == TriangleRecord(pack, m, t);
    ConcatAppend(RecordList(pack, m, t), TriangleRecord(pack, m, t));
    AppendAssoc(header, Records(pack, m, t), TriangleRecord(pack, m, t));
  }

  /** `mesh_to_stl_binary`: the header, then one record per index triple, grown in a
      stepped loop; `None` where Python raises. */
  method MeshToStlBinary(pack: FloatPacker, verts: seq<real>, faces: seq<nat>) returns (r: Option<seq<byte>>)
    ensures r == StlBinary(pack, Mesh(verts, faces))
  {
    var m := Mesh(verts, faces);
    var numTriangles := |faces| / 3;
    if numTriangles >= TwoTo32 {
      return None;
    }
    var data := Zeros(80);
    data := data + U32LE(numTriangles);
    ghost var header := data;
    var i := 0;
    ghost var t := 0;
    while i < |faces|
      invariant i == 3 * t && i <= |faces|
      invariant TrianglesValid(m, t)
      invariant data == header + Records(pack, m, t)
    {
      if i + 2 >= |faces| {
        PartialTriangleRejected(m, t);
        return None;
      }
      var v1 := faces[i] * 3;
      var v2 := faces[i + 1] * 3;
      var v3 := faces[i + 2] * 3;
      if v1 + 2 >= |verts| || v2 + 2 >= |verts| || v3 + 2 >= |verts| {
        BadIndexRejected(m, t);
        return None;
      }
      AppendRecord(pack, m, t, header, data, v1, v2, v3);
      data := data + PackTriangle(pack, verts, v1, v2, v3);
      i := i + 3;
      t := t + 1;
    }
    AllTriangles(m, t);
    r := Some(data);
  }

  // ---------------------------------------------------------------------------------
  // get_metadata
  // ---------------------------------------------------------------------------------

  /** What is stored for one element: its GlobalId, its STL bytes and its metadata. */
  datatype StlRecord = StlRecord(globalId: string, stl: seq<byte>, metadata: map<string, Attr>)

  /** The body of the `try` for one element, `None` where it skips the element or raises:
      no `Body` representation, no shape for it, or an encoding error. */
  function ExportOne(g: Graph, shapes: ShapeOracle, pack: FloatPacker, el: Id): Option<StlRecord>
    requires WellFormed(g) && el in g.entities && g.entities[el].Object?
  {
    var e := g.entities[el];
    match FirstBody(g, e.representations)
    case None => None
    case Some(body) =>
      match shapes(body)
      case None => None
      case Some(mesh) =>
        match StlBinary(pack, mesh)
        case None => None
        case Some(stl) => Some(StlRecord(e.globalId, stl, ProjectMetadata(ArchiCadProps(g, el), e.kind)))
  }

  /** An element is stored exactly when it has a `Body` representation whose shape can
      be built and encoded; it is stored with its GlobalId, the STL bytes of that shape
      and its projected metadata. */
  lemma ExportOneStores(g: Graph, shapes: ShapeOracle, pack: FloatPacker, el: Id)
    requires WellFormed(g) && el in g.entities && g.entities[el].Object?
    ensures var r := ExportOne(g, shapes, pack, el);
            var body := FirstBody(g, g.entities[el].representations);
            && (r.Some? <==> body.Some? && shapes(body.value).Some? && Encodable(shapes(body.value).value))
            && (r.Some? ==>
                  && r.value.globalId == g.entities[el].globalId
                  && r.value.metadata == ProjectMetadata(ArchiCadProps(g, el), g.entities[el].kind)
                  && r.value.stl == StlBinary(pack, shapes(body.value).value).value
                  && |r.value.stl| == 84 + 50 * (|shapes(body.value).value.faces| / 3))
  {
  }

  /** The outcome of each element's `try`, in element order. */
  function Attempts(g: Graph, shapes: ShapeOracle, pack: FloatPacker, els: seq<Id>): (r: seq<Option<StlRecord>>)
    requires WellFormed(g) && Objects(g, els)
    ensures |r| == |els| && forall i :: 0 <= i < |els| ==> r[i] == ExportOne(g, shapes, pack, els[i])
  {
    seq(|els|, i requires 0 <= i < |els| => ExportOne(g, shapes, pack, els[i]))
  }

  /** What `get_metadata(elements)` stores, in element order. */
  function ExportAll(g: Graph, shapes: ShapeOracle, pack: FloatPacker, els: seq<Id>): seq<StlRecord>
    requires WellFormed(g) && Objects(g, els)
  {
    Somes(Attempts(g, shapes, pack, els))
  }

  /** Each element is handled on its own: skipping or failing on one changes nothing for
      the elements before or after it. */
  lemma ExportAllAppend(g: Graph, shapes: ShapeOracle, pack: FloatPacker, xs: seq<Id>, ys: seq<Id>)
    requires WellFormed(g) && Objects(g, xs) && Objects(g, ys)
    ensures Objects(g, xs + ys)
    ensures ExportAll(g, shapes, pack, xs + ys) == ExportAll(g, shapes, pack, xs) + ExportAll(g, shapes, pack, ys)
  {
    assert Objects(g, xs + ys);
    var a := Attempts(g, shapes, pack, xs + ys);
    var b := Attempts(g, shapes, pack, xs) + Attempts(g, shapes, pack, ys);
    forall i | 0 <= i < |a|
      ensures a[i] == b[i]
    {
      if i < |xs| {
        assert (xs + ys)[i] == xs[i];
      } else {
        assert (xs + ys)[i] == ys[i - |xs|];
      }
    }
    assert a == b;
    SomesAppend(Attempts(g, shapes, pack, xs), Attempts(g, shapes, pack, ys));
  }

  /** Exactly the elements that export are stored, one record each. */
  lemma ExportAllRecords(g: Graph, shapes: ShapeOracle, pack: FloatPacker, els: seq<Id>)
    requires WellFormed(g) && Objects(g, els)
    ensures |ExportAll(g, shapes, pack, els)| <= |els|
    ensures forall r :: r in ExportAll(g, shapes, pack, els) <==>
              exists i :: 0 <= i < |els| && ExportOne(g, shapes, pack, els[i]) == Some(r)
  {
    var a := Attempts(g, shapes, pack, els);
    SomesMembers(a);
    forall r ensures r in ExportAll(g, shapes, pack, els) <==>
                       exists i :: 0 <= i < |els| && ExportOne(g, shapes, pack, els[i]) == Some(r) {
      if i :| 0 <= i < |els| && ExportOne(g, shapes, pack, els[i]) == Some(r) {
        assert a[i] == Some(r);
      }
    }
  }

  /** `get_metadata`: the loop over elements, each in its own `try`. */
  method ExportStl(g: Graph, shapes: ShapeOracle, pack: FloatPacker, els: seq<Id>) returns (stored: seq<StlRecord>)
    requires WellFormed(g) && Objects(g, els)
    ensures stored == ExportAll(g, shapes, pack, els)
  {
    stored := [];
    for i := 0 to |els|
      invariant stored == ExportAll(g, shapes, pack, els[..i])
    {
      assert Attempts(g, shapes, pack, els[..i + 1]) ==
             Attempts(g, shapes, pack, els[..i]) + [ExportOne(g, shapes, pack, els[i])];
      SomesAppend(Attempts(g, shapes, pack, els[..i]), [ExportOne(g, shapes, pack, els[i])]);
      var element := g.entities[els[i]];
      var bodyRep := FindBody(g, element.representations);
      if bodyRep.None? {
        continue;
      }
      var shape := shapes(bodyRep.value);
      if shape.None? {
        continue;
      }
      var stlBinary := MeshToStlBinary(pack, shape.value.verts, shape.value.faces);
      if stlBinary.None? {
        continue;
      }
      var archicadProps := CollectArchiCadProps(g, els[i]);
      var metadata := ProjectMetadata(archicadProps, element.kind);
      stored := stored + [StlRecord(element.globalId, stlBinary.value, metadata)];
    }
    assert els[..|els|] == els;
  }
}
