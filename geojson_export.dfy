/** The GeoJSON variant of the exporter: `mesh_to_geojson_polygons`, which turns a flat
    mesh into a FeatureCollection with one triangular Polygon feature per index triple
    (RFC 7946, sections 3.1.6, 3.2 and 3.3), and the per-element loop of `get_metadata`. */
module GeoJsonExport {
  import opened Wrappers
  import opened IfcGraph
  import opened ArchiCad
  import opened IfcExport

  /** A JSON value as the encoder builds it (dicts, lists, strings and floats). */
  datatype Json = Num(x: real) | Str(s: string) | Arr(items: seq<Json>) | Obj(fields: map<string, Json>)

  /** `s[lo:hi]` for `0 <= lo <= hi`: Python clamps both bounds to the length. */
  function PySlice<T>(s: seq<T>, lo: nat, hi: nat): (r: seq<T>)
    requires lo <= hi
    ensures |r| <= hi - lo
    ensures hi <= |s| ==> r == s[lo..hi]
    ensures lo <= |s| < hi ==> r == s[lo..] && |r| < hi - lo
    ensures |s| < lo ==> r == []
  {
    var a := if lo < |s| then lo else |s|;
    var b := if hi < |s| then hi else |s|;
    s[a..b]
  }

  function Numbers(xs: seq<real>): (r: seq<Json>)
    ensures |r| == |xs| && forall i :: 0 <= i < |xs| ==> r[i] == Num(xs[i])
  {
    seq(|xs|, i requires 0 <= i < |xs| => Num(xs[i]))
  }

  /** `vertices[idx * 3 : idx * 3 + 3]` as a JSON list. */
  function Position(verts: seq<real>, idx: nat): Json {
    Arr(Numbers(PySlice(verts, 3 * idx, 3 * idx + 3)))
  }

  /** The feature of triangle `t`: its ring repeats the first vertex at the end. */
  function Feature(m: Mesh, t: nat): Json
    requires 3 * t + 2 < |m.faces|
  {
    var v1 := Position(m.verts, m.faces[3 * t]);
    var v2 := Position(m.verts, m.faces[3 * t + 1]);
    var v3 := Position(m.verts, m.faces[3 * t + 2]);
    Obj(map[
      "type" := Str("Feature"),
      "geometry" := Obj(map["type" := Str("Polygon"), "coordinates" := Arr([Arr([v1, v2, v3, v1])])]),
      "properties" := Obj(map[])])
  }

  /** The features of triangles `0 .. k - 1`, in face order. */
  function Features(m: Mesh, k: nat): (r: seq<Json>)
    requires 3 * k <= |m.faces|
    ensures |r| == k
  {
    if k == 0 then [] else Features(m, k - 1) + [Feature(m, k - 1)]
  }

  /** `mesh_to_geojson_polygons`, `None` where it raises: a face list that does not split
      into whole triangles makes `faces[i + 1]` or `faces[i + 2]` fail. Vertex slices past
      the end of the list do not raise; they come out short. */
  function GeoJson(m: Mesh): (r: Option<Json>)
    ensures r.None? <==> |m.faces| % 3 != 0
  {
    if |m.faces| % 3 == 0 then
      Some(Obj(map["type" := Str("FeatureCollection"), "features" := Arr(Features(m, |m.faces| / 3))]))
    else None
  }

  // ---------------------------------------------------------------------------------
  // The shape RFC 7946 asks of the result
  // ---------------------------------------------------------------------------------

  /** A position: two or more numbers (RFC 7946, section 3.1.1). */
  predicate IsPosition(p: Json) {
    p.Arr? && |p.items| >= 2 && forall c <- p.items :: c.Num?
  }

  /** A linear ring: four or more positions, the first equal to the last (RFC 7946, section 3.1.6). */
  predicate IsLinearRing(ring: Json) {
    ring.Arr? && |ring.items| >= 4 && ring.items[0] == ring.items[|ring.items| - 1]
  }

  /** A Feature object whose geometry is a Polygon (RFC 7946, sections 3.1.6 and 3.2). */
  predicate IsPolygonFeature(f: Json) {
    && f.Obj?
    && "type" in f.fields && f.fields["type"] == Str("Feature")
    && "properties" in f.fields
    && "geometry" in f.fields && f.fields["geometry"].Obj?
    && var geometry := f.fields["geometry"].fields;
       && "type" in geometry && geometry["type"] == Str("Polygon")
       && "coordinates" in geometry && geometry["coordinates"].Arr?
       && forall ring <- geometry["coordinates"].items :: IsLinearRing(ring)
  }

  /** The ring of a feature built by this encoder. */
  function RingOf(f: Json): seq<Json>
    requires f.Obj? && "geometry" in f.fields && f.fields["geometry"].Obj?
    requires "coordinates" in f.fields["geometry"].fields
    requires f.fields["geometry"].fields["coordinates"].Arr?
    requires |f.fields["geometry"].fields["coordinates"].items| > 0
    requires f.fields["geometry"].fields["coordinates"].items[0].Arr?
  {
    f.fields["geometry"].fields["coordinates"].items[0].items
  }

  /** Each feature is a Polygon feature with a single closed ring of four positions: the
      triangle's three vertices and the first one again, with empty properties. */
  lemma FeatureIsClosedTriangle(m: Mesh, t: nat)
    requires 3 * t + 2 < |m.faces|
    ensures var f := Feature(m, t);
            && IsPolygonFeature(f)
            && |f.fields["geometry"].fields["coordinates"].items| == 1
            && RingOf(f) == [Position(m.verts, m.faces[3 * t]), Position(m.verts, m.faces[3 * t + 1]),
                             Position(m.verts, m.faces[3 * t + 2]), Position(m.verts, m.faces[3 * t])]
            && f.fields["properties"] == Obj(map[])
  {
    var f := Feature(m, t);
    var ring := f.fields["geometry"].fields["coordinates"].items[0];
    assert IsLinearRing(ring);
  }

  /** A vertex comes out as the three coordinates `vertices[3 idx .. 3 idx + 2]` exactly
      when the vertex exists; an index past the end gives a shorter list, which is not a
      valid position once fewer than two coordinates remain. */
  lemma PositionIsVertexSlice(verts: seq<real>, idx: nat)
    ensures 3 * idx + 3 <= |verts| ==>
              Position(verts, idx) == Arr([Num(verts[3 * idx]), Num(verts[3 * idx + 1]), Num(verts[3 * idx + 2])])
    ensures |Position(verts, idx).items| == 3 <==> 3 * idx + 3 <= |verts|
    ensures IsPosition(Position(verts, idx)) <==> 3 * idx + 2 <= |verts|
  {
    var items := Position(verts, idx).items;
    if 3 * idx + 3 <= |verts| {
      assert items == [Num(verts[3 * idx]), Num(verts[3 * idx + 1]), Num(verts[3 * idx + 2])];
    }
  }

  lemma {:induction false} FeaturesAt(m: Mesh, k: nat, t: nat)
    requires 3 * k <= |m.faces| && t < k
    ensures Features(m, k)[t] == Feature(m, t)
    decreases k
  {
    if t < k - 1 {
      FeaturesAt(m, k - 1, t);
    }
  }

  /** The result is a FeatureCollection with one feature per index triple, in face
      order, each a closed triangle (RFC 7946, sections 3.2 and 3.3). */
  lemma GeoJsonShape(m: Mesh)
    requires GeoJson(m).Some?
    ensures var fc := GeoJson(m).value;
            && fc.Obj? && "type" in fc.fields && fc.fields["type"] == Str("FeatureCollection")
            && "features" in fc.fields && fc.fields["features"].Arr?
            && |fc.fields["features"].items| == |m.faces| / 3
            && forall t :: 0 <= t < |m.faces| / 3 ==>
                 fc.fields["features"].items[t] == Feature(m, t) && IsPolygonFeature(Feature(m, t))
  {
    var n := |m.faces| / 3;
    forall t | 0 <= t < n ensures Features(m, n)[t] == Feature(m, t) && IsPolygonFeature(Feature(m, t)) {
      FeaturesAt(m, n, t);
      FeatureIsClosedTriangle(m, t);
    }
  }

  /** `mesh_to_geojson_polygons`: appends one feature per index triple in a stepped
      loop, then wraps the list in a FeatureCollection. */
  method MeshToGeoJsonPolygons(verts: seq<real>, faces: seq<nat>) returns (r: Option<Json>)
    ensures r == GeoJson(Mesh(verts, faces))
  {
    var m := Mesh(verts, faces);
    var features: seq<Json> := [];
    var i := 0;
    ghost var t := 0;
    while i < |faces|
      invariant i == 3 * t && i <= |faces|
      invariant features == Features(m, t)
    {
      if i + 2 >= |faces| {
        assert |faces| % 3 != 0;
        return None;
      }
      var idx1, idx2, idx3 := faces[i], faces[i + 1], faces[i + 2];
      var v1 := PySlice(verts, idx1 * 3, idx1 * 3 + 3);
      var v2 := PySlice(verts, idx2 * 3, idx2 * 3 + 3);
      var v3 := PySlice(verts, idx3 * 3, idx3 * 3 + 3);
      var polygonCoords := [Arr(Numbers(v1)), Arr(Numbers(v2)), Arr(Numbers(v3)), Arr(Numbers(v1))];
      var feature := Obj(map[
        "type" := Str("Feature"),
        "geometry" := Obj(map["type" := Str("Polygon"), "coordinates" := Arr([Arr(polygonCoords)])]),
        "properties" := Obj(map[])]);
      assert idx1 == m.faces[3 * t] && idx2 == m.faces[3 * t + 1] && idx3 == m.faces[3 * t + 2];
      assert polygonCoords[0] == Position(m.verts, m.faces[3 * t]);
      assert polygonCoords[1] == Position(m.verts, m.faces[3 * t + 1]);
      assert polygonCoords[2] == Position(m.verts, m.faces[3 * t + 2]);
      assert feature == Feature(m, t);
      features := features + [feature];
      i := i + 3;
      t := t + 1;
    }
    assert |faces| % 3 == 0 && |faces| / 3 == t;
    r := Some(Obj(map["type" := Str("FeatureCollection"), "features" := Arr(features)]));
  }

  // ---------------------------------------------------------------------------------
  // get_metadata
  // ---------------------------------------------------------------------------------

  /** What is stored for one element: its GlobalId, its GeoJSON and its metadata. */
  datatype GeoRecord = GeoRecord(globalId: string, geometry: Json, metadata: map<string, Attr>)

  /** The body of the `try` for one element, `None` where it skips the element or raises:
      no shape, an empty vertex or face list, or a face list of partial triangles. */
  function ExportOne(g: Graph, shapes: ShapeOracle, el: Id): Option<GeoRecord>
    requires WellFormed(g) && el in g.entities && g.entities[el].Object?
  {
    var e := g.entities[el];
    match shapes(el)
    case None => None
    case Some(mesh) =>
      if mesh.verts == [] || mesh.faces == [] then None
      else
        match GeoJson(mesh)
        case None => None
        case Some(json) => Some(GeoRecord(e.globalId, json, ProjectMetadata(ArchiCadProps(g, el), e.kind)))
  }

  /** An element is stored exactly when its shape exists, is not empty, and splits into
      whole triangles; it is stored with its GlobalId, the GeoJSON of that shape and its
      projected metadata. */
  lemma ExportOneStores(g: Graph, shapes: ShapeOracle, el: Id)
    requires WellFormed(g) && el in g.entities && g.entities[el].Object?
    ensures var r := ExportOne(g, shapes, el);
            var mesh := shapes(el);
            && (r.Some? <==> mesh.Some? && mesh.value.verts != [] && mesh.value.faces != [] &&
                             |mesh.value.faces| % 3 == 0)
            && (r.Some? ==>
                  && r.value.globalId == g.entities[el].globalId
                  && r.value.metadata == ProjectMetadata(ArchiCadProps(g, el), g.entities[el].kind)
                  && Some(r.value.geometry) == GeoJson(mesh.value))
  {
  }

  /** The outcome of each element's `try`, in element order. */
  function Attempts(g: Graph, shapes: ShapeOracle, els: seq<Id>): (r: seq<Option<GeoRecord>>)
    requires WellFormed(g) && Objects(g, els)
    ensures |r| == |els| && forall i :: 0 <= i < |els| ==> r[i] == ExportOne(g, shapes, els[i])
  {
    seq(|els|, i requires 0 <= i < |els| => ExportOne(g, shapes, els[i]))
  }

  /** What `get_metadata(elements)` stores, in element order. */
  function ExportAll(g: Graph, shapes: ShapeOracle, els: seq<Id>): seq<GeoRecord>
    requires WellFormed(g) && Objects(g, els)
  {
    Somes(Attempts(g, shapes, els))
  }

  /** Each element is handled on its own: skipping or failing on one changes nothing for
      the elements before or after it. */
  lemma ExportAllAppend(g: Graph, shapes: ShapeOracle, xs: seq<Id>, ys: seq<Id>)
    requires WellFormed(g) && Objects(g, xs) && Objects(g, ys)
    ensures Objects(g, xs + ys)
    ensures ExportAll(g, shapes, xs + ys) == ExportAll(g, shapes, xs) + ExportAll(g, shapes, ys)
  {
    assert Objects(g, xs + ys);
    var a := Attempts(g, shapes, xs + ys);
    var b := Attempts(g, shapes, xs) + Attempts(g, shapes, ys);
    forall i | 0 <= i < |a|
      ensures a[i] == b[i]
    {
      if i < |xs| {
        assert (xs + ys)[i] == xs[i];
      } else {
        assert (xs + ys)[i] == ys[i - |xs|];
      }
    }
    assert a == b;
    SomesAppend(Attempts(g, shapes, xs), Attempts(g, shapes, ys));
  }

  /** Exactly the elements that export are stored, one record each. */
  lemma ExportAllRecords(g: Graph, shapes: ShapeOracle, els: seq<Id>)
    requires WellFormed(g) && Objects(g, els)
    ensures |ExportAll(g, shapes, els)| <= |els|
    ensures forall r :: r in ExportAll(g, shapes, els) <==>
              exists i :: 0 <= i < |els| && ExportOne(g, shapes, els[i]) == Some(r)
  {
    var a := Attempts(g, shapes, els);
    SomesMembers(a);
    forall r ensures r in ExportAll(g, shapes, els) <==>
                       exists i :: 0 <= i < |els| && ExportOne(g, shapes, els[i]) == Some(r) {
      if i :| 0 <= i < |els| && ExportOne(g, shapes, els[i]) == Some(r) {
        assert a[i] == Some(r);
      }
    }
  }

  /** `get_metadata`: the loop over elements, each in its own `try`. */
  method ExportGeoJson(g: Graph, shapes: ShapeOracle, els: seq<Id>) returns (stored: seq<GeoRecord>)
    requires WellFormed(g) && Objects(g, els)
    ensures stored == ExportAll(g, shapes, els)
  {
    stored := [];
    for i := 0 to |els|
      invariant stored == ExportAll(g, shapes, els[..i])
    {
      assert Attempts(g, shapes, els[..i + 1]) == Attempts(g, shapes, els[..i]) + [ExportOne(g, shapes, els[i])];
      SomesAppend(Attempts(g, shapes, els[..i]), [ExportOne(g, shapes, els[i])]);
      var element := g.entities[els[i]];
      var shape := shapes(els[i]);
      if shape.None? {
        continue;
      }
      var vertices := shape.value.verts;
      var faces := shape.value.faces;
      if vertices == [] || faces == [] {
        continue;
      }
      var geojsonGeom := MeshToGeoJsonPolygons(vertices, faces);
      if geojsonGeom.None? {
        continue;
      }
      var archicadProps := CollectArchiCadProps(g, els[i]);
      var metadata := ProjectMetadata(archicadProps, element.kind);
      stored := stored + [GeoRecord(element.globalId, geojsonGeom.value, metadata)];
    }
    assert els[..|els|] == els;
  }
}
