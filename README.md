# IFC floor partitioning, property resolution and mesh export — a Dafny model

This project models the core of a small toolkit that reads building models in the IFC
format (ISO 16739). It has three parts.

- **The memoized property resolver** (`metadata_dictionary`). It dispatches on an
  entity's kind and turns an object's property sets and quantity sets into nested maps,
  caching every set and object it resolves by entity id.
- **The floor partitioner** (`IFCParser`).
  - It finds a part's storey: first the storey that contains the part directly, then
    the storey of its host element.
  - It buckets the file's products by floor. Openings, sites and annotations are
    skipped. A part goes under the name of its structural storey. It goes under the
    `None` key when it has no storey, or when its own storey has no name, in which case
    the host's storey is not tried (utils/ifc_parser.py:154-164). Any other element goes
    under the floor name in its `ArchiCADProperties` property set. It is left out when
    it has no usable name. It is also left out when its floor number is missing or its
    shape fails to build; in both cases its floor's bucket has already been opened.
  - It fills a map from floor numbers to floor names and answers floor-name queries.
- **The two exporters** (`IFCExport` in its STL and GeoJSON variants).
  - Both select walls, curtain walls and building-element parts.
  - Both project each element's ArchiCAD properties onto three metadata keys.
  - The STL variant encodes the element's triangle mesh as binary STL: an 80-byte header,
    a little-endian 32-bit count and one 50-byte record per triangle.
  - The GeoJSON variant encodes it as a FeatureCollection with one closed triangular
    Polygon per index triple (RFC 7946, sections 3.1.6, 3.2 and 3.3).

The model is organised as follows.

- `ifc_graph.dfy` (`IfcGraph`) holds the entity graph as one immutable value. It defines
  what it means for the graph to follow the schema's attribute types and class names,
  and `by_type` (which includes subtypes).
- `ifc_metadata.dfy` (`IfcMetadata`) gives the resolver twice: as pure functions
  (`Resolve`, `Process`, `Collect`), and as the class `MetadataDictionary`. The class has
  the mutable cache, and its invariant is that every cached entry equals a fresh
  resolution.
- `ifc_parser.dfy` (`IfcParser`) gives the storey search as pure first-match functions.
  The pass is a step function `Step` folded by `Run`. The class `FloorParser` holds the
  bucket map and the number map as fields that its methods update.
- `ifc_export.dfy` (`IfcExport`) holds what both exporters share: the selection, the
  choice of the `Body` representation, the ArchiCAD property loops and the metadata
  projection.
- `stl_export.dfy` (`StlExport`) and `geojson_export.dfy` (`GeoJsonExport`) hold the
  encoders and the per-element export loops.
- `wrappers.dfy` and `archicad.dfy` hold `Option`/`Result` and the property-set
  constants.

Python exceptions are modelled as values.

- The resolver returns a `Result`. It fails on a single-value property without a
  nominal value, or an enumerated property without enumeration values.
- The partitioning pass returns an `Outcome`. The metadata lookup outside the `try`,
  and a part's geometry, abort the pass; everything inside the `try` is swallowed, and
  whatever it already changed stays changed.
- An encoder returns `None` where Python raises.

The geometry kernel is a partial function passed in by the caller. For the exporters it
maps an entity to its triangle mesh. For the floor partitioner, which asks for
OpenCASCADE shapes, it maps an entity to an opaque shape handle. The IEEE-754 packing of a coordinate is an arbitrary function from a real to
four bytes, also passed in.

Floor names and numbers come from the code's own keys.

- The floor name is `Ursprungsgeschoss Name` and the number `Ursprungsgeschoss Nummer`,
  both in the property set `ArchiCADProperties` (utils/ifc_parser.py:90-110).
- An element whose floor name is not yet a key of `num2name_mapping` writes its number,
  overwriting any earlier name for that number (utils/ifc_parser.py:103-110).

## Model

| member | source | states |
|---|---|---|
| IfcGraph.ByType | utils/ifc_metadata.py:60 | `by_type(t)` lists exactly the entities of class `t` or a subtype |
| IfcGraph.ByTypeCount | main2.py:24-27 | each matching entity occurs exactly once in `by_type(t)`, others never |
| IfcGraph.IndexOf | utils/ifc_metadata.py:29-32 | the position found is the first one holding the name, or the length when none does |
| IfcMetadata.Dispatch | utils/ifc_metadata.py:41-48 | objects read `IsDefinedBy`, property sets `HasProperties`, element quantities `Quantities`; every other entity matches no row |
| IfcMetadata.Resolve | utils/ifc_metadata.py:35-57 | an object resolves to a bare dict, a property or quantity set to `(Name, dict)`, and any other entity to `None` |
| IfcMetadata.Process | utils/ifc_metadata.py:18-33 | `process` never yields a bare dict, so every item that `filter(None, …)` keeps is a pair |
| IfcMetadata.CollectFails | utils/ifc_metadata.py:51-53 | building a dict fails exactly when processing one of the members raises |
| IfcMetadata.CollectKeys | utils/ifc_metadata.py:51-53 | the dict's keys are exactly the keys of the pairs the members yield; `None` results are dropped |
| IfcMetadata.CollectKeeps | utils/ifc_metadata.py:51-53 | a key that no member yields keeps its earlier value |
| IfcMetadata.CollectLastWins | utils/ifc_metadata.py:51-53 | a key's value is the one from the last member that yields it |
| IfcMetadata.LeafProcess | utils/ifc_metadata.py:21-33 | a leaf raises exactly when its value attribute is absent; otherwise it is keyed by its name, and unsupported leaves give `None` |
| IfcMetadata.SetEntryIsLastLeaf | utils/ifc_metadata.py:21-32 | a set's entry under a name holds the wrapped nominal value, the enumeration values in declared order, or the measure of the last member of that name |
| IfcMetadata.QuantityValueAtPositionThree | utils/ifc_metadata.py:29-32 | every simple-quantity subtype's attribute at index 3 is its own value attribute, so it resolves to `(Name, value)` with no per-subtype case |
| IfcMetadata.SetResolution | utils/ifc_metadata.py:41-57 | a set resolves to `(Name, dict)`; it fails exactly when a member lacks its value, and the dict's keys are exactly the names of its supported members |
| IfcMetadata.RelationProcess | utils/ifc_metadata.py:19-20 | a defines-by-properties relation is keyed by the name of the set it points at |
| IfcMetadata.ObjectResolution | utils/ifc_metadata.py:47-57 | an object's dict has exactly the names of the sets its defines-by-properties relations point at |
| IfcMetadata.ObjectEntryIsSetResolution | utils/ifc_metadata.py:19-20 | the object's entry for a set is exactly the dict `self[set]` holds, passed through with no wrapping, unless a later set of the same name overwrites it |
| IfcMetadata.IterationYields | utils/ifc_metadata.py:59-61 | iteration yields `(GlobalId, self[obj])` for every object in file order, up to the first one that raises |
| IfcMetadata.MetadataDictionary.constructor | utils/ifc_metadata.py:14-16 | the cache starts empty |
| IfcMetadata.MetadataDictionary.Get | utils/ifc_metadata.py:35-57 | the lookup equals a fresh resolution. A cached id returns its stored value and leaves the cache alone. A dispatching entity's result is stored, a non-dispatching one adds nothing, and the cache stays valid |
| IfcMetadata.MetadataDictionary.CollectMembers | utils/ifc_metadata.py:51-53 | the dict the loop builds equals the fresh one, and the cache only grows |
| IfcMetadata.MetadataDictionary.ProcessItem | utils/ifc_metadata.py:18-33 | `process` through the cache equals the fresh `process` |
| IfcMetadata.MetadataDictionary.Items | utils/ifc_metadata.py:59-61 | the iteration through the cache yields what the fresh iteration over all objects yields |
| IfcParser.FirstStorey | utils/ifc_parser.py:139-144 | the target of the first containment relation that points at a storey; `None` exactly when no relation does |
| IfcParser.StoreyOfElement | utils/ifc_parser.py:137-144 | the result, when present, is a building storey of the file |
| IfcParser.FirstAggregate | utils/ifc_parser.py:149-152 | the relating object of the first aggregates relation; `None` exactly when there is none |
| IfcParser.HostElement | utils/ifc_parser.py:147-152 | the host, when present, is an entity of the file |
| IfcParser.DirectStoreyWins | utils/ifc_parser.py:156-158 | a part contained in a storey takes that storey's name, whatever its host's storey |
| IfcParser.PartInheritsHostStorey | utils/ifc_parser.py:159-163 | a part with no storey of its own takes its host's storey name |
| IfcParser.StoreyWithinOneHop | utils/ifc_parser.py:154-164 | a named result always comes from the part's own storey or its host's; the search never reaches the host's host |
| IfcParser.TaggedName | utils/ifc_parser.py:90-99 | an element has a floor name exactly when `ArchiCADProperties` holds a hashable `Ursprungsgeschoss Name`, and the name is that entry |
| IfcParser.TaggedNumber | utils/ifc_parser.py:104-110 | an element has a floor number exactly when `ArchiCADProperties` holds a hashable `Ursprungsgeschoss Nummer`, and the number is that entry |
| IfcParser.Open | utils/ifc_parser.py:93-103 | after the first sighting of a floor, the floor is seen and has a bucket |
| IfcParser.Run | utils/ifc_parser.py:67-124 | every floor seen in the pass has a bucket |
| IfcParser.StepAborts | utils/ifc_parser.py:72-124 | a visit aborts exactly on a metadata error of a non-part or a geometry failure of a part, with that failure |
| IfcParser.RunAborts | utils/ifc_parser.py:69-124 | the pass aborts exactly when some product blocks, and then with the failure of the first one that does |
| IfcParser.StepSound | utils/ifc_parser.py:72-117 | one visit keeps every bucket element a product that belongs in that bucket, with the geometry the shape builder gives it |
| IfcParser.RunSound | utils/ifc_parser.py:69-117 | the whole pass keeps the buckets sound |
| IfcParser.ExcludedNeverBucketed | utils/ifc_parser.py:72-77 | openings, sites and annotations are never in any bucket |
| IfcParser.StepAppends | utils/ifc_parser.py:78-117 | a visit appends at most the visited product, with its geometry, to the end of its own floor's bucket |
| IfcParser.StepUntouched | utils/ifc_parser.py:78-117 | a visit leaves the bucket of a floor it does not see unchanged |
| IfcParser.PartChanges | utils/ifc_parser.py:78-84 | a part's visit opens only its storey's floor and appends the part, at most once, only to that bucket |
| IfcParser.TaggedChanges | utils/ifc_parser.py:88-117 | the `try` block of a tagged element opens only the element's floor, appends it at most once and only there, and leaves every other floor's bucket as it was |
| IfcParser.RunUntouched | utils/ifc_parser.py:67-124 | a floor not seen in this call keeps its bucket from an earlier call |
| IfcParser.RunSeenGrows | utils/ifc_parser.py:67-103 | the set of floors seen only grows during the pass |
| IfcParser.RunExtends | utils/ifc_parser.py:79-117 | within one call a bucket only grows at its end, with products of this pass |
| IfcParser.RunAppendsInVisitOrder | utils/ifc_parser.py:79-117 | the entries a pass appends to a bucket name its products in the order the pass visits them |
| IfcParser.RunAppendsOnce | utils/ifc_parser.py:79-117 | over products without repeats, as `by_type` lists them, a pass appends each product at most once to a bucket |
| IfcParser.RunResets | utils/ifc_parser.py:79-117 | a floor first seen in this call is reset to `[]`, so its bucket holds only products of this pass, in the order the pass visits them |
| IfcParser.RunResetsOnce | utils/ifc_parser.py:79-117 | over products without repeats, as `by_type` lists them, the bucket of a floor first seen in this call holds no product twice |
| IfcParser.StepPlaces | utils/ifc_parser.py:78-117 | a part, or a fully tagged element with geometry, is placed in the bucket of its floor |
| IfcParser.RunPlaces | utils/ifc_parser.py:69-117 | in a pass that completes, every such product ends up in its floor's bucket |
| IfcParser.RunDoneNoBlock | utils/ifc_parser.py:69-124 | in a pass that completes, no product blocks |
| IfcParser.PartsBucketed | utils/ifc_parser.py:78-84 | in a pass that completes, every part has geometry and sits in the bucket its storey search gives, which may be the `None` key |
| IfcParser.NumberMapOverwrites | utils/ifc_parser.py:104-110 | an element whose name is not a key writes number → name, overwriting an earlier name for that number |
| IfcParser.NumberGuardTestsName | utils/ifc_parser.py:104-107 | when the floor name happens to be a key, the number map is left alone |
| IfcParser.MissingNumberKeepsOpenedBucket | utils/ifc_parser.py:93-124 | a missing floor number is swallowed after the bucket was opened: the bucket stays, without the element |
| IfcParser.TaggedGeometryFailureSwallowed | utils/ifc_parser.py:104-124 | a tagged element's geometry failure is swallowed after the bucket was opened and the number mapped; both stay |
| IfcParser.Digits | utils/ifc_parser.py:130 | `str(n)` of a natural number is a non-empty string of decimal digits, with no leading zero unless n is 0 |
| IfcParser.DigitsRoundTrip | utils/ifc_parser.py:130 | reading the decimal digits of `n` back gives `n` |
| IfcParser.DecimalRoundTrip | utils/ifc_parser.py:130 | reading `str(n)` back gives `n` for every integer, so distinct floor numbers are distinct keys |
| IfcParser.FloorParser.constructor | utils/ifc_parser.py:8-35 | the buckets and the number map start empty, and the products are `by_type("IfcProduct")` |
| IfcParser.FloorParser.VisitProduct | utils/ifc_parser.py:72-124 | one visit changes the fields as one step of the pass does, and reports its failure |
| IfcParser.FloorParser.SeparateByFloor | utils/ifc_parser.py:51-124 | the fields end as the pass over all products leaves them; a failure is reported exactly when the pass aborts |
| IfcParser.FloorParser.GetFloorName | utils/ifc_parser.py:129-130 | the lookup succeeds exactly when `str(n)` is a key of the number map, and returns that entry |
| IfcExport.SomesAppend | main2.py:67-130 | storing each element in its own `try` is compositional over the element list |
| IfcExport.SomesMembers | main2.py:67-130 | what is stored is exactly the outcomes that succeeded |
| IfcExport.SelectPoi | main2.py:21-28 | the selection holds exactly the walls (standard-case walls included), curtain walls and building-element parts |
| IfcExport.SelectPoiCount | main2.py:23-28 | each of the four lists adds one occurrence of each entity it matches |
| IfcExport.StandardCaseWallSelectedTwice | main3.py:20-25 | a standard-case wall is selected twice, and every other selected element once |
| IfcExport.SelectPoiStartsWithWalls | main2.py:23-28 | the selection starts with all walls in file order; the rest holds no wall other than the standard-case walls listed again |
| IfcExport.FirstBody | main2.py:71-75 | the first representation identified `"Body"`; `None` exactly when there is none |
| IfcExport.FindBody | main2.py:70-75 | the loop with its `break` finds that first `"Body"` representation |
| IfcExport.PropsFoldKeys | main2.py:108-115 | a name is written exactly when a single-value property of that name has a nominal value |
| IfcExport.PropsFoldKeeps | main2.py:108-115 | a name no property writes keeps its earlier value |
| IfcExport.PropsFoldLastWins | main2.py:108-115 | a later property of the same name overwrites an earlier one |
| IfcExport.RelsFoldKeys | main2.py:99-115 | a name is collected exactly when some `ArchiCADProperties` set reached through defines-by-properties writes it |
| IfcExport.RelsFoldLastWins | main2.py:99-115 | the collected value is that of the last writer in the last set that writes the name |
| IfcExport.AbsorbSet | main2.py:108-115 | the inner loop writes one set's properties as the fold specifies |
| IfcExport.CollectArchiCadProps | main2.py:99-115 | the nested loops fill `archicad_props` as the fold over all relations specifies |
| IfcExport.ProjectMetadata | main2.py:117-125 | the metadata has exactly the two floor keys and `ElementType`; a floor key absent from the properties is `"N/A"` |
| IfcExport.MetadataFloorName | main3.py:88-114 | the stored floor name is `"N/A"` when no `ArchiCADProperties` set writes one, and otherwise the collected value |
| StlExport.Zeros | main2.py:34 | the header is `n` zero bytes |
| StlExport.U32RoundTrip | main2.py:35 | decoding the count field gives the count back |
| StlExport.U32DecodeRoundTrip | main2.py:35 | every four bytes are the encoding of exactly one 32-bit count |
| StlExport.StlBinary | main2.py:30-51 | the encoding is `84 + 50 (len(faces) // 3)` bytes long |
| StlExport.StlRejects | main2.py:32-49 | encoding raises exactly on a partial last triangle, a count too large for `<I`, or a vertex index past the end of the vertex list |
| StlExport.StlHeader | main2.py:34-35 | the output starts with 80 zero bytes and then the count `len(faces) // 3` |
| StlExport.RecordsAt | main2.py:36 | the records follow face order, one per index triple |
| StlExport.StlTriangleAt | main2.py:36-50 | triangle `t` is the 50 bytes at offset `84 + 50 t` |
| StlExport.TriangleRecordLayout | main2.py:37-50 | a record is a zero normal, the vertices `vertices[3 f .. 3 f + 2]` of the triangle's three face indices, and two zero bytes |
| StlExport.PartialTriangleRejected | main2.py:42-46 | a face list ending in a partial triangle cannot be encoded |
| StlExport.BadIndexRejected | main2.py:38-49 | a face index whose vertex lies past the end of the vertex list cannot be encoded |
| StlExport.MeshToStlBinary | main2.py:30-51 | the stepped loop produces exactly the specified encoding, and raises exactly where it does |
| StlExport.ExportOneStores | main2.py:69-128 | an element is stored exactly when it has a `Body` representation whose shape is built and encodable, with its GlobalId, those bytes and its metadata |
| StlExport.Attempts | main2.py:67-130 | one outcome per selected element, in order |
| StlExport.ExportAllAppend | main2.py:67-130 | skipping or failing on one element changes nothing for the others |
| StlExport.ExportAllRecords | main2.py:67-130 | what is stored is exactly the records of the elements whose export succeeds, at most one per element |
| StlExport.ExportStl | main2.py:65-130 | the element loop stores what the specification says |
| GeoJsonExport.PySlice | main3.py:40-42 | a slice within bounds is the sub-sequence; one that runs past the end is the rest of the list from `lo`, shorter than asked, and one that starts past the end is empty |
| GeoJsonExport.Features | main3.py:36-55 | `k` triangles give `k` features |
| GeoJsonExport.GeoJson | main3.py:27-61 | encoding raises exactly when the face list does not split into whole triangles |
| GeoJsonExport.FeatureIsClosedTriangle | main3.py:44-54 | each feature is a Polygon with a single ring `[v1, v2, v3, v1]` (closed, as section 3.1.6 of RFC 7946 requires) and empty properties |
| GeoJsonExport.PositionIsVertexSlice | main3.py:39-42 | a vertex is `vertices[3 idx .. 3 idx + 2]` when it exists; it has three coordinates exactly when it exists |
| GeoJsonExport.FeaturesAt | main3.py:36-55 | feature `t` is the feature of triangle `t`, in face order |
| GeoJsonExport.GeoJsonShape | main3.py:33-61 | the result is a FeatureCollection of `len(faces) / 3` features, each a Polygon feature with closed rings |
| GeoJsonExport.MeshToGeoJsonPolygons | main3.py:27-61 | the stepped loop produces exactly the specified collection, and raises exactly where it does |
| GeoJsonExport.ExportOneStores | main3.py:77-116 | an element is stored exactly when its shape is built, non-empty and made of whole triangles, with its GlobalId, that GeoJSON and its metadata |
| GeoJsonExport.Attempts | main3.py:75-122 | one outcome per selected element, in order |
| GeoJsonExport.ExportAllAppend | main3.py:75-122 | skipping or failing on one element changes nothing for the others |
| GeoJsonExport.ExportAllRecords | main3.py:75-122 | what is stored is exactly the records of the elements whose export succeeds, at most one per element |
| GeoJsonExport.ExportGeoJson | main3.py:74-122 | the element loop stores what the specification says |

## Left out

- Opening the IFC file and building geometry: `ifcopenshell.open` and
  `geom.create_shape`, with its settings, are replaced by an immutable graph value and a
  partial shape function. Where `create_shape` returns a shape without `geometry`, the
  model treats it as a failed build.
- The parsed file, the `ifc_metadata` resolver and the product list of `parse_ifc` are
  set up by `FloorParser`'s constructor, which merges `__init__` and `parse_ifc`.
- StlExport.MeshToStlBinary, StlExport.StlBinary, StlExport.StlRejects: the IEEE-754
  single-precision packing is a function passed in. `struct.pack` raising on a
  coordinate too large for a float32 is not modelled, so the rejections these state
  leave that case out.
- Coordinates are reals, so floating-point rounding in the kernel is not captured.
- Storing results: `store_in_database` (psycopg2, `json.dumps`) is replaced by
  returning the stored records in order. A database failure, which the `try` would
  swallow, is not modelled.
- `print`, `tqdm` progress and `run` (the wiring of load, select and export) are left
  out.
- `visualize_ifc_by_floor_name`/`_number` are left out because they are a display UI.
  `convert_to_svg_by_floor_number` is left out because it calls a method that does not
  exist.
- old/main.py is not part of this model: it is a superseded copy of main2.py whose
  element loop stops at a debug `break`.
- The other scripts (debug, test, visualisation, Neo4j and SQL stubs) are not part of
  this model.
- Only the IFC classes the code tests with `is_a` are named, together with their
  subtypes in IFC2x3 and IFC4 (`IfcWallStandardCase`, `IfcWallElementedCase`,
  `IfcOpeningStandardCase`). Every other product or object class is one opaque kind,
  and a well-formed graph never gives an opaque kind one of the named class names.
  Property kinds other than single and enumerated values resolve to `None`, as the code
  leaves them.
- IfcParser.FloorNumberKey: Python's equality between an `int` and an equal `float`
  key is not modelled. Floor numbers are compared as the values the reader returns, and
  `get_floor_name` looks up the decimal text of an integer.
- IfcParser.Hashable: only a nested dict is treated as unhashable. Python's other
  unhashable values cannot come out of the resolver.
- IfcExport.SelectPoi: the order inside each `by_type` list is file order; the
  library's own ordering is not modelled further.
