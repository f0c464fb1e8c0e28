/** The IFC entity graph (ISO 16739) as one immutable value: every entity has an
    identity, a kind and the attributes the rest of the model reads. The file reader and
    the geometry kernel are not part of this model; the graph is what the reader has
    already loaded, and the shape builder is a partial function passed in by callers. */
module IfcGraph {
  import opened Wrappers

  /** An entity's identity, the `id()` used as a cache key. */
  type Id = nat

  /** An attribute value as the file reader hands it over: the `wrappedValue` of a
      measure or label, a reference to another entity, or nothing. */
  datatype Attr = Text(s: string) | Real(x: real) | Int(n: int) | Bool(b: bool) | Ref(id: Id) | Null

  /** The concrete class of an object. The classes the core code tests with `is_a` are
      named, and so are their subtypes in IFC2x3 and IFC4; every other product class is
      `OtherProduct`, every other object class (one that is not a product, such as a
      group) is `OtherObject`. */
  datatype ObjectKind =
    | Wall
    | WallStandardCase      // a subtype of IfcWall
    | WallElementedCase     // a subtype of IfcWall in IFC4
    | CurtainWall
    | BuildingElementPart
    | OpeningElement
    | OpeningStandardCase   // a subtype of IfcOpeningElement in IFC4
    | Site
    | Annotation
    | BuildingStorey
    | OtherProduct(productType: string)
    | OtherObject(objectType: string)

  /** The subtypes of IfcPhysicalSimpleQuantity. */
  datatype QuantityKind = Length | Area | Volume | Count | Weight | Time

  /** The entities of the graph. Inverse attributes (IsDefinedBy, ContainedInStructure,
      Decomposes) are stored on the object as the reader returns them; an object whose
      class has no such attribute has an empty list there (the `getattr(..., [])` default). */
  datatype Entity =
    | Object(kind: ObjectKind, globalId: string, objectName: Option<string>,
             isDefinedBy: seq<Id>, containedInStructure: seq<Id>, decomposes: seq<Id>,
             representations: seq<Id>)
    | RelDefinesByProperties(relatingPropertyDefinition: Id)
    | RelContainedInSpatialStructure(relatingStructure: Id)
    | RelAggregates(relatingObject: Id)
    | OtherRelation(relationType: string)
    | PropertySet(name: string, hasProperties: seq<Id>)
    | ElementQuantity(name: string, quantities: seq<Id>)
    | OtherPropertySetDefinition(definitionType: string)
    | PropertySingleValue(name: string, nominalValue: Option<Attr>)
    | PropertyEnumeratedValue(name: string, enumerationValues: Option<seq<Attr>>)
    | OtherProperty(name: string, propertyType: string)
    | SimpleQuantity(quantityKind: QuantityKind, name: string, description: Option<string>,
                     unit: Option<Id>, measure: real, formula: Option<string>)
    | OtherQuantity(name: string, quantityType: string)
    | ShapeRepresentation(identifier: Option<string>)
    | OtherEntity(entityType: string)

  /** The attribute names of a simple quantity of kind `k`, in schema order. The
      subtypes differ only in the name of the value attribute, always the fourth. */
  function QuantityAttributeNames(k: QuantityKind): seq<string> {
    ["Name", "Description", "Unit", ValueAttributeName(k), "Formula"]
  }

  function ValueAttributeName(k: QuantityKind): string {
    match k
    case Length => "LengthValue"
    case Area => "AreaValue"
    case Volume => "VolumeValue"
    case Count => "CountValue"
    case Weight => "WeightValue"
    case Time => "TimeValue"
  }

  /** The attributes of a simple quantity in schema order: what `q[i]` reads. */
  function QuantityAttributes(e: Entity): (r: seq<Attr>)
    requires e.SimpleQuantity?
  {
    [Text(e.name),
     if e.description.Some? then Text(e.description.value) else Null,
     if e.unit.Some? then Ref(e.unit.value) else Null,
     Real(e.measure),
     if e.formula.Some? then Text(e.formula.value) else Null]
  }

  /** The position of the first occurrence of `n` in `names`, or `|names|`. */
  function IndexOf(names: seq<string>, n: string): (i: nat)
    ensures i <= |names|
    ensures i < |names| ==> names[i] == n
    ensures forall j :: 0 <= j < i ==> names[j] != n
  {
    if names == [] then 0
    else if names[0] == n then 0
    else 1 + IndexOf(names[1..], n)
  }

  /** `getattr(q, n)`: the attribute of a simple quantity looked up by its name. */
  function NamedAttribute(e: Entity, n: string): Option<Attr>
    requires e.SimpleQuantity?
  {
    var i := IndexOf(QuantityAttributeNames(e.quantityKind), n);
    if i < |QuantityAttributes(e)| then Some(QuantityAttributes(e)[i]) else None
  }

  /** The loaded file: its entities and the order in which the file lists them. */
  datatype Graph = Graph(entities: map<Id, Entity>, order: seq<Id>)

  /** The type names the core code passes to `is_a` and `by_type`. */
  datatype TypeTag =
    | IfcObject | IfcProduct | IfcWall | IfcWallStandardCase | IfcCurtainWall
    | IfcBuildingElementPart | IfcOpeningElement | IfcSite | IfcAnnotation
    | IfcBuildingStorey | IfcPropertySet | IfcElementQuantity

  /** `e.is_a(t)`: true for the class `t` and for all of its subtypes. */
  predicate IsA(e: Entity, t: TypeTag) {
    match t
    case IfcObject => e.Object?
    case IfcProduct => e.Object? && !e.kind.OtherObject?
    case IfcWall => e.Object? && (e.kind == Wall || e.kind == WallStandardCase || e.kind == WallElementedCase)
    case IfcWallStandardCase => e.Object? && e.kind == WallStandardCase
    case IfcCurtainWall => e.Object? && e.kind == CurtainWall
    case IfcBuildingElementPart => e.Object? && e.kind == BuildingElementPart
    case IfcOpeningElement => e.Object? && (e.kind == OpeningElement || e.kind == OpeningStandardCase)
    case IfcSite => e.Object? && e.kind == Site
    case IfcAnnotation => e.Object? && e.kind == Annotation
    case IfcBuildingStorey => e.Object? && e.kind == BuildingStorey
    case IfcPropertySet => e.PropertySet?
    case IfcElementQuantity => e.ElementQuantity?
  }

  /** `element.is_a()` with no argument: the name of the object's own class. */
  function TypeName(k: ObjectKind): string {
    match k
    case Wall => "IfcWall"
    case WallStandardCase => "IfcWallStandardCase"
    case WallElementedCase => "IfcWallElementedCase"
    case CurtainWall => "IfcCurtainWall"
    case BuildingElementPart => "IfcBuildingElementPart"
    case OpeningElement => "IfcOpeningElement"
    case OpeningStandardCase => "IfcOpeningStandardCase"
    case Site => "IfcSite"
    case Annotation => "IfcAnnotation"
    case BuildingStorey => "IfcBuildingStorey"
    case OtherProduct(n) => n
    case OtherObject(n) => n
  }

  /** The class names the named kinds stand for. */
  const NamedClasses: set<string> :=
    {"IfcWall", "IfcWallStandardCase", "IfcWallElementedCase", "IfcCurtainWall",
     "IfcBuildingElementPart", "IfcOpeningElement", "IfcOpeningStandardCase", "IfcSite",
     "IfcAnnotation", "IfcBuildingStorey"}

  /** An object of a named class carries its named kind: an opaque kind never names one
      of those classes, so `is_a` cannot tell the two apart. */
  predicate KindNamed(e: Entity) {
    e.Object? ==>
      match e.kind
      case OtherProduct(n) => n !in NamedClasses
      case OtherObject(n) => n !in NamedClasses
      case _ => true
  }

  predicate IsRelation(e: Entity) {
    e.RelDefinesByProperties? || e.RelContainedInSpatialStructure? || e.RelAggregates? || e.OtherRelation?
  }

  predicate IsPropertySetDefinition(e: Entity) {
    e.PropertySet? || e.ElementQuantity? || e.OtherPropertySetDefinition?
  }

  predicate IsProperty(e: Entity) {
    e.PropertySingleValue? || e.PropertyEnumeratedValue? || e.OtherProperty?
  }

  predicate IsQuantity(e: Entity) {
    e.SimpleQuantity? || e.OtherQuantity?
  }

  /** An entity is as the IFC schema declares it: the references it holds resolve and
      point at entities of the class declared for that attribute, and an object of a
      named class carries its named kind. */
  ghost predicate SchemaTyped(g: Graph, e: Entity) {
    match e
    case Object(_, _, _, defs, contained, decomposes, reps) =>
      && (forall r <- defs :: r in g.entities && IsRelation(g.entities[r]))
      && (forall r <- contained :: r in g.entities && IsRelation(g.entities[r]))
      && (forall r <- decomposes :: r in g.entities && IsRelation(g.entities[r]))
      && (forall r <- reps :: r in g.entities && g.entities[r].ShapeRepresentation?)
      && KindNamed(e)
    case RelDefinesByProperties(d) => d in g.entities && IsPropertySetDefinition(g.entities[d])
    case RelContainedInSpatialStructure(s) => s in g.entities
    case RelAggregates(o) => o in g.entities
    case PropertySet(_, props) => forall p <- props :: p in g.entities && IsProperty(g.entities[p])
    case ElementQuantity(_, qs) => forall q <- qs :: q in g.entities && IsQuantity(g.entities[q])
    case SimpleQuantity(_, _, _, unit, _, _) => unit.Some? ==> unit.value in g.entities
    case _ => true
  }

  ghost predicate Distinct(s: seq<Id>) {
    forall i, j :: 0 <= i < j < |s| ==> s[i] != s[j]
  }

  /** A schema-conforming file: the order lists every entity once, every reference is
      typed as the schema declares, and every object of a named class has its named kind. */
  ghost predicate WellFormed(g: Graph) {
    && (forall id :: id in g.order ==> id in g.entities)
    && (forall id :: id in g.entities ==> id in g.order)
    && Distinct(g.order)
    && (forall id {:trigger SchemaTyped(g, g.entities[id])} :: id in g.entities ==> SchemaTyped(g, g.entities[id]))
  }

  /** How far an entity sits from the leaves of the property graph: objects point at
      relations, relations at property-set definitions, those at properties. */
  function Level(e: Entity): nat {
    if e.Object? then 3
    else if IsRelation(e) then 2
    else if IsPropertySetDefinition(e) then 1
    else 0
  }

  /** The entities among `ids` that are of class `t` or a subtype, in the order given. */
  function FilterByType(g: Graph, ids: seq<Id>, t: TypeTag): (r: seq<Id>)
    requires forall id <- ids :: id in g.entities
    ensures forall x :: x in r <==> x in ids && IsA(g.entities[x], t)
  {
    if ids == [] then []
    else (if IsA(g.entities[ids[0]], t) then [ids[0]] else []) + FilterByType(g, ids[1..], t)
  }

  /** `file.by_type(t)`: every entity of class `t` or of a subtype, in file order. */
  function ByType(g: Graph, t: TypeTag): (r: seq<Id>)
    requires WellFormed(g)
    ensures forall x :: x in r <==> x in g.entities && IsA(g.entities[x], t)
  {
    FilterByType(g, g.order, t)
  }

  lemma {:induction false} FilterCount(g: Graph, ids: seq<Id>, t: TypeTag, x: Id)
    requires forall id <- ids :: id in g.entities
    ensures multiset(FilterByType(g, ids, t))[x]
            == if x in g.entities && IsA(g.entities[x], t) then multiset(ids)[x] else 0
  {
    if ids != [] {
      FilterCount(g, ids[1..], t, x);
      assert ids == [ids[0]] + ids[1..];
    }
  }

  lemma {:induction false} DistinctCount(s: seq<Id>, x: Id)
    requires Distinct(s)
    ensures multiset(s)[x] == if x in s then 1 else 0
  {
    if s != [] {
      assert s == [s[0]] + s[1..];
      assert Distinct(s[1..]) by {
        forall i, j | 0 <= i < j < |s[1..]| ensures s[1..][i] != s[1..][j] {
          assert s[1..][i] == s[i + 1] && s[1..][j] == s[j + 1];
        }
      }
      DistinctCount(s[1..], x);
      if x == s[0] {
        assert x !in s[1..] by {
          forall k | 0 <= k < |s[1..]| ensures s[1..][k] != x {
            assert s[1..][k] == s[k + 1];
          }
        }
      }
    }
  }

  /** `by_type` lists each matching entity exactly once. */
  lemma ByTypeCount(g: Graph, t: TypeTag, x: Id)
    requires WellFormed(g)
    ensures multiset(ByType(g, t))[x] == if x in g.entities && IsA(g.entities[x], t) then 1 else 0
  {
    FilterCount(g, g.order, t, x);
    DistinctCount(g.order, x);
  }

  /** What the shape builder returns for an entity: a flat list of vertex coordinates
      (x, y, z per vertex) and a flat list of vertex indices (three per triangle). */
  datatype Mesh = Mesh(verts: seq<real>, faces: seq<nat>)

  /** `create_shape`: a partial function, `None` where the geometry kernel fails. */
  type ShapeOracle = Id -> Option<Mesh>
}
