/** Floor partitioning (`IFCParser`): the storey search for elements and parts, and the
    pass that buckets the products' geometry by floor and fills the floor
    number-to-name map. The pass is specified step by step by pure functions (`Step`,
    `Run`); the class performs it in place, and its contract ties the new fields to `Run`. */
module IfcParser {
  import opened Wrappers
  import opened IfcGraph
  import opened IfcMetadata
  import opened ArchiCad

  // ---------------------------------------------------------------------------------
  // Storey search
  // ---------------------------------------------------------------------------------

  /** `getattr(elem, "ContainedInStructure", [])`. */
  function ContainedIn(e: Entity): seq<Id> {
    if e.Object? then e.containedInStructure else []
  }

  /** `getattr(elem, "Decomposes", [])`. */
  function DecomposesOf(e: Entity): seq<Id> {
    if e.Object? then e.decomposes else []
  }

  lemma RelationsResolve(g: Graph, id: Id)
    requires WellFormed(g) && id in g.entities
    ensures forall r <- ContainedIn(g.entities[id]) :: r in g.entities
    ensures forall r <- DecomposesOf(g.entities[id]) :: r in g.entities
  {
    assert SchemaTyped(g, g.entities[id]);
  }

  /** The storey a relation points at, if it is a containment relation whose
      relating structure is a building storey. */
  function StoreyTarget(g: Graph, rel: Id): (r: Option<Id>)
    requires WellFormed(g) && rel in g.entities
    ensures r.Some? ==> r.value in g.entities && IsA(g.entities[r.value], IfcBuildingStorey)
  {
    match g.entities[rel]
    case RelContainedInSpatialStructure(s) =>
      assert SchemaTyped(g, g.entities[rel]);
      if IsA(g.entities[s], IfcBuildingStorey) then Some(s) else None
    case _ => None
  }

  /** The first storey target among `rels`: relations with any other target are skipped. */
  function FirstStorey(g: Graph, rels: seq<Id>): (r: Option<Id>)
    requires WellFormed(g) && forall rel <- rels :: rel in g.entities
    ensures r.None? <==> forall i :: 0 <= i < |rels| ==> StoreyTarget(g, rels[i]).None?
    ensures r.Some? ==> exists i :: 0 <= i < |rels| && StoreyTarget(g, rels[i]) == r &&
                          forall j :: 0 <= j < i ==> StoreyTarget(g, rels[j]).None?
  {
    if rels == [] then None
    else if StoreyTarget(g, rels[0]).Some? then StoreyTarget(g, rels[0])
    else
      var r := FirstStorey(g, rels[1..]);
      assert forall j :: 1 <= j < |rels| ==> rels[j] == rels[1..][j - 1];
      r
  }

  /** `get_storey_of_element`. */
  function StoreyOfElement(g: Graph, elem: Id): (r: Option<Id>)
    requires WellFormed(g) && elem in g.entities
    ensures r.Some? ==> r.value in g.entities && IsA(g.entities[r.value], IfcBuildingStorey)
  {
    RelationsResolve(g, elem);
    var rels := ContainedIn(g.entities[elem]);
    var r := FirstStorey(g, rels);
    if r.Some? then
      var i :| 0 <= i < |rels| && StoreyTarget(g, rels[i]) == r;
      r
    else r
  }

  function AggregateTarget(g: Graph, rel: Id): Option<Id>
    requires rel in g.entities
  {
    match g.entities[rel]
    case RelAggregates(o) => Some(o)
    case _ => None
  }

  /** The relating object of the first aggregation relation among `rels`. */
  function FirstAggregate(g: Graph, rels: seq<Id>): (r: Option<Id>)
    requires forall rel <- rels :: rel in g.entities
    ensures r.None? <==> forall i :: 0 <= i < |rels| ==> AggregateTarget(g, rels[i]).None?
    ensures r.Some? ==> exists i :: 0 <= i < |rels| && AggregateTarget(g, rels[i]) == r &&
                          forall j :: 0 <= j < i ==> AggregateTarget(g, rels[j]).None?
  {
    if rels == [] then None
    else if AggregateTarget(g, rels[0]).Some? then AggregateTarget(g, rels[0])
    else
      var r := FirstAggregate(g, rels[1..]);
      assert forall j :: 1 <= j < |rels| ==> rels[j] == rels[1..][j - 1];
      r
  }

  /** `get_host_element`. */
  function HostElement(g: Graph, elem: Id): (r: Option<Id>)
    requires WellFormed(g) && elem in g.entities
    ensures r.Some? ==> r.value in g.entities
  {
    RelationsResolve(g, elem);
    var r := FirstAggregate(g, DecomposesOf(g.entities[elem]));
    if r.Some? then
      var i :| 0 <= i < |DecomposesOf(g.entities[elem])| && AggregateTarget(g, DecomposesOf(g.entities[elem])[i]) == r;
      assert SchemaTyped(g, g.entities[DecomposesOf(g.entities[elem])[i]]);
      r
    else r
  }

  /** `get_storey_of_part`: the `Name` of the part's own storey, else of its host's
      storey, else `None`. A storey whose `Name` is unset yields `None` as well. */
  function StoreyOfPart(g: Graph, part: Id): Option<string>
    requires WellFormed(g) && part in g.entities
  {
    var direct := StoreyOfElement(g, part);
    if direct.Some? then g.entities[direct.value].objectName
    else
      var host := HostElement(g, part);
      if host.None? then None
      else
        var storey := StoreyOfElement(g, host.value);
        if storey.Some? then g.entities[storey.value].objectName else None
  }

  /** Direct containment wins over the host, even when the host sits on another storey. */
  lemma DirectStoreyWins(g: Graph, part: Id)
    requires WellFormed(g) && part in g.entities
    requires StoreyOfElement(g, part).Some?
    ensures StoreyOfPart(g, part) == g.entities[StoreyOfElement(g, part).value].objectName
  {
  }

  /** Without a storey of its own, a part takes its host's storey. */
  lemma PartInheritsHostStorey(g: Graph, part: Id)
    requires WellFormed(g) && part in g.entities
    requires StoreyOfElement(g, part).None? && HostElement(g, part).Some?
    requires StoreyOfElement(g, HostElement(g, part).value).Some?
    ensures StoreyOfPart(g, part) ==
              g.entities[StoreyOfElement(g, HostElement(g, part).value).value].objectName
  {
  }

  /** The fallback is one hop deep: a named result is the name of a storey that contains
      the part itself or its host directly, never one reached through the host's host. */
  lemma StoreyWithinOneHop(g: Graph, part: Id)
    requires WellFormed(g) && part in g.entities
    requires StoreyOfPart(g, part).Some?
    ensures var storey := if StoreyOfElement(g, part).Some? then StoreyOfElement(g, part)
                          else StoreyOfElement(g, HostElement(g, part).value);
            storey.Some? && g.entities[storey.value].objectName == StoreyOfPart(g, part) &&
            (StoreyOfElement(g, part).None? ==>
               HostElement(g, part).Some? && storey == StoreyOfElement(g, HostElement(g, part).value))
  {
  }

  // ---------------------------------------------------------------------------------
  // The partitioning pass
  // ---------------------------------------------------------------------------------

  /** A floor key: a floor name as Python holds it, or `None` for a part with no storey.
      A storey `Name` and a label read from the property set are the same key when their
      text is the same. */
  type FloorKey = Option<Value>

  /** An OpenCASCADE shape, which `create_shape` returns since the parser sets
      `USE_PYTHON_OPENCASCADE`: opaque to this model, known only by its handle. */
  datatype OccShape = OccShape(handle: nat)

  /** The shape builder as the parser calls it: a product's shape, or `None` where
      building it raises. */
  type OccShapes = Id -> Option<OccShape>

  /** One bucket element: the product and its geometry. */
  datatype Entry = Entry(product: Id, geometry: OccShape)

  /** The state of the pass: the floor names seen in this call (the local `floors_name`),
      the buckets (`product_shape_per_floor`) and `num2name_mapping`. */
  datatype Scan = Scan(seen: set<FloorKey>, buckets: map<FloorKey, seq<Entry>>, numberToName: map<Value, Value>)

  /** Why a pass stopped: an exception from the metadata lookup, which sits outside the
      `try`, or from a part's geometry, which is never caught. */
  datatype Failure = MetadataFailure(error: Error) | GeometryFailure(product: Id)

  /** The state after a step or a pass, and whether an exception escaped. The state
      mutated before the exception is kept, as the fields keep it. */
  datatype Outcome = Done(scan: Scan) | Aborted(scan: Scan, failure: Failure)

  /** Every floor seen in this call has a bucket. */
  predicate Tracked(s: Scan) {
    s.seen <= s.buckets.Keys
  }

  /** The kinds skipped before every other test. */
  predicate Excluded(e: Entity) {
    IsA(e, IfcOpeningElement) || IsA(e, IfcSite) || IsA(e, IfcAnnotation)
  }

  /** `d[key]` on a resolved value: `None` where Python raises (a missing key, or a
      value that is not a dict). */
  function Field(v: Value, key: string): Option<Value> {
    if v.Dict? && key in v.entries then Some(v.entries[key]) else None
  }

  /** Whether a value can be a set element or a dict key: a nested dict cannot. */
  predicate Hashable(v: Value) {
    !v.Dict?
  }

  /** The floor name an element's metadata gives it, if `ArchiCADProperties` holds a
      usable `Ursprungsgeschoss Name`. */
  function TaggedName(props: map<string, Value>): (r: Option<Value>)
    ensures r.Some? <==>
              PsetName in props && Field(props[PsetName], NameKey).Some? &&
              Hashable(Field(props[PsetName], NameKey).value)
    ensures r.Some? ==> PsetName in props && r == Field(props[PsetName], NameKey)
  {
    if PsetName !in props then None
    else
      var name := Field(props[PsetName], NameKey);
      if name.Some? && Hashable(name.value) then name else None
  }

  /** The floor number an element's metadata gives it, if `ArchiCADProperties` holds an
      `Ursprungsgeschoss Nummer` usable as a key. */
  function TaggedNumber(props: map<string, Value>): (r: Option<Value>)
    ensures r.Some? <==>
              PsetName in props && Field(props[PsetName], NumberKey).Some? &&
              Hashable(Field(props[PsetName], NumberKey).value)
    ensures r.Some? ==> PsetName in props && r == Field(props[PsetName], NumberKey)
  {
    if PsetName !in props then None
    else
      var number := Field(props[PsetName], NumberKey);
      if number.Some? && Hashable(number.value) then number else None
  }

  /** The bucket key of a part. */
  function PartKey(g: Graph, part: Id): FloorKey
    requires WellFormed(g) && part in g.entities
  {
    var name := StoreyOfPart(g, part);
    if name.Some? then Some(Single(Text(name.value))) else None
  }

  /** The first time a floor is seen in this call, its bucket is set to `[]`. */
  function Open(s: Scan, k: FloorKey): (r: Scan)
    requires Tracked(s)
    ensures Tracked(r) && k in r.seen
  {
    if k in s.seen then s else Scan(s.seen + {k}, s.buckets[k := []], s.numberToName)
  }

  function Append(s: Scan, k: FloorKey, e: Entry): (r: Scan)
    requires Tracked(s) && k in s.seen
    ensures Tracked(r)
  {
    s.(buckets := s.buckets[k := s.buckets[k] + [e]])
  }

  /** The `try` block for an element with metadata `props`: every exception in it is
      swallowed, and whatever it changed before raising stays changed. */
  function TaggedStep(shapes: OccShapes, s: Scan, p: Id, props: map<string, Value>): (r: Scan)
    requires Tracked(s)
    ensures Tracked(r)
  {
    match TaggedName(props)
    case None => s
    case Some(name) =>
      var s1 := Open(s, Some(name));
      var number := TaggedNumber(props);
      if name !in s1.numberToName && number.None? then s1
      else
        var s2 := if name in s1.numberToName then s1
                  else s1.(numberToName := s1.numberToName[number.value := name]);
        match shapes(p)
        case None => s2
        case Some(m) => Append(s2, Some(name), Entry(p, m))
  }

  /** One iteration of `separate_by_floor` for product `p`. */
  function Step(g: Graph, shapes: OccShapes, s: Scan, p: Id): (r: Outcome)
    requires WellFormed(g) && p in g.entities && IsA(g.entities[p], IfcProduct) && Tracked(s)
    ensures Tracked(r.scan)
  {
    var e := g.entities[p];
    if Excluded(e) then Done(s)
    else if IsA(e, IfcBuildingElementPart) then
      var s1 := Open(s, PartKey(g, p));
      match shapes(p)
      case None => Aborted(s1, GeometryFailure(p))
      case Some(m) => Done(Append(s1, PartKey(g, p), Entry(p, m)))
    else
      match Resolve(g, p)
      case Err(err) => Aborted(s, MetadataFailure(err))
      case Ok(r) => Done(TaggedStep(shapes, s, p, r.dict))
  }

  ghost predicate Products(g: Graph, ps: seq<Id>) {
    forall p <- ps :: p in g.entities && IsA(g.entities[p], IfcProduct)
  }

  /** The pass over `ps`, stopping at the first escaping exception. */
  function Run(g: Graph, shapes: OccShapes, s: Scan, ps: seq<Id>): (r: Outcome)
    requires WellFormed(g) && Products(g, ps) && Tracked(s)
    ensures Tracked(r.scan)
    decreases |ps|
  {
    if ps == [] then Done(s)
    else
      match Step(g, shapes, s, ps[0])
      case Aborted(s', f) => Aborted(s', f)
      case Done(s') => Run(g, shapes, s', ps[1..])
  }

  // ---------------------------------------------------------------------------------
  // Which products escape with an exception
  // ---------------------------------------------------------------------------------

  /** A product whose visit raises an exception that is not swallowed. */
  predicate Blocks(g: Graph, shapes: OccShapes, p: Id)
    requires WellFormed(g) && p in g.entities
  {
    var e := g.entities[p];
    !Excluded(e) &&
    if IsA(e, IfcBuildingElementPart) then shapes(p).None? else Resolve(g, p).Err?
  }

  /** The exception that product raises. */
  function FailureAt(g: Graph, shapes: OccShapes, p: Id): Failure
    requires WellFormed(g) && p in g.entities && Blocks(g, shapes, p)
  {
    if IsA(g.entities[p], IfcBuildingElementPart) then GeometryFailure(p)
    else MetadataFailure(Resolve(g, p).error)
  }

  lemma StepAborts(g: Graph, shapes: OccShapes, s: Scan, p: Id)
    requires WellFormed(g) && p in g.entities && IsA(g.entities[p], IfcProduct) && Tracked(s)
    ensures Step(g, shapes, s, p).Aborted? <==> Blocks(g, shapes, p)
    ensures Step(g, shapes, s, p).Aborted? ==> Step(g, shapes, s, p).failure == FailureAt(g, shapes, p)
  {
  }

  /** The pass stops exactly at the first product that blocks, whatever the state: a
      metadata exception of a non-part, or a geometry failure of a part. Exceptions of
      non-parts inside the `try` never stop it. */
  lemma {:induction false} RunAborts(g: Graph, shapes: OccShapes, s: Scan, ps: seq<Id>)
    requires WellFormed(g) && Products(g, ps) && Tracked(s)
    ensures Run(g, shapes, s, ps).Aborted? <==> exists i :: 0 <= i < |ps| && Blocks(g, shapes, ps[i])
    ensures Run(g, shapes, s, ps).Aborted? ==>
              exists i :: 0 <= i < |ps| && Blocks(g, shapes, ps[i]) &&
                (forall j :: 0 <= j < i ==> !Blocks(g, shapes, ps[j])) &&
                Run(g, shapes, s, ps).failure == FailureAt(g, shapes, ps[i])
    decreases |ps|
  {
    if ps != [] {
      StepAborts(g, shapes, s, ps[0]);
      var o := Step(g, shapes, s, ps[0]);
      if o.Done? {
        RunAborts(g, shapes, o.scan, ps[1..]);
        if i :| 0 <= i < |ps| && Blocks(g, shapes, ps[i]) {
          assert i > 0 && ps[1..][i - 1] == ps[i];
        }
        if i :| 0 <= i < |ps[1..]| && Blocks(g, shapes, ps[1..][i]) &&
               (forall j :: 0 <= j < i ==> !Blocks(g, shapes, ps[1..][j])) &&
               Run(g, shapes, s, ps).failure == FailureAt(g, shapes, ps[1..][i]) {
          assert ps[i + 1] == ps[1..][i];
          NoBlockBefore(g, shapes, ps, i);
        }
      }
    }
  }

  /** No product before index `i + 1` blocks when the first does not and none of the
      first `i` after it does. */
  lemma NoBlockBefore(g: Graph, shapes: OccShapes, ps: seq<Id>, i: nat)
    requires WellFormed(g) && Products(g, ps) && i + 1 < |ps|
    requires !Blocks(g, shapes, ps[0])
    requires forall j :: 0 <= j < i ==> !Blocks(g, shapes, ps[1..][j])
    ensures forall j :: 0 <= j < i + 1 ==> !Blocks(g, shapes, ps[j])
  {
    forall j | 0 < j < i + 1 ensures !Blocks(g, shapes, ps[j]) {
      assert ps[j] == ps[1..][j - 1];
    }
  }

  // ---------------------------------------------------------------------------------
  // What the buckets hold
  // ---------------------------------------------------------------------------------

  /** The bucket a product belongs in, if any: none for the excluded kinds, the
      structural storey for a part, the `ArchiCADProperties` floor name for any other
      element that has a usable one. */
  function FloorOf(g: Graph, p: Id): Option<FloorKey>
    requires WellFormed(g) && p in g.entities && IsA(g.entities[p], IfcProduct)
  {
    var e := g.entities[p];
    if Excluded(e) then None
    else if IsA(e, IfcBuildingElementPart) then Some(PartKey(g, p))
    else
      match Resolve(g, p)
      case Err(_) => None
      case Ok(r) => if TaggedName(r.dict).Some? then Some(TaggedName(r.dict)) else None
  }

  /** Every bucket element is a product that belongs in that bucket, with the geometry
      the shape builder gives it. */
  ghost predicate BucketsSound(g: Graph, shapes: OccShapes, buckets: map<FloorKey, seq<Entry>>)
    requires WellFormed(g)
  {
    forall k, i :: k in buckets && 0 <= i < |buckets[k]| ==>
      var en := buckets[k][i];
      && en.product in g.entities && IsA(g.entities[en.product], IfcProduct)
      && FloorOf(g, en.product) == Some(k)
      && shapes(en.product) == Some(en.geometry)
  }

  lemma StepSound(g: Graph, shapes: OccShapes, s: Scan, p: Id)
    requires WellFormed(g) && p in g.entities && IsA(g.entities[p], IfcProduct) && Tracked(s)
    requires BucketsSound(g, shapes, s.buckets)
    ensures BucketsSound(g, shapes, Step(g, shapes, s, p).scan.buckets)
  {
    var r := Step(g, shapes, s, p).scan;
    forall k, i | k in r.buckets && 0 <= i < |r.buckets[k]|
      ensures r.buckets[k][i].product in g.entities && IsA(g.entities[r.buckets[k][i].product], IfcProduct)
      ensures FloorOf(g, r.buckets[k][i].product) == Some(k)
      ensures shapes(r.buckets[k][i].product) == Some(r.buckets[k][i].geometry)
    {
      StepAppends(g, shapes, s, p, k);
      if k in s.buckets && k !in r.seen {
        StepUntouched(g, shapes, s, p, k);
      }
    }
  }

  /** The buckets stay sound through a whole pass; in particular no opening, site or
      annotation is ever bucketed, since `FloorOf` gives them no floor. */
  lemma {:induction false} RunSound(g: Graph, shapes: OccShapes, s: Scan, ps: seq<Id>)
    requires WellFormed(g) && Products(g, ps) && Tracked(s)
    requires BucketsSound(g, shapes, s.buckets)
    ensures BucketsSound(g, shapes, Run(g, shapes, s, ps).scan.buckets)
    decreases |ps|
  {
    if ps != [] {
      StepSound(g, shapes, s, ps[0]);
      var o := Step(g, shapes, s, ps[0]);
      if o.Done? {
        RunSound(g, shapes, o.scan, ps[1..]);
      }
    }
  }

  lemma ExcludedNeverBucketed(g: Graph, shapes: OccShapes, s: Scan, ps: seq<Id>, k: FloorKey, i: nat)
    requires WellFormed(g) && Products(g, ps) && Tracked(s)
    requires BucketsSound(g, shapes, s.buckets)
    requires k in Run(g, shapes, s, ps).scan.buckets && i < |Run(g, shapes, s, ps).scan.buckets[k]|
    ensures var en := Run(g, shapes, s, ps).scan.buckets[k][i];
            en.product in g.entities && !Excluded(g.entities[en.product])
  {
    RunSound(g, shapes, s, ps);
  }

  /** The `try` block of a tagged element opens only its own floor and appends, at most
      once, only there. */
  lemma TaggedChanges(shapes: OccShapes, s: Scan, p: Id, props: map<string, Value>, k: FloorKey)
    requires Tracked(s)
    ensures var r := TaggedStep(shapes, s, p, props);
            var before := if k in s.seen then s.buckets[k] else [];
            && s.seen <= r.seen
            && (k in r.seen ==>
                  r.buckets[k] == before ||
                  (shapes(p).Some? && TaggedName(props) == k && r.buckets[k] == before + [Entry(p, shapes(p).value)]))
            && (k !in r.seen ==> (k in r.buckets <==> k in s.buckets) &&
                                 (k in s.buckets ==> r.buckets[k] == s.buckets[k]))
  {
  }

  /** A part's visit opens only its storey's floor and appends, at most once, only there. */
  lemma PartChanges(g: Graph, shapes: OccShapes, s: Scan, p: Id, k: FloorKey)
    requires WellFormed(g) && p in g.entities && IsA(g.entities[p], IfcBuildingElementPart) && Tracked(s)
    ensures var s1 := Open(s, PartKey(g, p));
            var r := if shapes(p).Some? then Append(s1, PartKey(g, p), Entry(p, shapes(p).value)) else s1;
            var before := if k in s.seen then s.buckets[k] else [];
            && s.seen <= r.seen
            && (k in r.seen ==>
                  r.buckets[k] == before ||
                  (shapes(p).Some? && PartKey(g, p) == k && r.buckets[k] == before + [Entry(p, shapes(p).value)]))
            && (k !in r.seen ==> (k in r.buckets <==> k in s.buckets) &&
                                 (k in s.buckets ==> r.buckets[k] == s.buckets[k]))
  {
  }

  /** One visit appends at most one element, the visited product with its geometry, at
      the end of one bucket; a bucket first seen in this call starts from `[]`. */
  lemma StepAppends(g: Graph, shapes: OccShapes, s: Scan, p: Id, k: FloorKey)
    requires WellFormed(g) && p in g.entities && IsA(g.entities[p], IfcProduct) && Tracked(s)
    ensures s.seen <= Step(g, shapes, s, p).scan.seen
    ensures var r := Step(g, shapes, s, p).scan;
            var before := if k in s.seen then s.buckets[k] else [];
            k in r.seen ==>
              r.buckets[k] == before ||
              (shapes(p).Some? && FloorOf(g, p) == Some(k) && r.buckets[k] == before + [Entry(p, shapes(p).value)])
  {
    var e := g.entities[p];
    if !Excluded(e) {
      if IsA(e, IfcBuildingElementPart) {
        PartChanges(g, shapes, s, p, k);
      } else if Resolve(g, p).Ok? {
        TaggedChanges(shapes, s, p, Resolve(g, p).value.dict, k);
      }
    }
  }

  /** A floor not seen in this call keeps its bucket from an earlier call untouched. */
  lemma StepUntouched(g: Graph, shapes: OccShapes, s: Scan, p: Id, k: FloorKey)
    requires WellFormed(g) && p in g.entities && IsA(g.entities[p], IfcProduct) && Tracked(s)
    requires k !in Step(g, shapes, s, p).scan.seen
    ensures k in Step(g, shapes, s, p).scan.buckets <==> k in s.buckets
    ensures k in s.buckets ==> Step(g, shapes, s, p).scan.buckets[k] == s.buckets[k]
  {
    var e := g.entities[p];
    if !Excluded(e) {
      if IsA(e, IfcBuildingElementPart) {
        PartChanges(g, shapes, s, p, k);
      } else if Resolve(g, p).Ok? {
        TaggedChanges(shapes, s, p, Resolve(g, p).value.dict, k);
      }
    }
  }

  lemma {:induction false} RunUntouched(g: Graph, shapes: OccShapes, s: Scan, ps: seq<Id>, k: FloorKey)
    requires WellFormed(g) && Products(g, ps) && Tracked(s)
    requires k !in Run(g, shapes, s, ps).scan.seen
    ensures k in Run(g, shapes, s, ps).scan.buckets <==> k in s.buckets
    ensures k in s.buckets ==> Run(g, shapes, s, ps).scan.buckets[k] == s.buckets[k]
    decreases |ps|
  {
    if ps != [] {
      var o := Step(g, shapes, s, ps[0]);
      if o.Done? {
        RunSeenGrows(g, shapes, o.scan, ps[1..]);
        RunUntouched(g, shapes, o.scan, ps[1..], k);
      }
      StepUntouched(g, shapes, s, ps[0], k);
    }
  }

  lemma {:induction false} RunSeenGrows(g: Graph, shapes: OccShapes, s: Scan, ps: seq<Id>)
    requires WellFormed(g) && Products(g, ps) && Tracked(s)
    ensures s.seen <= Run(g, shapes, s, ps).scan.seen
    decreases |ps|
  {
    if ps != [] {
      StepAppends(g, shapes, s, ps[0], None);
      var o := Step(g, shapes, s, ps[0]);
      if o.Done? {
        RunSeenGrows(g, shapes, o.scan, ps[1..]);
      }
    }
  }

  /** Within one call a bucket only grows at its end, and only with products of this
      pass. */
  lemma {:induction false} RunExtends(g: Graph, shapes: OccShapes, s: Scan, ps: seq<Id>, k: FloorKey)
    requires WellFormed(g) && Products(g, ps) && Tracked(s)
    requires k in s.seen
    ensures var r := Run(g, shapes, s, ps).scan;
            && k in r.seen
            && s.buckets[k] <= r.buckets[k]
            && forall i :: |s.buckets[k]| <= i < |r.buckets[k]| ==> r.buckets[k][i].product in ps
    decreases |ps|
  {
    if ps != [] {
      StepAppends(g, shapes, s, ps[0], k);
      var o := Step(g, shapes, s, ps[0]);
      if o.Done? {
        RunExtends(g, shapes, o.scan, ps[1..], k);
        var r := Run(g, shapes, s, ps).scan;
        forall i | |s.buckets[k]| <= i < |r.buckets[k]| ensures r.buckets[k][i].product in ps {
          if i >= |o.scan.buckets[k]| {
            assert r.buckets[k][i].product in ps[1..];
          } else {
            assert o.scan.buckets[k][i] == r.buckets[k][i];
          }
        }
      }
    }
  }

  /** `ps` lists `x` before `y`. */
  ghost predicate ListedBefore(ps: seq<Id>, x: Id, y: Id) {
    exists a, b :: 0 <= a < b < |ps| && ps[a] == x && ps[b] == y
  }

  /** The entries of `bucket` from index `from` on name products of `ps`, in the order
      `ps` lists them. */
  ghost predicate AppendedInOrder(ps: seq<Id>, bucket: seq<Entry>, from: nat) {
    forall i, j :: from <= i < j < |bucket| ==> ListedBefore(ps, bucket[i].product, bucket[j].product)
  }

  /** Visiting `ps[0]` appends at most that product, and the rest of the pass appends
      products of `ps[1..]` in order: together they append in the order of `ps`. */
  lemma OrderAfterStep(ps: seq<Id>, from: nat, mid: seq<Entry>, bucket: seq<Entry>)
    requires |ps| > 0 && from <= |mid| <= from + 1 && mid <= bucket
    requires |mid| == from + 1 ==> mid[from].product == ps[0]
    requires forall i :: |mid| <= i < |bucket| ==> bucket[i].product in ps[1..]
    requires AppendedInOrder(ps[1..], bucket, |mid|)
    ensures AppendedInOrder(ps, bucket, from)
  {
    var rest := ps[1..];
    forall i, j | from <= i < j < |bucket|
      ensures ListedBefore(ps, bucket[i].product, bucket[j].product)
    {
      var x, y := bucket[i].product, bucket[j].product;
      if i < |mid| {
        assert bucket[i] == mid[i] && x == ps[0];
        assert y in rest;
        var b :| 0 <= b < |rest| && rest[b] == y;
        assert ps[0] == x && ps[b + 1] == y;
      } else {
        assert ListedBefore(rest, x, y);
        var a, b :| 0 <= a < b < |rest| && rest[a] == x && rest[b] == y;
        assert ps[a + 1] == x && ps[b + 1] == y;
      }
    }
  }

  /** What a pass appends to a bucket comes in visit order: of two appended entries, the
      earlier one's product is visited earlier. */
  lemma {:induction false} RunAppendsInVisitOrder(g: Graph, shapes: OccShapes, s: Scan, ps: seq<Id>, k: FloorKey)
    requires WellFormed(g) && Products(g, ps) && Tracked(s)
    requires k in s.seen
    ensures var r := Run(g, shapes, s, ps).scan;
            k in r.seen && AppendedInOrder(ps, r.buckets[k], |s.buckets[k]|)
    decreases |ps|
  {
    RunExtends(g, shapes, s, ps, k);
    if ps != [] {
      StepAppends(g, shapes, s, ps[0], k);
      var o := Step(g, shapes, s, ps[0]);
      if o.Done? {
        RunAppendsInVisitOrder(g, shapes, o.scan, ps[1..], k);
        RunExtends(g, shapes, o.scan, ps[1..], k);
        OrderAfterStep(ps, |s.buckets[k]|, o.scan.buckets[k], Run(g, shapes, s, ps).scan.buckets[k]);
      }
    }
  }

  /** Over a product list without repeats (as `by_type` gives), a pass appends each
      product at most once to a bucket. */
  lemma RunAppendsOnce(g: Graph, shapes: OccShapes, s: Scan, ps: seq<Id>, k: FloorKey)
    requires WellFormed(g) && Products(g, ps) && Tracked(s) && Distinct(ps)
    requires k in s.seen
    ensures var r := Run(g, shapes, s, ps).scan;
            k in r.seen &&
            forall i, j :: |s.buckets[k]| <= i < j < |r.buckets[k]| ==> r.buckets[k][i].product != r.buckets[k][j].product
  {
    RunAppendsInVisitOrder(g, shapes, s, ps, k);
    var bucket := Run(g, shapes, s, ps).scan.buckets[k];
    forall i, j | |s.buckets[k]| <= i < j < |bucket|
      ensures bucket[i].product != bucket[j].product
    {
      assert ListedBefore(ps, bucket[i].product, bucket[j].product);
      var a, b :| 0 <= a < b < |ps| && ps[a] == bucket[i].product && ps[b] == bucket[j].product;
    }
  }

  /** A floor first seen in this call starts from an empty bucket, so what an earlier
      call left there is discarded: its bucket holds products of this pass only, in the
      order the pass visits them. */
  lemma {:induction false} RunResets(g: Graph, shapes: OccShapes, s: Scan, ps: seq<Id>, k: FloorKey)
    requires WellFormed(g) && Products(g, ps) && Tracked(s)
    requires k !in s.seen && k in Run(g, shapes, s, ps).scan.seen
    ensures forall i :: 0 <= i < |Run(g, shapes, s, ps).scan.buckets[k]| ==>
              Run(g, shapes, s, ps).scan.buckets[k][i].product in ps
    ensures AppendedInOrder(ps, Run(g, shapes, s, ps).scan.buckets[k], 0)
    decreases |ps|
  {
    var o := Step(g, shapes, s, ps[0]);
    StepAppends(g, shapes, s, ps[0], k);
    var r := Run(g, shapes, s, ps).scan;
    if o.Done? {
      if k in o.scan.seen {
        RunExtends(g, shapes, o.scan, ps[1..], k);
        RunAppendsInVisitOrder(g, shapes, o.scan, ps[1..], k);
        forall i | 0 <= i < |r.buckets[k]| ensures r.buckets[k][i].product in ps {
          if i >= |o.scan.buckets[k]| {
            assert r.buckets[k][i].product in ps[1..];
          } else {
            assert o.scan.buckets[k][i] == r.buckets[k][i];
          }
        }
        OrderAfterStep(ps, 0, o.scan.buckets[k], r.buckets[k]);
      } else {
        RunResets(g, shapes, o.scan, ps[1..], k);
        forall i | 0 <= i < |r.buckets[k]| ensures r.buckets[k][i].product in ps {
          assert r.buckets[k][i].product in ps[1..];
        }
        OrderAfterStep(ps, 0, [], r.buckets[k]);
      }
    }
  }

  /** Over a product list without repeats, as `by_type` gives it, the bucket of a floor
      first seen in this call holds no product twice. */
  lemma RunResetsOnce(g: Graph, shapes: OccShapes, s: Scan, ps: seq<Id>, k: FloorKey)
    requires WellFormed(g) && Products(g, ps) && Tracked(s) && Distinct(ps)
    requires k !in s.seen && k in Run(g, shapes, s, ps).scan.seen
    ensures var bucket := Run(g, shapes, s, ps).scan.buckets[k];
            forall i, j :: 0 <= i < j < |bucket| ==> bucket[i].product != bucket[j].product
  {
    RunResets(g, shapes, s, ps, k);
    var bucket := Run(g, shapes, s, ps).scan.buckets[k];
    forall i, j | 0 <= i < j < |bucket|
      ensures bucket[i].product != bucket[j].product
    {
      assert ListedBefore(ps, bucket[i].product, bucket[j].product);
      var a, b :| 0 <= a < b < |ps| && ps[a] == bucket[i].product && ps[b] == bucket[j].product;
    }
  }

  /** A product that is sure to be bucketed in a pass that completes: a part (whose
      geometry then exists), or a fully tagged element with geometry. */
  predicate Placeable(g: Graph, shapes: OccShapes, p: Id)
    requires WellFormed(g) && p in g.entities && IsA(g.entities[p], IfcProduct)
  {
    var e := g.entities[p];
    !Excluded(e) && shapes(p).Some? &&
    (IsA(e, IfcBuildingElementPart) ||
     (Resolve(g, p).Ok? && TaggedName(Resolve(g, p).value.dict).Some? &&
      TaggedNumber(Resolve(g, p).value.dict).Some?))
  }

  lemma StepPlaces(g: Graph, shapes: OccShapes, s: Scan, p: Id)
    requires WellFormed(g) && p in g.entities && IsA(g.entities[p], IfcProduct) && Tracked(s)
    requires Placeable(g, shapes, p)
    ensures var r := Step(g, shapes, s, p).scan;
            FloorOf(g, p).Some? && FloorOf(g, p).value in r.seen &&
            Entry(p, shapes(p).value) in r.buckets[FloorOf(g, p).value]
  {
  }

  /** In a pass that completes, every placeable product ends up in the bucket of its
      floor, with its geometry. */
  lemma {:induction false} RunPlaces(g: Graph, shapes: OccShapes, s: Scan, ps: seq<Id>, i: nat)
    requires WellFormed(g) && Products(g, ps) && Tracked(s)
    requires Run(g, shapes, s, ps).Done?
    requires i < |ps| && Placeable(g, shapes, ps[i])
    ensures var r := Run(g, shapes, s, ps).scan;
            FloorOf(g, ps[i]).Some? && FloorOf(g, ps[i]).value in r.seen &&
            Entry(ps[i], shapes(ps[i]).value) in r.buckets[FloorOf(g, ps[i]).value]
    decreases |ps|
  {
    var o := Step(g, shapes, s, ps[0]);
    if i == 0 {
      StepPlaces(g, shapes, s, ps[0]);
      RunExtends(g, shapes, o.scan, ps[1..], FloorOf(g, ps[0]).value);
    } else {
      assert ps[1..][i - 1] == ps[i];
      RunPlaces(g, shapes, o.scan, ps[1..], i - 1);
    }
  }

  lemma {:induction false} RunDoneNoBlock(g: Graph, shapes: OccShapes, s: Scan, ps: seq<Id>, i: nat)
    requires WellFormed(g) && Products(g, ps) && Tracked(s)
    requires Run(g, shapes, s, ps).Done? && i < |ps|
    ensures !Blocks(g, shapes, ps[i])
    decreases |ps|
  {
    StepAborts(g, shapes, s, ps[0]);
    if i > 0 {
      assert ps[1..][i - 1] == ps[i];
      RunDoneNoBlock(g, shapes, Step(g, shapes, s, ps[0]).scan, ps[1..], i - 1);
    }
  }

  /** In a pass that completes, every part has geometry and sits in the bucket of the
      storey `get_storey_of_part` gives it, which may be the `None` key. */
  lemma PartsBucketed(g: Graph, shapes: OccShapes, s: Scan, ps: seq<Id>, i: nat)
    requires WellFormed(g) && Products(g, ps) && Tracked(s)
    requires Run(g, shapes, s, ps).Done?
    requires i < |ps| && IsA(g.entities[ps[i]], IfcBuildingElementPart)
    ensures shapes(ps[i]).Some?
    ensures PartKey(g, ps[i]) in Run(g, shapes, s, ps).scan.seen
    ensures Entry(ps[i], shapes(ps[i]).value) in Run(g, shapes, s, ps).scan.buckets[PartKey(g, ps[i])]
  {
    var p := ps[i];
    RunDoneNoBlock(g, shapes, s, ps, i);
    assert !Excluded(g.entities[p]) && shapes(p).Some?;
    assert FloorOf(g, p) == Some(PartKey(g, p));
    assert Placeable(g, shapes, p);
    RunPlaces(g, shapes, s, ps, i);
  }

  // ---------------------------------------------------------------------------------
  // The number-to-name map
  // ---------------------------------------------------------------------------------

  /** An element not mapped by name yet (the usual case, since the map's keys are
      numbers) writes `number -> name`, overwriting any earlier name for that number. */
  lemma NumberMapOverwrites(g: Graph, shapes: OccShapes, s: Scan, p: Id)
    requires WellFormed(g) && p in g.entities && IsA(g.entities[p], IfcProduct) && Tracked(s)
    requires !Excluded(g.entities[p]) && !IsA(g.entities[p], IfcBuildingElementPart)
    requires Resolve(g, p).Ok?
    requires TaggedName(Resolve(g, p).value.dict).Some? && TaggedNumber(Resolve(g, p).value.dict).Some?
    requires TaggedName(Resolve(g, p).value.dict).value !in s.numberToName
    ensures Step(g, shapes, s, p).scan.numberToName ==
              s.numberToName[TaggedNumber(Resolve(g, p).value.dict).value := TaggedName(Resolve(g, p).value.dict).value]
  {
  }

  /** The guard tests the name against the keys: when the name happens to be a key, the
      map is left alone even if the element's number is not mapped. */
  lemma NumberGuardTestsName(g: Graph, shapes: OccShapes, s: Scan, p: Id)
    requires WellFormed(g) && p in g.entities && IsA(g.entities[p], IfcProduct) && Tracked(s)
    requires Resolve(g, p).Ok? ==> forall n :: TaggedName(Resolve(g, p).value.dict) == Some(n) ==> n in s.numberToName
    ensures Step(g, shapes, s, p).scan.numberToName == s.numberToName
  {
  }

  /** A missing floor number is swallowed after the bucket was opened: the bucket exists
      (possibly empty) but the element is not in it. */
  lemma MissingNumberKeepsOpenedBucket(g: Graph, shapes: OccShapes, s: Scan, p: Id)
    requires WellFormed(g) && p in g.entities && IsA(g.entities[p], IfcProduct) && Tracked(s)
    requires !Excluded(g.entities[p]) && !IsA(g.entities[p], IfcBuildingElementPart)
    requires Resolve(g, p).Ok?
    requires TaggedName(Resolve(g, p).value.dict).Some? && TaggedNumber(Resolve(g, p).value.dict).None?
    requires TaggedName(Resolve(g, p).value.dict).value !in s.numberToName
    ensures var k := Some(TaggedName(Resolve(g, p).value.dict).value);
            var r := Step(g, shapes, s, p);
            r.Done? && k in r.scan.seen && k in r.scan.buckets &&
            r.scan.buckets[k] == (if k in s.seen then s.buckets[k] else []) &&
            r.scan.numberToName == s.numberToName
  {
  }

  /** A geometry failure of a tagged element is swallowed after the bucket was opened
      and the number mapped: both stay, without the element. */
  lemma TaggedGeometryFailureSwallowed(g: Graph, shapes: OccShapes, s: Scan, p: Id)
    requires WellFormed(g) && p in g.entities && IsA(g.entities[p], IfcProduct) && Tracked(s)
    requires !Excluded(g.entities[p]) && !IsA(g.entities[p], IfcBuildingElementPart)
    requires Resolve(g, p).Ok? && shapes(p).None?
    requires TaggedName(Resolve(g, p).value.dict).Some? && TaggedNumber(Resolve(g, p).value.dict).Some?
    ensures var name := TaggedName(Resolve(g, p).value.dict).value;
            var r := Step(g, shapes, s, p);
            r.Done? && Some(name) in r.scan.seen &&
            r.scan.buckets[Some(name)] == (if Some(name) in s.seen then s.buckets[Some(name)] else []) &&
            (name !in s.numberToName ==>
               r.scan.numberToName == s.numberToName[TaggedNumber(Resolve(g, p).value.dict).value := name])
  {
  }

  // ---------------------------------------------------------------------------------
  // `get_floor_name`
  // ---------------------------------------------------------------------------------

  function DigitChar(d: nat): char
    requires d < 10
  {
    "0123456789"[d]
  }

  function DigitValue(c: char): nat {
    if '0' <= c <= '9' then (c as int - '0' as int) as nat else 0
  }

  /** The decimal digits of `n`, most significant first, with no leading zero. */
  function Digits(n: nat): (r: string)
    ensures |r| >= 1 && forall c <- r :: '0' <= c <= '9'
    ensures n > 0 ==> r[0] != '0'
    decreases n
  {
    if n < 10 then [DigitChar(n)] else Digits(n / 10) + [DigitChar(n % 10)]
  }

  /** The value of a string of decimal digits. */
  function ParseDigits(s: string): nat
    decreases |s|
  {
    if s == [] then 0 else 10 * ParseDigits(s[..|s| - 1]) + DigitValue(s[|s| - 1])
  }

  /** `str(n)` for a Python int. */
  function DecimalString(n: int): string {
    var magnitude := if n < 0 then -n else n;
    (if n < 0 then "-" else "") + Digits(magnitude)
  }

  /** The inverse of `DecimalString`. */
  function ParseDecimal(s: string): int {
    var negative := |s| > 0 && s[0] == '-';
    var magnitude := ParseDigits(if negative then s[1..] else s);
    if negative then 0 - magnitude else magnitude
  }

  lemma {:induction false} DigitsRoundTrip(n: nat)
    ensures ParseDigits(Digits(n)) == n
    decreases n
  {
    var d := Digits(n);
    if n >= 10 {
      DigitsRoundTrip(n / 10);
      assert d[..|d| - 1] == Digits(n / 10);
    }
    assert DigitValue(DigitChar(n % 10)) == n % 10;
  }

  lemma ParseNegated(d: string)
    ensures ParseDecimal("-" + d) == 0 - ParseDigits(d)
  {
    assert ("-" + d)[1..] == d;
  }

  lemma NegativeRoundTrip(n: int)
    requires n < 0
    ensures ParseDecimal(DecimalString(n)) == n
  {
    ParseNegated(Digits(-n));
    DigitsRoundTrip(-n);
  }

  lemma ParsePlain(d: string)
    requires d == [] || d[0] != '-'
    ensures ParseDecimal(d) == ParseDigits(d)
  {
  }

  lemma NonNegativeRoundTrip(n: nat)
    ensures ParseDecimal(DecimalString(n)) == n
  {
    var d := Digits(n);
    assert d[0] in d;
    ParsePlain(d);
    DigitsRoundTrip(n);
    assert DecimalString(n) == "" + d == d;
  }

  /** `str` is injective on ints: distinct floor numbers give distinct keys. */
  lemma DecimalRoundTrip(n: int)
    ensures ParseDecimal(DecimalString(n)) == n
  {
    if n < 0 {
      NegativeRoundTrip(n);
    } else {
      NonNegativeRoundTrip(n);
    }
  }

  /** The key `get_floor_name(n)` looks up: the text `str(n)`. */
  function FloorNumberKey(n: int): Value {
    Single(Text(DecimalString(n)))
  }

  // ---------------------------------------------------------------------------------
  // The parser object
  // ---------------------------------------------------------------------------------

  /** `IFCParser` after `parse_ifc`: the loaded graph, the resolver over it, the products
      in file order, the shape builder with its fixed settings, and the two maps that
      `separate_by_floor` fills. */
  class FloorParser {
    const graph: Graph
    const shapes: OccShapes
    const metadata: MetadataDictionary
    const products: seq<Id>
    var buckets: map<FloorKey, seq<Entry>>
    var numberToName: map<Value, Value>

    ghost predicate Valid()
      reads this, metadata
    {
      && WellFormed(graph)
      && metadata.Valid() && metadata.graph == graph
      && products == ByType(graph, IfcProduct)
      && BucketsSound(graph, shapes, buckets)
    }

    /** `__init__` followed by `parse_ifc` on a file already read into `g`. */
    constructor (g: Graph, shapeBuilder: OccShapes)
      requires WellFormed(g)
      ensures Valid() && graph == g && shapes == shapeBuilder && fresh(metadata)
      ensures products == ByType(g, IfcProduct) && buckets == map[] && numberToName == map[]
    {
      graph := g;
      shapes := shapeBuilder;
      metadata := new MetadataDictionary(g);
      products := ByType(g, IfcProduct);
      buckets := map[];
      numberToName := map[];
    }

    /** One iteration of the loop of `separate_by_floor`. */
    method VisitProduct(p: Id, seen: set<FloorKey>) returns (seen': set<FloorKey>, failure: Option<Failure>)
      requires Valid() && p in graph.entities && IsA(graph.entities[p], IfcProduct) && seen <= buckets.Keys
      modifies this, metadata
      ensures Valid()
      ensures var o := Step(graph, shapes, Scan(seen, old(buckets), old(numberToName)), p);
              Scan(seen', buckets, numberToName) == o.scan &&
              failure == (if o.Aborted? then Some(o.failure) else None)
    {
      StepSound(graph, shapes, Scan(seen, buckets, numberToName), p);
      var e := graph.entities[p];
      seen' := seen;
      failure := None;
      if IsA(e, IfcOpeningElement) || IsA(e, IfcSite) || IsA(e, IfcAnnotation) {
        return;
      }
      if IsA(e, IfcBuildingElementPart) {
        var floorName := PartKey(graph, p);
        if floorName !in seen' {
          seen' := seen' + {floorName};
          buckets := buckets[floorName := []];
        }
        var shape := shapes(p);
        if shape.None? {
          failure := Some(GeometryFailure(p));
          return;
        }
        buckets := buckets[floorName := buckets[floorName] + [Entry(p, shape.value)]];
        return;
      }
      var metadata1 := metadata.Get(p);
      if metadata1.Err? {
        failure := Some(MetadataFailure(metadata1.error));
        return;
      }
      var props := metadata1.value.dict;
      var name := TaggedName(props);
      if name.None? {
        return;
      }
      var floorName := Some(name.value);
      if floorName !in seen' {
        seen' := seen' + {floorName};
        buckets := buckets[floorName := []];
      }
      if name.value !in numberToName {
        var number := TaggedNumber(props);
        if number.None? {
          return;
        }
        numberToName := numberToName[number.value := name.value];
      }
      var shape := shapes(p);
      if shape.None? {
        return;
      }
      buckets := buckets[floorName := buckets[floorName] + [Entry(p, shape.value)]];
    }

    /** `separate_by_floor`: visits every product in file order with a fresh set of
        seen floors, and stops at the first exception that escapes its `try`. */
    method SeparateByFloor() returns (failure: Option<Failure>)
      requires Valid()
      modifies this, metadata
      ensures Valid()
      ensures var o := Run(graph, shapes, Scan({}, old(buckets), old(numberToName)), products);
              buckets == o.scan.buckets && numberToName == o.scan.numberToName &&
              failure == (if o.Aborted? then Some(o.failure) else None)
    {
      var seen: set<FloorKey> := {};
      var i := 0;
      while i < |products|
        invariant 0 <= i <= |products|
        invariant Valid() && seen <= buckets.Keys
        invariant Run(graph, shapes, Scan(seen, buckets, numberToName), products[i..]) ==
                  Run(graph, shapes, Scan({}, old(buckets), old(numberToName)), products)
      {
        assert products[i..][0] == products[i] && products[i..][1..] == products[i + 1..];
        var f;
        seen, f := VisitProduct(products[i], seen);
        if f.Some? {
          return f;
        }
        i := i + 1;
      }
      failure := None;
    }

    /** `get_floor_name(n)`: the name mapped to `str(n)`, or `None` where Python raises
        `KeyError`. */
    method GetFloorName(n: int) returns (r: Option<Value>)
      ensures r.Some? <==> FloorNumberKey(n) in numberToName
      ensures r.Some? ==> r.value == numberToName[FloorNumberKey(n)]
    {
      var key := Single(Text(DecimalString(n)));
      if key in numberToName {
        r := Some(numberToName[key]);
      } else {
        r := None;
      }
    }
  }
}
