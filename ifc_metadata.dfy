/** The memoized property resolver (`metadata_dictionary`): it turns an object's
    property sets and quantity sets into nested maps, dispatching on the entity's kind.
    The pure functions below say what a lookup yields; the class says how the cache
    makes a repeated lookup return the stored value. */
module IfcMetadata {
  import opened Wrappers
  import opened IfcGraph

  /** A Python value inside a resolved map: a wrapped scalar, a tuple of them, or a
      nested dict. */
  datatype Value = Single(attr: Attr) | Tuple(items: seq<Attr>) | Dict(entries: map<string, Value>)

  /** What `process` and `__getitem__` return: a `(name, value)` pair, a bare dict
      (for objects) or `None`. */
  datatype Resolved = Pair(key: string, value: Value) | Bare(dict: map<string, Value>) | Nothing

  /** The exceptions a lookup can raise: `None.wrappedValue` on a single-value property
      without a nominal value, `map` over `None` on an enumerated property without
      enumeration values. */
  datatype Error = MissingNominalValue(property: Id) | MissingEnumerationValues(property: Id)

  /** The attribute `__getitem__` reads for each dispatch kind. */
  datatype Accessor = IsDefinedBy | HasProperties | Quantities

  /** The kind-to-attribute table of `__getitem__`, in the order it is scanned. */
  const DispatchTable: seq<(TypeTag, Accessor)> :=
    [(IfcObject, IsDefinedBy), (IfcPropertySet, HasProperties), (IfcElementQuantity, Quantities)]

  function DispatchFrom(e: Entity, rows: seq<(TypeTag, Accessor)>): Option<Accessor> {
    if rows == [] then None
    else if IsA(e, rows[0].0) then Some(rows[0].1)
    else DispatchFrom(e, rows[1..])
  }

  /** The accessor of the first table row whose kind `e` is an instance of. */
  function Dispatch(e: Entity): (r: Option<Accessor>)
    ensures r == Some(IsDefinedBy) <==> e.Object?
    ensures r == Some(HasProperties) <==> e.PropertySet?
    ensures r == Some(Quantities) <==> e.ElementQuantity?
    ensures r == None <==> !(e.Object? || e.PropertySet? || e.ElementQuantity?)
  {
    var rest1 := [(IfcPropertySet, HasProperties), (IfcElementQuantity, Quantities)];
    var rest2 := [(IfcElementQuantity, Quantities)];
    assert DispatchTable[1..] == rest1 && rest1[1..] == rest2 && rest2[1..] == [];
    assert DispatchFrom(e, rest2) == if e.ElementQuantity? then Some(Quantities) else None;
    assert DispatchFrom(e, rest1) == if e.PropertySet? then Some(HasProperties) else DispatchFrom(e, rest2);
    DispatchFrom(e, DispatchTable)
  }

  /** `getattr(e, attribute_name)` for the accessor dispatch chose. */
  function Members(e: Entity, a: Accessor): seq<Id>
    requires Dispatch(e) == Some(a)
  {
    match a
    case IsDefinedBy => e.isDefinedBy
    case HasProperties => e.hasProperties
    case Quantities => e.quantities
  }

  /** In a schema-conforming graph the members an entity dispatches to sit one level
      closer to the leaves, which is why resolution terminates. */
  lemma MembersBelow(g: Graph, id: Id, a: Accessor)
    requires WellFormed(g) && id in g.entities && Dispatch(g.entities[id]) == Some(a)
    ensures forall c <- Members(g.entities[id], a) ::
              c in g.entities && Level(g.entities[c]) < Level(g.entities[id])
  {
    assert SchemaTyped(g, g.entities[id]);
  }

  /** `self[i]` on a fresh cache. */
  function Resolve(g: Graph, id: Id): (r: Result<Resolved, Error>)
    requires WellFormed(g) && id in g.entities
    ensures g.entities[id].Object? && r.Ok? ==> r.value.Bare?
    ensures (g.entities[id].PropertySet? || g.entities[id].ElementQuantity?) && r.Ok? ==>
              r.value.Pair? && r.value.key == g.entities[id].name && r.value.value.Dict?
    ensures !(g.entities[id].Object? || g.entities[id].PropertySet? || g.entities[id].ElementQuantity?) ==>
              r == Ok(Nothing)
    decreases Level(g.entities[id]), 1, 0
  {
    var e := g.entities[id];
    match Dispatch(e)
    case None => Ok(Nothing)
    case Some(a) =>
      MembersBelow(g, id, a);
      var d :- Collect(g, Members(e, a), Level(e), map[]);
      if IsA(e, IfcObject) then Ok(Bare(d)) else Ok(Pair(e.name, Dict(d)))
  }

  /** `dict(filter(None, map(self.process, ids)))`, continuing from the entries in
      `acc`: members are processed in order, a later pair overwrites an earlier one with
      the same key, `None` results are dropped, and the first exception stops the walk.
      `process` never yields a bare dict here (see its contract), so every item that is
      not dropped is a pair. */
  function Collect(g: Graph, ids: seq<Id>, bound: nat, acc: map<string, Value>): Result<map<string, Value>, Error>
    requires WellFormed(g)
    requires forall c <- ids :: c in g.entities && Level(g.entities[c]) < bound
    decreases bound, 0, |ids|
  {
    if ids == [] then Ok(acc)
    else
      var item :- Process(g, ids[0]);
      Collect(g, ids[1..], bound, if item.Pair? then acc[item.key := item.value] else acc)
  }

  /** `process(i)`: the leaf rules, and pass-through for a defines-by-properties relation. */
  function Process(g: Graph, id: Id): (r: Result<Resolved, Error>)
    requires WellFormed(g) && id in g.entities
    ensures r.Ok? ==> !r.value.Bare?
    decreases Level(g.entities[id]), 2, 0
  {
    var e := g.entities[id];
    match e
    case RelDefinesByProperties(d) =>
      assert SchemaTyped(g, e);
      Resolve(g, d)
    case PropertySingleValue(name, nominal) =>
      if nominal.None? then Err(MissingNominalValue(id)) else Ok(Pair(name, Single(nominal.value)))
    case PropertyEnumeratedValue(name, values) =>
      if values.None? then Err(MissingEnumerationValues(id)) else Ok(Pair(name, Tuple(values.value)))
    case SimpleQuantity(_, name, _, _, _, _) =>
      Ok(Pair(name, Single(QuantityAttributes(e)[3])))
    case _ => Ok(Nothing)
  }

  /** The key `process` gives a member when it gives a pair. */
  function PairKey(g: Graph, c: Id): Option<string>
    requires WellFormed(g) && c in g.entities
  {
    var r := Process(g, c);
    if r.Ok? && r.value.Pair? then Some(r.value.key) else None
  }

  /** Building a dict from members fails exactly when processing one of them fails. */
  lemma {:induction false} CollectFails(g: Graph, ids: seq<Id>, bound: nat, acc: map<string, Value>)
    requires WellFormed(g)
    requires forall c <- ids :: c in g.entities && Level(g.entities[c]) < bound
    ensures Collect(g, ids, bound, acc).Err? <==> exists i :: 0 <= i < |ids| && Process(g, ids[i]).Err?
    decreases |ids|
  {
    if ids != [] {
      var item := Process(g, ids[0]);
      if item.Ok? {
        var acc' := if item.value.Pair? then acc[item.value.key := item.value.value] else acc;
        CollectFails(g, ids[1..], bound, acc');
        if i :| 0 <= i < |ids| && Process(g, ids[i]).Err? {
          assert ids[1..][i - 1] == ids[i];
        }
        if i :| 0 <= i < |ids[1..]| && Process(g, ids[1..][i]).Err? {
          assert ids[i + 1] == ids[1..][i];
        }
      }
    }
  }

  /** The keys of the built dict: those already in `acc` and those of the pairs the
      members resolve to; unsupported members add nothing. */
  lemma {:induction false} CollectKeys(g: Graph, ids: seq<Id>, bound: nat, acc: map<string, Value>, k: string)
    requires WellFormed(g)
    requires forall c <- ids :: c in g.entities && Level(g.entities[c]) < bound
    requires Collect(g, ids, bound, acc).Ok?
    ensures k in Collect(g, ids, bound, acc).value <==>
              k in acc || exists i :: 0 <= i < |ids| && PairKey(g, ids[i]) == Some(k)
    decreases |ids|
  {
    if ids != [] {
      var item := Process(g, ids[0]).value;
      var acc' := if item.Pair? then acc[item.key := item.value] else acc;
      CollectKeys(g, ids[1..], bound, acc', k);
      if i :| 0 <= i < |ids| && PairKey(g, ids[i]) == Some(k) {
        if i > 0 { assert ids[1..][i - 1] == ids[i]; }
      }
      if i :| 0 <= i < |ids[1..]| && PairKey(g, ids[1..][i]) == Some(k) {
        assert ids[i + 1] == ids[1..][i];
      }
    }
  }

  /** An entry of `acc` that no member overwrites survives unchanged. */
  lemma {:induction false} CollectKeeps(g: Graph, ids: seq<Id>, bound: nat, acc: map<string, Value>, k: string)
    requires WellFormed(g)
    requires forall c <- ids :: c in g.entities && Level(g.entities[c]) < bound
    requires Collect(g, ids, bound, acc).Ok?
    requires k in acc && forall j :: 0 <= j < |ids| ==> PairKey(g, ids[j]) != Some(k)
    ensures k in Collect(g, ids, bound, acc).value && Collect(g, ids, bound, acc).value[k] == acc[k]
    decreases |ids|
  {
    if ids != [] {
      var item := Process(g, ids[0]).value;
      assert PairKey(g, ids[0]) != Some(k);
      var acc' := if item.Pair? then acc[item.key := item.value] else acc;
      forall j | 0 <= j < |ids[1..]| ensures PairKey(g, ids[1..][j]) != Some(k) {
        assert ids[1..][j] == ids[j + 1];
      }
      CollectKeeps(g, ids[1..], bound, acc', k);
    }
  }

  /** A later pair overwrites an earlier one with the same key: the entry for a key is
      the value of the last member that resolves to a pair with that key. */
  lemma {:induction false} CollectLastWins(g: Graph, ids: seq<Id>, bound: nat, acc: map<string, Value>, i: nat)
    requires WellFormed(g)
    requires forall c <- ids :: c in g.entities && Level(g.entities[c]) < bound
    requires Collect(g, ids, bound, acc).Ok?
    requires i < |ids| && PairKey(g, ids[i]).Some?
    requires forall j :: i < j < |ids| ==> PairKey(g, ids[j]) != PairKey(g, ids[i])
    ensures Process(g, ids[i]).value.key in Collect(g, ids, bound, acc).value
    ensures Collect(g, ids, bound, acc).value[Process(g, ids[i]).value.key] == Process(g, ids[i]).value.value
    decreases |ids|
  {
    var item := Process(g, ids[0]).value;
    var acc' := if item.Pair? then acc[item.key := item.value] else acc;
    if i == 0 {
      forall j | 0 <= j < |ids[1..]| ensures PairKey(g, ids[1..][j]) != Some(item.key) {
        assert ids[1..][j] == ids[j + 1];
      }
      CollectKeeps(g, ids[1..], bound, acc', item.key);
    } else {
      assert ids[1..][i - 1] == ids[i];
      forall j | i - 1 < j < |ids[1..]| ensures PairKey(g, ids[1..][j]) != PairKey(g, ids[1..][i - 1]) {
        assert ids[1..][j] == ids[j + 1];
      }
      CollectLastWins(g, ids[1..], bound, acc', i - 1);
    }
  }

  /** The members `__getitem__` walks for a property set or a quantity set. */
  function SetMembers(e: Entity): seq<Id>
    requires e.PropertySet? || e.ElementQuantity?
  {
    if e.PropertySet? then e.hasProperties else e.quantities
  }

  /** The name under which a property or quantity appears in its set's dict: single
      values, enumerations and every simple quantity are supported, other kinds are not. */
  function LeafName(e: Entity): Option<string> {
    match e
    case PropertySingleValue(n, v) => if v.Some? then Some(n) else None
    case PropertyEnumeratedValue(n, vs) => if vs.Some? then Some(n) else None
    case SimpleQuantity(_, n, _, _, _, _) => Some(n)
    case _ => None
  }

  /** A supported property whose value attribute is absent. */
  predicate LacksValue(e: Entity) {
    || (e.PropertySingleValue? && e.nominalValue.None?)
    || (e.PropertyEnumeratedValue? && e.enumerationValues.None?)
  }

  lemma LeafProcess(g: Graph, c: Id)
    requires WellFormed(g) && c in g.entities
    requires IsProperty(g.entities[c]) || IsQuantity(g.entities[c])
    ensures Process(g, c).Err? <==> LacksValue(g.entities[c])
    ensures Process(g, c).Ok? ==> PairKey(g, c) == LeafName(g.entities[c])
  {
  }

  /** A property set or quantity set resolves to `(Name, dict)`; the resolution fails
      exactly when a member lacks its value, and otherwise the dict's keys are exactly the
      names of its supported members: unsupported leaves are dropped without error. */
  lemma SetResolution(g: Graph, id: Id)
    requires WellFormed(g) && id in g.entities
    requires g.entities[id].PropertySet? || g.entities[id].ElementQuantity?
    ensures var ms := SetMembers(g.entities[id]);
            Resolve(g, id).Err? <==> exists i :: 0 <= i < |ms| && ms[i] in g.entities && LacksValue(g.entities[ms[i]])
    ensures var ms := SetMembers(g.entities[id]);
            Resolve(g, id).Ok? ==>
              Resolve(g, id).value.Pair? && Resolve(g, id).value.key == g.entities[id].name &&
              forall k :: k in Resolve(g, id).value.value.entries <==>
                exists i :: 0 <= i < |ms| && ms[i] in g.entities && LeafName(g.entities[ms[i]]) == Some(k)
  {
    var e := g.entities[id];
    var ms := SetMembers(e);
    var a := Dispatch(e).value;
    assert Members(e, a) == ms;
    MembersBelow(g, id, a);
    assert SchemaTyped(g, e);
    forall i | 0 <= i < |ms| ensures Process(g, ms[i]).Err? <==> LacksValue(g.entities[ms[i]]) {
      LeafProcess(g, ms[i]);
    }
    CollectFails(g, ms, Level(e), map[]);
    if Resolve(g, id).Ok? {
      forall i | 0 <= i < |ms| ensures PairKey(g, ms[i]) == LeafName(g.entities[ms[i]]) {
        LeafProcess(g, ms[i]);
      }
      forall k ensures k in Resolve(g, id).value.value.entries <==>
                         exists i :: 0 <= i < |ms| && ms[i] in g.entities && LeafName(g.entities[ms[i]]) == Some(k) {
        CollectKeys(g, ms, Level(e), map[], k);
      }
    }
  }

  /** The value a supported leaf contributes: the wrapped nominal value, the wrapped
      enumeration values in declared order, or the quantity's measure. */
  function LeafValue(e: Entity): Option<Value> {
    match e
    case PropertySingleValue(_, v) => if v.Some? then Some(Single(v.value)) else None
    case PropertyEnumeratedValue(_, vs) => if vs.Some? then Some(Tuple(vs.value)) else None
    case SimpleQuantity(_, _, _, _, x, _) => Some(Single(Real(x)))
    case _ => None
  }

  /** The entry of a set's dict under a name holds the value of the last member of that
      name: a later property of the same name overwrites an earlier one. */
  lemma SetEntryIsLastLeaf(g: Graph, id: Id, i: nat)
    requires WellFormed(g) && id in g.entities
    requires g.entities[id].PropertySet? || g.entities[id].ElementQuantity?
    requires Resolve(g, id).Ok?
    requires i < |SetMembers(g.entities[id])| && SetMembers(g.entities[id])[i] in g.entities
    requires LeafName(g.entities[SetMembers(g.entities[id])[i]]).Some?
    requires forall j :: i < j < |SetMembers(g.entities[id])| && SetMembers(g.entities[id])[j] in g.entities ==>
               LeafName(g.entities[SetMembers(g.entities[id])[j]]) != LeafName(g.entities[SetMembers(g.entities[id])[i]])
    ensures var leaf := g.entities[SetMembers(g.entities[id])[i]];
            var entries := Resolve(g, id).value.value.entries;
            leaf.name in entries && LeafValue(leaf) == Some(entries[leaf.name])
  {
    var e := g.entities[id];
    var ms := SetMembers(e);
    var a := Dispatch(e).value;
    assert Members(e, a) == ms;
    MembersBelow(g, id, a);
    assert SchemaTyped(g, e);
    CollectFails(g, ms, Level(e), map[]);
    forall j | 0 <= j < |ms| ensures PairKey(g, ms[j]) == LeafName(g.entities[ms[j]]) {
      LeafProcess(g, ms[j]);
    }
    CollectLastWins(g, ms, Level(e), map[], i);
    if g.entities[ms[i]].SimpleQuantity? {
      QuantityValueAtPositionThree(g, ms[i]);
    }
  }

  /** The name of the property set or quantity set that a relation of an object defines,
      if it defines one. */
  function DefinedSetName(g: Graph, rel: Id): Option<string>
    requires WellFormed(g) && rel in g.entities
  {
    match g.entities[rel]
    case RelDefinesByProperties(d) =>
      if d in g.entities && (g.entities[d].PropertySet? || g.entities[d].ElementQuantity?)
      then Some(g.entities[d].name) else None
    case _ => None
  }

  lemma RelationProcess(g: Graph, rel: Id)
    requires WellFormed(g) && rel in g.entities && IsRelation(g.entities[rel])
    requires Process(g, rel).Ok?
    ensures PairKey(g, rel) == DefinedSetName(g, rel)
  {
    assert SchemaTyped(g, g.entities[rel]);
  }

  /** An object resolves to a bare dict whose keys are exactly the names of the property
      sets and quantity sets its defines-by-properties relations point at. */
  lemma ObjectResolution(g: Graph, id: Id)
    requires WellFormed(g) && id in g.entities && g.entities[id].Object?
    ensures var defs := g.entities[id].isDefinedBy;
            Resolve(g, id).Ok? ==>
              forall k :: k in Resolve(g, id).value.dict <==>
                exists i :: 0 <= i < |defs| && defs[i] in g.entities && DefinedSetName(g, defs[i]) == Some(k)
  {
    var e := g.entities[id];
    var defs := e.isDefinedBy;
    assert Members(e, IsDefinedBy) == defs;
    MembersBelow(g, id, IsDefinedBy);
    assert SchemaTyped(g, e);
    if Resolve(g, id).Ok? {
      CollectFails(g, defs, Level(e), map[]);
      forall i | 0 <= i < |defs| ensures PairKey(g, defs[i]) == DefinedSetName(g, defs[i]) {
        RelationProcess(g, defs[i]);
      }
      forall k ensures k in Resolve(g, id).value.dict <==>
                         exists i :: 0 <= i < |defs| && defs[i] in g.entities && DefinedSetName(g, defs[i]) == Some(k) {
        CollectKeys(g, defs, Level(e), map[], k);
      }
    }
  }

  /** A defines-by-properties relation passes its set's resolution through unwrapped: the
      object's entry for the set's name is exactly the dict `self[set]` holds, unless a
      later relation defines another set of the same name, which then overwrites it. */
  lemma ObjectEntryIsSetResolution(g: Graph, id: Id, i: nat)
    requires WellFormed(g) && id in g.entities && g.entities[id].Object?
    requires Resolve(g, id).Ok?
    requires i < |g.entities[id].isDefinedBy|
    requires g.entities[id].isDefinedBy[i] in g.entities && DefinedSetName(g, g.entities[id].isDefinedBy[i]).Some?
    requires forall j :: i < j < |g.entities[id].isDefinedBy| && g.entities[id].isDefinedBy[j] in g.entities ==>
               DefinedSetName(g, g.entities[id].isDefinedBy[j]) != DefinedSetName(g, g.entities[id].isDefinedBy[i])
    ensures var d := g.entities[g.entities[id].isDefinedBy[i]].relatingPropertyDefinition;
            var name := g.entities[d].name;
            name in Resolve(g, id).value.dict &&
            Resolve(g, d) == Ok(Pair(name, Resolve(g, id).value.dict[name]))
  {
    var e := g.entities[id];
    var defs := e.isDefinedBy;
    assert Members(e, IsDefinedBy) == defs;
    MembersBelow(g, id, IsDefinedBy);
    assert SchemaTyped(g, e);
    CollectFails(g, defs, Level(e), map[]);
    forall j | 0 <= j < |defs| ensures PairKey(g, defs[j]) == DefinedSetName(g, defs[j]) {
      RelationProcess(g, defs[j]);
    }
    CollectLastWins(g, defs, Level(e), map[], i);
  }

  /** Any simple-quantity subtype resolves to `(Name, q[3])`, and position 3 is that
      subtype's own value attribute: no per-subtype case is needed. */
  lemma QuantityValueAtPositionThree(g: Graph, id: Id)
    requires WellFormed(g) && id in g.entities && g.entities[id].SimpleQuantity?
    ensures var q := g.entities[id];
            NamedAttribute(q, ValueAttributeName(q.quantityKind)) == Some(QuantityAttributes(q)[3])
    ensures var q := g.entities[id];
            Process(g, id) == Ok(Pair(q.name, Single(Real(q.measure))))
  {
    var q := g.entities[id];
    var names := QuantityAttributeNames(q.quantityKind);
    var vn := ValueAttributeName(q.quantityKind);
    assert names[0] != vn && names[1] != vn && names[2] != vn;
    assert IndexOf(names, vn) == 3;
  }

  /** What iterating over the resolver yields, item by item, up to the first exception. */
  datatype Yield = Yield(items: seq<(string, map<string, Value>)>, failure: Option<Error>)

  /** `__iter__` over the objects `objs`: `(GlobalId, self[obj])` for each, in order. */
  function Iteration(g: Graph, objs: seq<Id>): Yield
    requires WellFormed(g)
    requires forall o <- objs :: o in g.entities && g.entities[o].Object?
  {
    if objs == [] then Yield([], None)
    else
      match Resolve(g, objs[0])
      case Err(e) => Yield([], Some(e))
      case Ok(r) =>
        var rest := Iteration(g, objs[1..]);
        Yield([(g.entities[objs[0]].globalId, r.dict)] + rest.items, rest.failure)
  }

  /** One object of the iteration that resolves: its item comes next. */
  lemma IterationAdvance(g: Graph, objs: seq<Id>, i: nat, items: seq<(string, map<string, Value>)>,
                         item: (string, map<string, Value>))
    requires WellFormed(g)
    requires forall o <- objs :: o in g.entities && g.entities[o].Object?
    requires i < |objs| && Resolve(g, objs[i]).Ok?
    requires item == (g.entities[objs[i]].globalId, Resolve(g, objs[i]).value.dict)
    ensures var rest := Iteration(g, objs[i..]);
            var next := Iteration(g, objs[i + 1..]);
            Yield(items + rest.items, rest.failure) == Yield((items + [item]) + next.items, next.failure)
  {
    assert objs[i..][0] == objs[i] && objs[i..][1..] == objs[i + 1..];
    var next := Iteration(g, objs[i + 1..]);
    assert items + ([item] + next.items) == items + [item] + next.items;
  }

  /** One object of the iteration that raises: nothing more is yielded. */
  lemma IterationStops(g: Graph, objs: seq<Id>, i: nat)
    requires WellFormed(g)
    requires forall o <- objs :: o in g.entities && g.entities[o].Object?
    requires i < |objs| && Resolve(g, objs[i]).Err?
    ensures Iteration(g, objs[i..]) == Yield([], Some(Resolve(g, objs[i]).error))
  {
    assert objs[i..][0] == objs[i];
  }

  /** Iteration yields one item per object, in file order, each the object's GlobalId
      with its resolved dict; an exception ends it at the object that raised. */
  lemma {:induction false} IterationYields(g: Graph, objs: seq<Id>)
    requires WellFormed(g)
    requires forall o <- objs :: o in g.entities && g.entities[o].Object?
    ensures var y := Iteration(g, objs);
            && |y.items| <= |objs|
            && (y.failure.None? <==> |y.items| == |objs|)
            && (forall k :: 0 <= k < |y.items| ==>
                  y.items[k].0 == g.entities[objs[k]].globalId && Resolve(g, objs[k]) == Ok(Bare(y.items[k].1)))
            && (y.failure.Some? ==> Resolve(g, objs[|y.items|]) == Err(y.failure.value))
  {
    if objs != [] {
      var r := Resolve(g, objs[0]);
      if r.Ok? {
        var rest := Iteration(g, objs[1..]);
        IterationYields(g, objs[1..]);
        var y := Yield([(g.entities[objs[0]].globalId, r.value.dict)] + rest.items, rest.failure);
        assert Iteration(g, objs) == y;
        forall k | 0 <= k < |y.items| ensures
          y.items[k].0 == g.entities[objs[k]].globalId && Resolve(g, objs[k]) == Ok(Bare(y.items[k].1)) {
          if k > 0 { assert y.items[k] == rest.items[k - 1] && objs[k] == objs[1..][k - 1]; }
        }
        if y.failure.Some? { assert objs[|y.items|] == objs[1..][|rest.items|]; }
      }
    }
  }

  /** The resolver object: the graph it reads and the cache it fills, keyed by id. */
  class MetadataDictionary {
    const graph: Graph
    var cache: map<Id, Resolved>

    /** Every cached entry is what a fresh lookup of that entity yields. */
    ghost predicate Valid()
      reads this
    {
      && WellFormed(graph)
      && forall id :: id in cache ==>
           id in graph.entities && Dispatch(graph.entities[id]).Some? && Resolve(graph, id) == Ok(cache[id])
    }

    constructor (g: Graph)
      requires WellFormed(g)
      ensures Valid() && graph == g && cache == map[]
    {
      graph := g;
      cache := map[];
    }

    /** `self[i]`: a cached entity is answered from the cache with no traversal; any other
        is resolved, and stored when it is of one of the three dispatch kinds. */
    method Get(id: Id) returns (r: Result<Resolved, Error>)
      requires Valid() && id in graph.entities
      modifies this
      ensures Valid()
      ensures r == Resolve(graph, id)
      ensures old(cache).Keys <= cache.Keys
      ensures id in old(cache) ==> cache == old(cache) && r == Ok(old(cache)[id])
      ensures r.Ok? && Dispatch(graph.entities[id]).Some? ==> id in cache && cache[id] == r.value
      ensures Dispatch(graph.entities[id]).None? ==> cache == old(cache)
      decreases Level(graph.entities[id]), 1
    {
      if id in cache {
        return Ok(cache[id]);
      }
      var e := graph.entities[id];
      var accessor: Option<Accessor> := None;
      var t := 0;
      while t < |DispatchTable| && accessor.None?
        invariant 0 <= t <= |DispatchTable|
        invariant accessor.None? ==> DispatchFrom(e, DispatchTable[t..]) == Dispatch(e)
        invariant accessor.Some? ==> accessor == Dispatch(e)
      {
        if IsA(e, DispatchTable[t].0) {
          accessor := Some(DispatchTable[t].1);
        }
        t := t + 1;
      }
      if accessor.None? {
        return Ok(Nothing);
      }
      var members := Members(e, accessor.value);
      MembersBelow(graph, id, accessor.value);
      var collected := CollectMembers(members, Level(e));
      if collected.Err? {
        return Err(collected.error);
      }
      var props := collected.value;
      var result := if IsA(e, IfcObject) then Bare(props) else Pair(e.name, Dict(props));
      cache := cache[id := result];
      r := Ok(result);
    }

    /** The member walk of `__getitem__`: process each member in order, keep the pairs,
        a later key overwriting an earlier one, and stop at the first exception. */
    method CollectMembers(members: seq<Id>, bound: nat) returns (r: Result<map<string, Value>, Error>)
      requires Valid()
      requires forall c <- members :: c in graph.entities && Level(graph.entities[c]) < bound
      modifies this
      ensures Valid()
      ensures r == Collect(graph, members, bound, map[])
      ensures old(cache).Keys <= cache.Keys
      decreases bound, 0
    {
      var props: map<string, Value> := map[];
      var i := 0;
      while i < |members|
        invariant 0 <= i <= |members|
        invariant Valid()
        invariant old(cache).Keys <= cache.Keys
        invariant Collect(graph, members[i..], bound, props) == Collect(graph, members, bound, map[])
      {
        assert members[i..][0] == members[i] && members[i..][1..] == members[i + 1..];
        var item := ProcessItem(members[i]);
        if item.Err? {
          return Err(item.error);
        }
        if item.value.Pair? {
          props := props[item.value.key := item.value.value];
        }
        i := i + 1;
      }
      r := Ok(props);
    }

    /** `process(i)`, consulting the cache for a relation's property-set definition. */
    method ProcessItem(id: Id) returns (r: Result<Resolved, Error>)
      requires Valid() && id in graph.entities
      modifies this
      ensures Valid()
      ensures r == Process(graph, id)
      ensures old(cache).Keys <= cache.Keys
      decreases Level(graph.entities[id]), 2
    {
      var e := graph.entities[id];
      match e
      case RelDefinesByProperties(d) =>
        assert SchemaTyped(graph, e);
        r := Get(d);
      case PropertySingleValue(name, nominal) =>
        if nominal.None? {
          r := Err(MissingNominalValue(id));
        } else {
          r := Ok(Pair(name, Single(nominal.value)));
        }
      case PropertyEnumeratedValue(name, values) =>
        if values.None? {
          r := Err(MissingEnumerationValues(id));
        } else {
          r := Ok(Pair(name, Tuple(values.value)));
        }
      case SimpleQuantity(_, name, _, _, _, _) =>
        r := Ok(Pair(name, Single(QuantityAttributes(e)[3])));
      case _ =>
        r := Ok(Nothing);
    }

    /** `__iter__`: `(GlobalId, self[obj])` for every object of the file, in file order,
        whatever the cache already holds. */
    method Items() returns (items: seq<(string, map<string, Value>)>, failure: Option<Error>)
      requires Valid()
      modifies this
      ensures Valid()
      ensures Yield(items, failure) == Iteration(graph, ByType(graph, IfcObject))
    {
      var objs := ByType(graph, IfcObject);
      items := [];
      var i := 0;
      while i < |objs|
        invariant 0 <= i <= |objs|
        invariant Valid()
        invariant var rest := Iteration(graph, objs[i..]);
                  Yield(items + rest.items, rest.failure) == Iteration(graph, objs)
      {
        var r := Get(objs[i]);
        if r.Err? {
          IterationStops(graph, objs, i);
          assert items + [] == items;
          return items, Some(r.error);
        }
        var item := (graph.entities[objs[i]].globalId, r.value.dict);
        IterationAdvance(graph, objs, i, items, item);
        items := items + [item];
        i := i + 1;
      }
      assert objs[i..] == [];
      failure := None;
    }
  }
}
