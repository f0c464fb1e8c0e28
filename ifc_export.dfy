/** What the two export scripts share (`IFCExport` in both the STL and the GeoJSON
    variant): the selection of elements, the choice of the `Body` representation, the
    collection of ArchiCAD single-value properties and their projection onto the three
    stored metadata keys. */
module IfcExport {
  import opened Wrappers
  import opened IfcGraph
  import opened ArchiCad

  // ---------------------------------------------------------------------------------
  // Per-element outcomes
  // ---------------------------------------------------------------------------------

  /** The values of the `Some` entries, in order: what a loop that stores each element in
      its own `try` ends up storing. */
  function Somes<T>(xs: seq<Option<T>>): seq<T>
    decreases |xs|
  {
    if xs == [] then []
    else Somes(xs[..|xs| - 1]) + (if xs[|xs| - 1].Some? then [xs[|xs| - 1].value] else [])
  }

  lemma {:induction false} SomesAppend<T>(xs: seq<Option<T>>, ys: seq<Option<T>>)
    ensures Somes(xs + ys) == Somes(xs) + Somes(ys)
    decreases |ys|
  {
    if ys == [] {
      assert xs + ys == xs;
    } else {
      var ys' := ys[..|ys| - 1];
      assert (xs + ys)[..|xs + ys| - 1] == xs + ys';
      assert (xs + ys)[|xs + ys| - 1] == ys[|ys| - 1];
      SomesAppend(xs, ys');
    }
  }

  lemma {:induction false} SomesMembers<T>(xs: seq<Option<T>>)
    ensures |Somes(xs)| <= |xs|
    ensures forall v :: v in Somes(xs) <==> Some(v) in xs
    decreases |xs|
  {
    if xs != [] {
      var init := xs[..|xs| - 1];
      SomesMembers(init);
      assert xs == init + [xs[|xs| - 1]];
    }
  }

  lemma AppendAssoc<T>(a: seq<T>, b: seq<T>, c: seq<T>)
    ensures a + b + c == a + (b + c)
  {
  }

  // ---------------------------------------------------------------------------------
  // select_POI
  // ---------------------------------------------------------------------------------

  /** `select_POI`: walls, then standard-case walls, then curtain walls, then parts. */
  function SelectPoi(g: Graph): (r: seq<Id>)
    requires WellFormed(g)
    ensures forall x :: x in r <==>
              x in g.entities && (IsA(g.entities[x], IfcWall) || IsA(g.entities[x], IfcCurtainWall) ||
                                  IsA(g.entities[x], IfcBuildingElementPart))
  {
    ByType(g, IfcWall) + ByType(g, IfcWallStandardCase) + ByType(g, IfcCurtainWall) +
    ByType(g, IfcBuildingElementPart)
  }

  /** 1 when `x` is an entity of class `t` or a subtype, else 0. */
  function Hit(g: Graph, x: Id, t: TypeTag): nat {
    if x in g.entities && IsA(g.entities[x], t) then 1 else 0
  }

  /** Each of the four lists contributes one occurrence of every entity it matches. */
  lemma SelectPoiCount(g: Graph, x: Id)
    requires WellFormed(g)
    ensures multiset(SelectPoi(g))[x] ==
              Hit(g, x, IfcWall) + Hit(g, x, IfcWallStandardCase) + Hit(g, x, IfcCurtainWall) +
              Hit(g, x, IfcBuildingElementPart)
  {
    ByTypeCount(g, IfcWall, x);
    ByTypeCount(g, IfcWallStandardCase, x);
    ByTypeCount(g, IfcCurtainWall, x);
    ByTypeCount(g, IfcBuildingElementPart, x);
  }

  /** Since `by_type("IfcWall")` includes its subtypes, a standard-case wall is selected
      twice, and every other selected element once. */
  lemma StandardCaseWallSelectedTwice(g: Graph, x: Id)
    requires WellFormed(g) && x in g.entities && g.entities[x].Object?
    ensures g.entities[x].kind == WallStandardCase ==> multiset(SelectPoi(g))[x] == 2
    ensures g.entities[x].kind in {Wall, WallElementedCase, CurtainWall, BuildingElementPart} ==> multiset(SelectPoi(g))[x] == 1
  {
    SelectPoiCount(g, x);
    KindHits(g, x);
  }

  lemma KindHits(g: Graph, x: Id)
    requires x in g.entities && g.entities[x].Object?
    ensures var n := Hit(g, x, IfcWall) + Hit(g, x, IfcWallStandardCase) + Hit(g, x, IfcCurtainWall) +
                     Hit(g, x, IfcBuildingElementPart);
            && (g.entities[x].kind == WallStandardCase ==> n == 2)
            && (g.entities[x].kind in {Wall, WallElementedCase, CurtainWall, BuildingElementPart} ==> n == 1)
  {
  }

  /** The selection lists the walls of the file first, in file order. */
  lemma SelectPoiStartsWithWalls(g: Graph)
    requires WellFormed(g)
    ensures ByType(g, IfcWall) <= SelectPoi(g)
    ensures forall x <- SelectPoi(g)[|ByType(g, IfcWall)|..] ::
              x in g.entities && (!IsA(g.entities[x], IfcWall) || g.entities[x].kind == WallStandardCase)
  {
    var walls := ByType(g, IfcWall);
    var std, curtain, parts := ByType(g, IfcWallStandardCase), ByType(g, IfcCurtainWall), ByType(g, IfcBuildingElementPart);
    var rest := std + curtain + parts;
    AppendAssoc(walls, std, curtain);
    AppendAssoc(walls, std + curtain, parts);
    assert SelectPoi(g) == walls + rest;
    assert SelectPoi(g)[|walls|..] == rest;
    forall x | x in rest
      ensures x in g.entities && (!IsA(g.entities[x], IfcWall) || g.entities[x].kind == WallStandardCase)
    {
      if x in std {
      } else if x in curtain {
      } else {
        assert x in parts;
      }
    }
  }

  /** Every id names an object entity: what the exporters iterate over. */
  ghost predicate Objects(g: Graph, els: seq<Id>) {
    forall el <- els :: el in g.entities && g.entities[el].Object?
  }

  // ---------------------------------------------------------------------------------
  // The Body representation
  // ---------------------------------------------------------------------------------

  predicate IsBody(g: Graph, rep: Id) {
    rep in g.entities && g.entities[rep] == ShapeRepresentation(Some("Body"))
  }

  /** The first representation whose identifier is `"Body"`. */
  function FirstBody(g: Graph, reps: seq<Id>): (r: Option<Id>)
    ensures r.None? <==> forall i :: 0 <= i < |reps| ==> !IsBody(g, reps[i])
    ensures r.Some? ==> exists i :: 0 <= i < |reps| && reps[i] == r.value && IsBody(g, reps[i]) &&
                          forall j :: 0 <= j < i ==> !IsBody(g, reps[j])
  {
    if reps == [] then None
    else if IsBody(g, reps[0]) then Some(reps[0])
    else
      var r := FirstBody(g, reps[1..]);
      assert forall j :: 1 <= j < |reps| ==> reps[j] == reps[1..][j - 1];
      r
  }

  /** The loop of `get_metadata` that looks for the `Body` representation and breaks at
      the first one. */
  method FindBody(g: Graph, reps: seq<Id>) returns (body: Option<Id>)
    ensures body == FirstBody(g, reps)
  {
    body := None;
    var i := 0;
    while i < |reps|
      invariant 0 <= i <= |reps|
      invariant FirstBody(g, reps) == FirstBody(g, reps[i..])
    {
      assert reps[i..][0] == reps[i] && reps[i..][1..] == reps[i + 1..];
      if IsBody(g, reps[i]) {
        body := Some(reps[i]);
        return;
      }
      i := i + 1;
    }
  }

  // ---------------------------------------------------------------------------------
  // The ArchiCAD properties of an element
  // ---------------------------------------------------------------------------------

  /** A relation of the element that defines its `ArchiCADProperties` property set. */
  predicate ArchiCadSet(g: Graph, rel: Id)
    requires WellFormed(g) && rel in g.entities
  {
    match g.entities[rel]
    case RelDefinesByProperties(d) =>
      assert SchemaTyped(g, g.entities[rel]);
      g.entities[d].PropertySet? && g.entities[d].name == PsetName
    case _ => false
  }

  /** The properties of that set. */
  function SetProps(g: Graph, rel: Id): (r: seq<Id>)
    requires WellFormed(g) && rel in g.entities && ArchiCadSet(g, rel)
    ensures forall p <- r :: p in g.entities
  {
    var d := g.entities[rel].relatingPropertyDefinition;
    assert SchemaTyped(g, g.entities[rel]) && SchemaTyped(g, g.entities[d]);
    g.entities[d].hasProperties
  }

  /** `prop` is a single-value property named `k` with a nominal value. */
  predicate Contributes(g: Graph, prop: Id, k: string)
    requires prop in g.entities
  {
    g.entities[prop].PropertySingleValue? && g.entities[prop].name == k && g.entities[prop].nominalValue.Some?
  }

  /** The properties `ps` written into `acc` in order, each single-value property with a
      nominal value under its name; the fold runs from the front, so the last write of a
      name is the one that stays. */
  function PropsFold(g: Graph, acc: map<string, Attr>, ps: seq<Id>): map<string, Attr>
    requires forall p <- ps :: p in g.entities
    decreases |ps|
  {
    if ps == [] then acc
    else
      var before := PropsFold(g, acc, ps[..|ps| - 1]);
      var p := g.entities[ps[|ps| - 1]];
      if p.PropertySingleValue? && p.nominalValue.Some? then before[p.name := p.nominalValue.value]
      else before
  }

  /** The relations `rels` visited in order, each `ArchiCADProperties` set written in. */
  function RelsFold(g: Graph, acc: map<string, Attr>, rels: seq<Id>): map<string, Attr>
    requires WellFormed(g) && forall r <- rels :: r in g.entities
    decreases |rels|
  {
    if rels == [] then acc
    else
      var before := RelsFold(g, acc, rels[..|rels| - 1]);
      var rel := rels[|rels| - 1];
      if ArchiCadSet(g, rel) then PropsFold(g, before, SetProps(g, rel)) else before
  }

  lemma DefinitionsResolve(g: Graph, obj: Id)
    requires WellFormed(g) && obj in g.entities && g.entities[obj].Object?
    ensures forall r <- g.entities[obj].isDefinedBy :: r in g.entities
  {
    assert SchemaTyped(g, g.entities[obj]);
  }

  /** `archicad_props` once the nested loops of `get_metadata` are done. */
  function ArchiCadProps(g: Graph, obj: Id): map<string, Attr>
    requires WellFormed(g) && obj in g.entities && g.entities[obj].Object?
  {
    DefinitionsResolve(g, obj);
    RelsFold(g, map[], g.entities[obj].isDefinedBy)
  }

  lemma {:induction false} PropsFoldKeys(g: Graph, acc: map<string, Attr>, ps: seq<Id>, k: string)
    requires forall p <- ps :: p in g.entities
    ensures k in PropsFold(g, acc, ps) <==> k in acc || exists j :: 0 <= j < |ps| && Contributes(g, ps[j], k)
    decreases |ps|
  {
    if ps != [] {
      var init := ps[..|ps| - 1];
      PropsFoldKeys(g, acc, init, k);
      if j :| 0 <= j < |init| && Contributes(g, init[j], k) {
        assert ps[j] == init[j];
      }
      if j :| 0 <= j < |ps| && Contributes(g, ps[j], k) {
        if j < |init| { assert init[j] == ps[j]; }
      }
    }
  }

  /** A name no property writes keeps its value from `acc`. */
  lemma {:induction false} PropsFoldKeeps(g: Graph, acc: map<string, Attr>, ps: seq<Id>, k: string)
    requires forall p <- ps :: p in g.entities
    requires forall j :: 0 <= j < |ps| ==> !Contributes(g, ps[j], k)
    ensures (k in PropsFold(g, acc, ps) <==> k in acc) &&
            (k in acc ==> PropsFold(g, acc, ps)[k] == acc[k])
    decreases |ps|
  {
    if ps != [] {
      var init := ps[..|ps| - 1];
      assert forall j :: 0 <= j < |init| ==> init[j] == ps[j];
      PropsFoldKeeps(g, acc, init, k);
      assert !Contributes(g, ps[|ps| - 1], k);
    }
  }

  /** A later property of the same name overwrites an earlier one: the value stored for a
      name is the nominal value of the last property that writes it. */
  lemma {:induction false} PropsFoldLastWins(g: Graph, acc: map<string, Attr>, ps: seq<Id>, j: nat, k: string)
    requires forall p <- ps :: p in g.entities
    requires j < |ps| && Contributes(g, ps[j], k)
    requires forall j' :: j < j' < |ps| ==> !Contributes(g, ps[j'], k)
    ensures k in PropsFold(g, acc, ps) && PropsFold(g, acc, ps)[k] == g.entities[ps[j]].nominalValue.value
    decreases |ps|
  {
    var init := ps[..|ps| - 1];
    if j < |ps| - 1 {
      assert init[j] == ps[j];
      assert forall j' :: j < j' < |init| ==> init[j'] == ps[j'];
      PropsFoldLastWins(g, acc, init, j, k);
      assert !Contributes(g, ps[|ps| - 1], k);
    }
  }

  /** `rel` defines an `ArchiCADProperties` set that writes the name `k`. */
  predicate SetWrites(g: Graph, rel: Id, k: string)
    requires WellFormed(g)
  {
    rel in g.entities && ArchiCadSet(g, rel) && exists j :: 0 <= j < |SetProps(g, rel)| && Contributes(g, SetProps(g, rel)[j], k)
  }

  /** `name` appears in `archicad_props` exactly when some `ArchiCADProperties` set of the
      element has a single-value property of that name with a nominal value. */
  lemma {:induction false} RelsFoldKeys(g: Graph, acc: map<string, Attr>, rels: seq<Id>, k: string)
    requires WellFormed(g) && forall r <- rels :: r in g.entities
    ensures k in RelsFold(g, acc, rels) <==> k in acc || exists i :: 0 <= i < |rels| && SetWrites(g, rels[i], k)
    decreases |rels|
  {
    if rels != [] {
      var init := rels[..|rels| - 1];
      var last := rels[|rels| - 1];
      RelsFoldKeys(g, acc, init, k);
      if ArchiCadSet(g, last) {
        PropsFoldKeys(g, RelsFold(g, acc, init), SetProps(g, last), k);
      }
      if i :| 0 <= i < |init| && SetWrites(g, init[i], k) {
        assert rels[i] == init[i];
      }
      if i :| 0 <= i < |rels| && SetWrites(g, rels[i], k) {
        if i < |init| { assert init[i] == rels[i]; }
      }
    }
  }

  /** A set visited later overwrites an earlier one: the value stored for a name is the
      nominal value of its last writer in the last set that writes it. */
  lemma {:induction false} RelsFoldLastWins(g: Graph, acc: map<string, Attr>, rels: seq<Id>, i: nat, j: nat, k: string)
    requires WellFormed(g) && forall r <- rels :: r in g.entities
    requires i < |rels| && ArchiCadSet(g, rels[i])
    requires j < |SetProps(g, rels[i])| && Contributes(g, SetProps(g, rels[i])[j], k)
    requires forall j' :: j < j' < |SetProps(g, rels[i])| ==> !Contributes(g, SetProps(g, rels[i])[j'], k)
    requires forall i', j' :: i < i' < |rels| && ArchiCadSet(g, rels[i']) && 0 <= j' < |SetProps(g, rels[i'])| ==>
               !Contributes(g, SetProps(g, rels[i'])[j'], k)
    ensures k in RelsFold(g, acc, rels) &&
            RelsFold(g, acc, rels)[k] == g.entities[SetProps(g, rels[i])[j]].nominalValue.value
    decreases |rels|
  {
    var init := rels[..|rels| - 1];
    var last := rels[|rels| - 1];
    if i == |rels| - 1 {
      PropsFoldLastWins(g, RelsFold(g, acc, init), SetProps(g, last), j, k);
    } else {
      assert init[i] == rels[i];
      forall i', j' | i < i' < |init| && ArchiCadSet(g, init[i']) && 0 <= j' < |SetProps(g, init[i'])|
        ensures !Contributes(g, SetProps(g, init[i'])[j'], k)
      {
        assert init[i'] == rels[i'];
      }
      RelsFoldLastWins(g, acc, init, i, j, k);
      if ArchiCadSet(g, last) {
        PropsFoldKeeps(g, RelsFold(g, acc, init), SetProps(g, last), k);
      }
    }
  }

  /** The inner loop of `get_metadata`: the properties of one set written into `acc`. */
  method AbsorbSet(g: Graph, acc: map<string, Attr>, members: seq<Id>) returns (props: map<string, Attr>)
    requires forall p <- members :: p in g.entities
    ensures props == PropsFold(g, acc, members)
  {
    props := acc;
    for j := 0 to |members|
      invariant props == PropsFold(g, acc, members[..j])
    {
      assert members[..j + 1][..j] == members[..j];
      var prop := g.entities[members[j]];
      if prop.PropertySingleValue? && prop.nominalValue.Some? {
        props := props[prop.name := prop.nominalValue.value];
      }
    }
    assert members[..|members|] == members;
  }

  /** The nested loops of `get_metadata` that fill `archicad_props`. */
  method CollectArchiCadProps(g: Graph, obj: Id) returns (props: map<string, Attr>)
    requires WellFormed(g) && obj in g.entities && g.entities[obj].Object?
    ensures props == ArchiCadProps(g, obj)
  {
    DefinitionsResolve(g, obj);
    var rels := g.entities[obj].isDefinedBy;
    props := map[];
    for i := 0 to |rels|
      invariant props == RelsFold(g, map[], rels[..i])
    {
      ghost var prefix := rels[..i + 1];
      assert prefix[..|prefix| - 1] == rels[..i] && prefix[|prefix| - 1] == rels[i];
      if ArchiCadSet(g, rels[i]) {
        props := AbsorbSet(g, props, SetProps(g, rels[i]));
      }
      assert props == RelsFold(g, map[], prefix);
    }
    assert rels[..|rels|] == rels;
  }

  // ---------------------------------------------------------------------------------
  // The stored metadata
  // ---------------------------------------------------------------------------------

  const TypeKey := "ElementType"
  const NotAvailable := Text("N/A")

  /** `archicad_props.get(key, "N/A")`. */
  function GetOrNotAvailable(props: map<string, Attr>, key: string): Attr {
    if key in props then props[key] else NotAvailable
  }

  /** The metadata dict stored with an element: the floor name and number from its
      ArchiCAD properties, `"N/A"` where absent, and the name of its own class. */
  function ProjectMetadata(props: map<string, Attr>, kind: ObjectKind): (r: map<string, Attr>)
    ensures r.Keys == {NameKey, NumberKey, TypeKey}
    ensures NameKey in props ==> r[NameKey] == props[NameKey]
    ensures NameKey !in props ==> r[NameKey] == NotAvailable
    ensures NumberKey in props ==> r[NumberKey] == props[NumberKey]
    ensures NumberKey !in props ==> r[NumberKey] == NotAvailable
    ensures r[TypeKey] == Text(TypeName(kind))
  {
    map[NameKey := GetOrNotAvailable(props, NameKey),
        NumberKey := GetOrNotAvailable(props, NumberKey),
        TypeKey := Text(TypeName(kind))]
  }

  /** The metadata an element is stored with: the floor name is `"N/A"` when none of its
      `ArchiCADProperties` sets writes one, and otherwise the value collected for it. */
  lemma MetadataFloorName(g: Graph, obj: Id)
    requires WellFormed(g) && obj in g.entities && g.entities[obj].Object?
    ensures var rels := g.entities[obj].isDefinedBy;
            var m := ProjectMetadata(ArchiCadProps(g, obj), g.entities[obj].kind);
            && ((forall i :: 0 <= i < |rels| ==> !SetWrites(g, rels[i], NameKey)) ==> m[NameKey] == NotAvailable)
            && ((exists i :: 0 <= i < |rels| && SetWrites(g, rels[i], NameKey)) ==>
                  NameKey in ArchiCadProps(g, obj) && m[NameKey] == ArchiCadProps(g, obj)[NameKey])
  {
    DefinitionsResolve(g, obj);
    RelsFoldKeys(g, map[], g.entities[obj].isDefinedBy, NameKey);
  }
}
