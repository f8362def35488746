/** Projection of a typed submodel onto its flat value view, and the merge of
    a value view back into the typed submodel
    (backend/src/functions/transform_value_submodel.rs). */
module TransformValueSubmodel {
  import opened Json

  /** A submodel element. `attrs` holds every other attribute of the element
      (modelType, valueType, description, semanticId, category, ...), which
      both operations carry along untouched. A collection whose `value` is
      absent has `hasValue == false` (its `children` are then ignored). */
  datatype Element =
    | Property(idShort: Option<string>, value: Option<string>, attrs: seq<Field>)
    | Collection(idShort: Option<string>, hasValue: bool, children: seq<Element>, attrs: seq<Field>)
    | OtherElement(kind: string, idShort: Option<string>, attrs: seq<Field>)

  datatype Submodel = Submodel(elements: Option<seq<Element>>, attrs: seq<Field>)

  // -----------------------------------------------------------------------
  // Flatten: submodel -> value view
  // -----------------------------------------------------------------------

  /** The key under which an element appears in the value view, if it appears. */
  function FlatKey(e: Element): Option<string>
  {
    match e
    case Property(Some(id), _, _) => Some(id)
    case Collection(Some(id), true, _, _) => Some(id)
    case _ => None
  }

  /** What an element writes into the value view: a property its value or an
      explicit null, a collection the value view of its children. */
  function FlatValue(e: Element): Value
    requires FlatKey(e).Some?
  {
    match e
    case Property(_, v, _) => if v.Some? then Str(v.value) else Null
    case Collection(_, _, children, _) => Obj(FlattenElements(children))
  }

  /** The value view of a list of elements: each contributing element is
      written into the map in order, a later one overwriting an earlier one
      with the same key. */
  function FlattenElements(es: seq<Element>): seq<Field>
  {
    if es == [] then []
    else
      var acc := FlattenElements(es[..|es| - 1]);
      var e := es[|es| - 1];
      if FlatKey(e).Some? then Insert(acc, FlatKey(e).value, FlatValue(e)) else acc
  }

  /** The value view of a submodel; a submodel without elements gives `{}`. */
  function SubmodelValue(sm: Submodel): Value
  {
    if sm.elements.Some? then Obj(FlattenElements(sm.elements.value)) else Obj([])
  }

  /** Fills the value view with a loop, recursing into collections. */
  method SubmodelElementsToValue(es: seq<Element>) returns (fields: seq<Field>)
    ensures fields == FlattenElements(es)
  {
    fields := [];
    var i := 0;
    while i < |es|
      invariant 0 <= i <= |es|
      invariant fields == FlattenElements(es[..i])
    {
      var e := es[i];
      match e {
        case Property(Some(id), v, _) =>
          if v.Some? {
            fields := Insert(fields, id, Str(v.value));
          } else {
            fields := Insert(fields, id, Null);
          }
        case Collection(Some(id), true, nested, _) =>
          var nestedValue := SubmodelElementsToValue(nested);
          fields := Insert(fields, id, Obj(nestedValue));
        case _ =>
      }
      assert es[..i + 1][..i] == es[..i];
      i := i + 1;
    }
    assert es[..i] == es;
  }

  method SubmodelToSubmodelValue(sm: Submodel) returns (v: Value)
    ensures v == SubmodelValue(sm)
    ensures sm.elements.None? ==> v == Obj([])
  {
    v := Obj([]);
    if sm.elements.Some? {
      var fields := SubmodelElementsToValue(sm.elements.value);
      v := Obj(fields);
    }
  }

  /** An element contributes to the value view under key `k`. */
  predicate Contributes(e: Element, k: string)
  {
    FlatKey(e) == Some(k)
  }

  /** The value view holds `k` exactly when some element contributes under `k`:
      elements without an idShort, elements of other kinds and collections
      without a value never produce a key. */
  lemma {:induction false} FlattenKeys(es: seq<Element>, k: string)
    ensures k in Keys(FlattenElements(es)) <==> exists i :: 0 <= i < |es| && Contributes(es[i], k)
  {
    if es != [] {
      var init := es[..|es| - 1];
      FlattenKeys(init, k);
      if exists i :: 0 <= i < |init| && Contributes(init[i], k) {
        var i :| 0 <= i < |init| && Contributes(init[i], k);
        assert Contributes(es[i], k);
      }
      if exists i :: 0 <= i < |es| && Contributes(es[i], k) {
        var i :| 0 <= i < |es| && Contributes(es[i], k);
        if i < |init| {
          assert Contributes(init[i], k);
        }
      }
    }
  }

  /** The entry under `k` is written by the last element contributing under `k`. */
  lemma {:induction false} FlattenLastWins(es: seq<Element>, i: nat, k: string)
    requires i < |es| && Contributes(es[i], k)
    requires forall j :: i < j < |es| ==> !Contributes(es[j], k)
    ensures Lookup(FlattenElements(es), k) == Some(FlatValue(es[i]))
  {
    var init := es[..|es| - 1];
    var e := es[|es| - 1];
    if FlatKey(e).Some? {
      LookupInsert(FlattenElements(init), FlatKey(e).value, FlatValue(e), k);
    }
    if i < |es| - 1 {
      FlattenLastWins(init, i, k);
    }
  }

  /** A property with an idShort appears under that idShort, with its value,
      or with an explicit null when it has none (never as an absent key). */
  lemma FlattenProperty(es: seq<Element>, i: nat)
    requires i < |es| && es[i].Property? && es[i].idShort.Some?
    requires forall j :: i < j < |es| ==> !Contributes(es[j], es[i].idShort.value)
    ensures es[i].value.Some? ==> Lookup(FlattenElements(es), es[i].idShort.value) == Some(Str(es[i].value.value))
    ensures es[i].value.None? ==> Lookup(FlattenElements(es), es[i].idShort.value) == Some(Null)
  {
    FlattenLastWins(es, i, es[i].idShort.value);
  }

  /** A collection with an idShort and a value appears as the value view of
      its children; one without a value produces no key of its own. */
  lemma FlattenCollection(es: seq<Element>, i: nat)
    requires i < |es| && es[i].Collection? && es[i].idShort.Some?
    requires forall j :: 0 <= j < |es| && j != i ==> !Contributes(es[j], es[i].idShort.value)
    ensures es[i].hasValue ==>
      Lookup(FlattenElements(es), es[i].idShort.value) == Some(Obj(FlattenElements(es[i].children)))
    ensures !es[i].hasValue ==> Lookup(FlattenElements(es), es[i].idShort.value) == None
  {
    var k := es[i].idShort.value;
    if es[i].hasValue {
      FlattenLastWins(es, i, k);
    } else {
      FlattenKeys(es, k);
    }
  }

  // -----------------------------------------------------------------------
  // Merge: value view -> submodel
  // -----------------------------------------------------------------------

  /** The string a patch value is stored as: a string as it is, anything else
      as its JSON text (`4` becomes "4", `null` becomes "null"). */
  function PatchText(v: Value): string
  {
    if v.Str? then v.s else ToText(v)
  }

  function MergeElement(e: Element, patch: Value): Element
  {
    match e
    case Property(Some(id), _, attrs) =>
      (match Get(patch, id)
       case Some(nv) => Property(Some(id), Some(PatchText(nv)), attrs)
       case None => e)
    case Collection(Some(id), true, nested, attrs) =>
      (match Get(patch, id)
       case Some(nv) => Collection(Some(id), true, MergeElements(nested, nv), attrs)
       case None => e)
    case _ => e
  }

  function MergeElements(es: seq<Element>, patch: Value): seq<Element>
  {
    seq(|es|, i requires 0 <= i < |es| => MergeElement(es[i], patch))
  }

  function MergedSubmodel(sm: Submodel, patch: Value): Submodel
  {
    if sm.elements.Some? then Submodel(Some(MergeElements(sm.elements.value, patch)), sm.attrs) else sm
  }

  /** Rewrites the elements in place, recursing into collections. */
  method MergeValueIntoElements(a: array<Element>, patch: Value)
    modifies a
    ensures a[..] == MergeElements(old(a[..]), patch)
    decreases a[..], 1
  {
    var i := 0;
    while i < a.Length
      invariant 0 <= i <= a.Length
      invariant forall k :: 0 <= k < i ==> a[k] == MergeElement(old(a[k]), patch)
      invariant forall k :: i <= k < a.Length ==> a[k] == old(a[k])
    {
      MergeValueAt(a, i, patch, old(a[..]));
      i := i + 1;
    }
  }

  /** One step of the loop: the element at `i` takes the patch. `outer` is
      the array's content when the loop began, which still holds the element
      at `i` and bounds the recursion. */
  method MergeValueAt(a: array<Element>, i: nat, patch: Value, ghost outer: seq<Element>)
    requires i < a.Length && i < |outer| && a[i] == outer[i]
    modifies a
    ensures a[..] == old(a[..])[i := MergeElement(old(a[i]), patch)]
    decreases outer, 0
  {
    match a[i] {
      case Property(Some(id), v, attrs) =>
        match Get(patch, id) {
          case Some(nv) =>
            // an existing value is overwritten, a missing one is created
            if v.Some? {
              a[i] := Property(Some(id), Some(PatchText(nv)), attrs);
            } else {
              a[i] := Property(Some(id), Some(PatchText(nv)), attrs);
            }
          case None =>
        }
      case Collection(Some(id), true, nested, attrs) =>
        match Get(patch, id) {
          case Some(nv) =>
            var inner := new Element[|nested|](k requires 0 <= k < |nested| => nested[k]);
            assert inner[..] == nested;
            MergeValueIntoElements(inner, nv);
            a[i] := Collection(Some(id), true, inner[..], attrs);
          case None =>
        }
      case _ =>
    }
  }

  method MergeSubmodelValueToSubmodel(sm: Submodel, patch: Value) returns (r: Submodel)
    ensures r == MergedSubmodel(sm, patch)
  {
    r := sm;
    if sm.elements.Some? {
      var es := sm.elements.value;
      var a := new Element[|es|](k requires 0 <= k < |es| => es[k]);
      assert a[..] == es;
      MergeValueIntoElements(a, patch);
      r := Submodel(Some(a[..]), sm.attrs);
    }
  }

  /** Two elements agree on everything except property values. */
  predicate SameShape(a: Element, b: Element)
  {
    match a
    case Property(id, _, attrs) => b.Property? && b.idShort == id && b.attrs == attrs
    case Collection(id, hasValue, children, attrs) =>
      b.Collection? && b.idShort == id && b.attrs == attrs && b.hasValue == hasValue
      && SameShapes(children, b.children)
    case OtherElement(_, _, _) => b == a
  }

  predicate SameShapes(xs: seq<Element>, ys: seq<Element>)
  {
    |xs| == |ys| && forall i :: 0 <= i < |xs| ==> SameShape(xs[i], ys[i])
  }

  /** The merge keeps the element count, order, kinds, idShorts and metadata,
      at every depth; keys of the patch that name no element add nothing. */
  lemma {:induction false} MergeKeepsShape(es: seq<Element>, patch: Value)
    ensures SameShapes(es, MergeElements(es, patch))
  {
    var r := MergeElements(es, patch);
    forall i | 0 <= i < |es|
      ensures SameShape(es[i], r[i])
    {
      assert r[i] == MergeElement(es[i], patch);
      match es[i]
      case Collection(id, hasValue, nested, attrs) =>
        if id.Some? && hasValue && Get(patch, id.value).Some? {
          MergeKeepsShape(nested, Get(patch, id.value).value);
        } else {
          SameShapesRefl(nested);
        }
      case _ =>
    }
  }

  lemma {:induction false} SameShapesRefl(es: seq<Element>)
    ensures SameShapes(es, es)
  {
    forall i | 0 <= i < |es|
      ensures SameShape(es[i], es[i])
    {
      if es[i].Collection? {
        SameShapesRefl(es[i].children);
      }
    }
  }

  /** A property named in the patch takes the patch's text, whether or not it
      had a value before. */
  lemma MergeSetsProperty(es: seq<Element>, patch: Value, i: nat)
    requires i < |es| && es[i].Property? && es[i].idShort.Some?
    requires Get(patch, es[i].idShort.value).Some?
    ensures MergeElements(es, patch)[i]
            == Property(es[i].idShort, Some(PatchText(Get(patch, es[i].idShort.value).value)), es[i].attrs)
  {
  }

  /** An element that the patch does not name is left exactly as it was. */
  lemma MergeKeepsUnnamed(es: seq<Element>, patch: Value, i: nat)
    requires i < |es|
    requires es[i].idShort.None? || Get(patch, es[i].idShort.value).None?
    ensures MergeElements(es, patch)[i] == es[i]
  {
  }

  /** A collection is merged into only when it has a value; a patch entry that
      is not an object then leaves every child unchanged. */
  lemma MergeCollection(es: seq<Element>, patch: Value, i: nat)
    requires i < |es| && es[i].Collection? && es[i].idShort.Some?
    requires Get(patch, es[i].idShort.value).Some?
    ensures !es[i].hasValue ==> MergeElements(es, patch)[i] == es[i]
    ensures es[i].hasValue && !Get(patch, es[i].idShort.value).value.Obj? ==>
      MergeElements(es, patch)[i] == es[i]
  {
    var nv := Get(patch, es[i].idShort.value).value;
    if es[i].hasValue && !nv.Obj? {
      MergeNonObject(es[i].children, nv);
    }
  }

  /** A patch that is not an object changes nothing. */
  lemma MergeNonObject(es: seq<Element>, patch: Value)
    requires !patch.Obj?
    ensures MergeElements(es, patch) == es
  {
  }

  /** Patching twice with the same value view is patching once. */
  lemma {:induction false} MergeIdempotent(es: seq<Element>, patch: Value)
    ensures MergeElements(MergeElements(es, patch), patch) == MergeElements(es, patch)
  {
    var once := MergeElements(es, patch);
    var twice := MergeElements(once, patch);
    forall i | 0 <= i < |es|
      ensures twice[i] == once[i]
    {
      assert once[i] == MergeElement(es[i], patch);
      assert twice[i] == MergeElement(once[i], patch);
      match es[i]
      case Collection(Some(id), true, nested, attrs) =>
        var nv := Get(patch, id);
        if nv.Some? {
          MergeIdempotent(nested, nv.value);
        }
      case _ =>
    }
  }

  /** Every property, at every depth, has a value. */
  predicate AllValued(es: seq<Element>)
  {
    forall i :: 0 <= i < |es| ==>
      match es[i]
      case Property(_, v, _) => v.Some?
      case Collection(_, hasValue, children, _) => hasValue ==> AllValued(children)
      case OtherElement(_, _, _) => true
  }

  /** Sibling elements that appear in the value view have distinct idShorts,
      at every depth. */
  predicate UniqueKeys(es: seq<Element>)
  {
    && (forall i, j :: 0 <= i < j < |es| && FlatKey(es[i]).Some? ==> FlatKey(es[i]) != FlatKey(es[j]))
    && (forall i :: 0 <= i < |es| && es[i].Collection? && es[i].hasValue ==> UniqueKeys(es[i].children))
  }

  /** Merging a submodel's own value view back into it gives it back, provided
      every property has a value and sibling idShorts are unique. */
  lemma {:induction false} RoundTripElements(es: seq<Element>)
    requires AllValued(es) && UniqueKeys(es)
    ensures MergeElements(es, Obj(FlattenElements(es))) == es
    decreases es, 1
  {
    var r := MergeElements(es, Obj(FlattenElements(es)));
    forall i | 0 <= i < |es|
      ensures r[i] == es[i]
    {
      RoundTripAt(es, i);
    }
  }

  lemma {:induction false} RoundTripAt(es: seq<Element>, i: nat)
    requires AllValued(es) && UniqueKeys(es) && i < |es|
    ensures MergeElement(es[i], Obj(FlattenElements(es))) == es[i]
    decreases es, 0
  {
    var patch := Obj(FlattenElements(es));
    match es[i]
    case Property(Some(k), v, _) =>
      LaterKeysDiffer(es, i);
      FlattenLastWins(es, i, k);
      ElementValid(es, i);
      assert Get(patch, k) == Some(Str(v.value));
    case Collection(Some(k), true, nested, _) =>
      LaterKeysDiffer(es, i);
      FlattenLastWins(es, i, k);
      ElementValid(es, i);
      assert Get(patch, k) == Some(Obj(FlattenElements(nested)));
      RoundTripElements(nested);
    case _ =>
  }

  /** No later sibling contributes under the key of a contributing element. */
  lemma LaterKeysDiffer(es: seq<Element>, i: nat)
    requires UniqueKeys(es) && i < |es| && FlatKey(es[i]).Some?
    ensures forall j :: i < j < |es| ==> !Contributes(es[j], FlatKey(es[i]).value)
  {
    forall j | i < j < |es|
      ensures !Contributes(es[j], FlatKey(es[i]).value)
    {
      assert FlatKey(es[i]) != FlatKey(es[j]);
    }
  }

  /** The two invariants hold for one element: a property has a value, a
      valued collection's children satisfy both. */
  lemma ElementValid(es: seq<Element>, i: nat)
    requires AllValued(es) && UniqueKeys(es) && i < |es|
    ensures es[i].Property? ==> es[i].value.Some?
    ensures es[i].Collection? && es[i].hasValue ==> AllValued(es[i].children) && UniqueKeys(es[i].children)
  {
  }

  lemma RoundTrip(sm: Submodel)
    requires sm.elements.Some? ==> AllValued(sm.elements.value) && UniqueKeys(sm.elements.value)
    ensures MergedSubmodel(sm, SubmodelValue(sm)) == sm
  {
    if sm.elements.Some? {
      RoundTripElements(sm.elements.value);
    }
  }

  /** A property without a value does not round-trip: it flattens to null and
      is merged back as the string "null". */
  lemma ValuelessPropertyBecomesNullText(id: string, attrs: seq<Field>)
    ensures var es := [Property(Some(id), None, attrs)];
            MergeElements(es, Obj(FlattenElements(es))) == [Property(Some(id), Some("null"), attrs)]
  {
    var es := [Property(Some(id), None, attrs)];
    assert es[..0] == [];
    assert FlattenElements(es) == [Field(id, Null)];
  }

  /** Non-string patch values are stored as their JSON text. */
  lemma PatchTextExamples()
    ensures PatchText(Num(4)) == "4"
    ensures PatchText(Null) == "null"
    ensures PatchText(Bool(true)) == "true"
    ensures PatchText(Str("ARMv7")) == "ARMv7"
  {
  }
}
