/** A MongoDB collection as the backend uses it: documents addressed by a
    string `_id`, read with `find_one`, written with `update_one` (a `$set`
    of every field of a document) and `replace_one`. A failing database is
    modelled by `failures`, the errors the server reports for an `_id`. */
module MongoStore {
  import opened Json

  /** The error MongoDB raises when a write would change a document's `_id`. */
  const ImmutableId: string := "the (immutable) field '_id' was found to have been altered"

  /** A document as stored under `id`: its `_id` field first, then the body;
      keys are distinct at every depth, as in every bson Document. */
  predicate Stored(id: string, d: seq<Field>)
  {
    |d| > 0 && d[0] == Field("_id", Str(id)) && WellFormedFields(d)
  }

  /** The document written must not carry an `_id` other than `id`. */
  predicate KeepsId(id: string, fs: seq<Field>)
  {
    forall i :: 0 <= i < |fs| && fs[i].key == "_id" ==> fs[i].value == Str(id)
  }

  /** The effect of `{"$set": update}`: every field of `update` written in turn. */
  function SetFields(d: seq<Field>, update: seq<Field>): seq<Field>
  {
    if update == [] then d
    else
      var last := update[|update| - 1];
      Insert(SetFields(d, update[..|update| - 1]), last.key, last.value)
  }

  /** `$set` keeps a stored document stored. */
  lemma {:induction false} SetFieldsStored(id: string, d: seq<Field>, update: seq<Field>)
    requires Stored(id, d) && WellFormedFields(update) && KeepsId(id, update)
    ensures Stored(id, SetFields(d, update))
  {
    if update != [] {
      var init := update[..|update| - 1];
      var last := update[|update| - 1];
      SetFieldsStored(id, d, init);
      InsertWellFormed(SetFields(d, init), last.key, last.value);
    }
  }

  /** `_id` followed by a body without `_id` is a stored document. */
  lemma StoredWith(id: string, body: seq<Field>)
    requires WellFormedFields(body) && "_id" !in Keys(body)
    ensures Stored(id, [Field("_id", Str(id))] + body)
  {
    var d := [Field("_id", Str(id))] + body;
    forall i | 0 < i < |d|
      ensures d[i].key != "_id" && WellFormed(d[i].value)
    {
      assert d[i] == body[i - 1];
      assert Keys(body)[i - 1] == body[i - 1].key;
    }
  }

  /** The fields of `a` and `b` have the same keys, position by position. */
  predicate SameKeys(a: seq<Field>, b: seq<Field>)
  {
    |a| == |b| && forall i :: 0 <= i < |a| ==> a[i].key == b[i].key
  }

  lemma SameKeysDistinct(a: seq<Field>, b: seq<Field>)
    requires SameKeys(a, b) && DistinctKeys(b)
    ensures DistinctKeys(a)
  {
  }

  /** The document of `d` with the positions from `off` on taken from `update`. */
  function Overwritten(d: seq<Field>, update: seq<Field>, off: nat): seq<Field>
    requires off + |update| <= |d|
  {
    d[..off] + update + d[off + |update|..]
  }

  lemma OverwrittenKeys(d: seq<Field>, update: seq<Field>, off: nat)
    requires off + |update| <= |d|
    requires forall i :: 0 <= i < |update| ==> update[i].key == d[off + i].key
    ensures SameKeys(Overwritten(d, update, off), d)
  {
    var m := Overwritten(d, update, off);
    forall i | 0 <= i < |m|
      ensures m[i].key == d[i].key
    {
      if off <= i < off + |update| {
        assert m[i] == update[i - off];
      } else if i >= off + |update| {
        assert m[i] == d[i];
      }
    }
  }

  lemma OverwrittenStep(d: seq<Field>, update: seq<Field>, off: nat)
    requires off + |update| <= |d| && update != []
    ensures Overwritten(d, update[..|update| - 1], off)[off + |update| - 1 := update[|update| - 1]]
         == Overwritten(d, update, off)
  {
  }

  /** When `update` rewrites, in order, the keys found from position `off` of
      a document with distinct keys, `$set` overwrites exactly those positions. */
  lemma {:induction false} SetFieldsPositional(d: seq<Field>, update: seq<Field>, off: nat)
    requires DistinctKeys(d) && off + |update| <= |d|
    requires forall i :: 0 <= i < |update| ==> update[i].key == d[off + i].key
    ensures SetFields(d, update) == Overwritten(d, update, off)
    decreases |update|
  {
    if update == [] {
      assert Overwritten(d, update, off) == d;
    } else {
      var n := |update|;
      var init := update[..n - 1];
      SetFieldsPositional(d, init, off);
      var mid := Overwritten(d, init, off);
      assert DistinctKeys(mid) && mid[off + n - 1].key == update[n - 1].key by {
        OverwrittenKeys(d, init, off);
        SameKeysDistinct(mid, d);
      }
      InsertAtField(mid, off + n - 1, update[n - 1]);
      OverwrittenStep(d, update, off);
    }
  }

  lemma InsertAtField(fs: seq<Field>, p: nat, f: Field)
    requires DistinctKeys(fs) && p < |fs| && fs[p].key == f.key
    ensures Insert(fs, f.key, f.value) == fs[p := f]
  {
    InsertAt(fs, p, f.value);
  }

  /** When `update` rewrites exactly the keys of the body, in order, the stored
      document becomes `_id` followed by `update`. */
  lemma SetFieldsOverwrite(id: string, body: seq<Field>, update: seq<Field>)
    requires DistinctKeys(body) && "_id" !in Keys(body) && Keys(update) == Keys(body)
    ensures SetFields([Field("_id", Str(id))] + body, update) == [Field("_id", Str(id))] + update
  {
    var d := [Field("_id", Str(id))] + body;
    IdFirstDistinct(id, body);
    KeysShifted(id, body, update);
    SetFieldsAfterFirst(d, update);
  }

  /** Rewriting, in order, every key after the first. */
  lemma SetFieldsAfterFirst(d: seq<Field>, update: seq<Field>)
    requires DistinctKeys(d) && |d| == |update| + 1
    requires forall i :: 0 <= i < |update| ==> update[i].key == d[1 + i].key
    ensures SetFields(d, update) == [d[0]] + update
  {
    SetFieldsPositional(d, update, 1);
    OverwrittenTail(d, update);
  }

  /** Overwriting everything after the first field. */
  lemma OverwrittenTail(d: seq<Field>, update: seq<Field>)
    requires |d| == |update| + 1
    ensures Overwritten(d, update, 1) == [d[0]] + update
  {
    assert d[..1] == [d[0]] && d[1 + |update|..] == [];
  }

  lemma IdFirstDistinct(id: string, body: seq<Field>)
    requires DistinctKeys(body) && "_id" !in Keys(body)
    ensures DistinctKeys([Field("_id", Str(id))] + body)
  {
    var d := [Field("_id", Str(id))] + body;
    forall i, j | 0 <= i < j < |d|
      ensures d[i].key != d[j].key
    {
      assert Keys(body)[j - 1] == d[j].key;
      if i > 0 {
        assert Keys(body)[i - 1] == d[i].key;
      }
    }
  }

  lemma KeysShifted(id: string, body: seq<Field>, update: seq<Field>)
    requires Keys(update) == Keys(body)
    ensures var d := [Field("_id", Str(id))] + body;
      1 + |update| <= |d| && forall i :: 0 <= i < |update| ==> update[i].key == d[1 + i].key
  {
    var d := [Field("_id", Str(id))] + body;
    forall i | 0 <= i < |update|
      ensures update[i].key == d[1 + i].key
    {
      assert Keys(update)[i] == Keys(body)[i];
      assert d[1 + i] == body[i];
    }
  }

  /** `after` has the same keys as `before` and differs from it at most
      under `key`. */
  predicate OnlyAt(before: map<string, seq<Field>>, after: map<string, seq<Field>>, key: string)
  {
    after.Keys == before.Keys && forall k :: k in before && k != key ==> after[k] == before[k]
  }

  /** The errors the database server reports: `onRead[id]` when a read of
      `id` fails, `onWrite[id]` when a write of `id` fails. The two are
      independent, so a write can fail after a read of the same `id` succeeded. */
  datatype Faults = Faults(onRead: map<string, string>, onWrite: map<string, string>)

  class Collection {
    var docs: map<string, seq<Field>>
    var failures: Faults

    ghost predicate Valid()
      reads this
    {
      forall id :: id in docs ==> Stored(id, docs[id])
    }

    constructor (failing: Faults)
      ensures Valid() && docs == map[] && failures == failing
    {
      docs := map[];
      failures := failing;
    }

    /** The document under `id` as stored, if any. */
    function FindOne(id: string): (r: Result<Option<seq<Field>>>)
      reads this
      ensures r.Err? <==> id in failures.onRead
      ensures r.Ok? ==> (r.value.Some? <==> id in docs)
      ensures r.Ok? && r.value.Some? ==> r.value.value == docs[id]
    {
      if id in failures.onRead then Err(failures.onRead[id])
      else if id in docs then Ok(Some(docs[id]))
      else Ok(None)
    }

    /** `update_one({_id: id}, {$set: update}, upsert)`; the result is the
        upserted `_id` when a document was created. */
    method UpdateOne(id: string, update: seq<Field>, upsert: bool) returns (r: Result<Option<string>>)
      requires Valid() && WellFormedFields(update)
      modifies this
      ensures Valid() && failures == old(failures)
      ensures id in failures.onWrite ==> r == Err(failures.onWrite[id]) && docs == old(docs)
      ensures id !in failures.onWrite && !KeepsId(id, update) ==> r == Err(ImmutableId) && docs == old(docs)
      ensures id !in failures.onWrite && KeepsId(id, update) && id in old(docs) ==>
        r == Ok(None) && docs == old(docs)[id := SetFields(old(docs)[id], update)]
      ensures id !in failures.onWrite && KeepsId(id, update) && id !in old(docs) && upsert ==>
        r == Ok(Some(id)) && docs == old(docs)[id := SetFields([Field("_id", Str(id))], update)]
      ensures id !in failures.onWrite && KeepsId(id, update) && id !in old(docs) && !upsert ==>
        r == Ok(None) && docs == old(docs)
    {
      if id in failures.onWrite {
        r := Err(failures.onWrite[id]);
      } else if !KeepsId(id, update) {
        r := Err(ImmutableId);
      } else if id in docs {
        SetFieldsStored(id, docs[id], update);
        docs := docs[id := SetFields(docs[id], update)];
        r := Ok(None);
      } else if upsert {
        SetFieldsStored(id, [Field("_id", Str(id))], update);
        docs := docs[id := SetFields([Field("_id", Str(id))], update)];
        r := Ok(Some(id));
      } else {
        r := Ok(None);
      }
    }

    /** `replace_one({_id: id}, doc, upsert)`: the whole body is replaced.
        The result says whether a document was written. */
    method ReplaceOne(id: string, doc: seq<Field>, upsert: bool) returns (r: Result<bool>)
      requires Valid() && WellFormedFields(doc)
      modifies this
      ensures Valid() && failures == old(failures)
      ensures id in failures.onWrite ==> r == Err(failures.onWrite[id]) && docs == old(docs)
      ensures id !in failures.onWrite && !KeepsId(id, doc) ==> r == Err(ImmutableId) && docs == old(docs)
      ensures id !in failures.onWrite && KeepsId(id, doc) && (id in old(docs) || upsert) ==>
        r == Ok(true) && docs == old(docs)[id := [Field("_id", Str(id))] + Remove(doc, "_id")]
      ensures id !in failures.onWrite && KeepsId(id, doc) && id !in old(docs) && !upsert ==>
        r == Ok(false) && docs == old(docs)
    {
      if id in failures.onWrite {
        r := Err(failures.onWrite[id]);
      } else if !KeepsId(id, doc) {
        r := Err(ImmutableId);
      } else if id in docs || upsert {
        RemoveWellFormed(doc, "_id");
        StoredWith(id, Remove(doc, "_id"));
        docs := docs[id := [Field("_id", Str(id))] + Remove(doc, "_id")];
        r := Ok(true);
      } else {
        r := Ok(false);
      }
    }
  }
}
