/** An in-memory stand-in for the MongoDB `users` collection behind MongoModel
    (src/lib/model.py): documents in natural (insertion) order, equality queries on
    fields, insert, whole-document save, and the bulk `is_active` update. */
module Store {
  import opened Wrappers
  import opened Models

  /** A query such as {"dnd": False, "platform": "Telegram"}: every listed field must be
      present and equal. */
  type Query = map<string, Value>

  predicate Matches(u: User, q: Query) {
    forall k :: k in q ==> k in UserAttrs(u) && UserAttrs(u)[k] == q[k]
  }

  /** `find_all(query)`: the matching documents, in collection order. */
  function Select(docs: seq<User>, q: Query): (r: seq<User>)
    ensures |r| <= |docs|
    ensures forall u :: u in r <==> u in docs && Matches(u, q)
    decreases |docs|
  {
    if docs == [] then []
    else (if Matches(docs[0], q) then [docs[0]] else []) + Select(docs[1..], q)
  }

  /** Selecting from two runs of documents selects from each in turn. */
  lemma {:induction false} SelectAppend(a: seq<User>, b: seq<User>, q: Query)
    ensures Select(a + b, q) == Select(a, q) + Select(b, q)
    decreases |a|
  {
    if a == [] {
      assert a + b == b;
    } else {
      assert (a + b)[0] == a[0];
      assert (a + b)[1..] == a[1..] + b;
      SelectAppend(a[1..], b, q);
    }
  }

  /** One document is selected exactly when it matches. Together with `SelectAppend`
      this fixes the result: the matching documents, in collection order. */
  lemma SelectSingle(u: User, q: Query)
    ensures Select([u], q) == if Matches(u, q) then [u] else []
  {
    assert [u][1..] == [];
  }

  /** Position of the document `find_one(query)` returns. */
  function FirstMatch(docs: seq<User>, q: Query): (r: Option<nat>)
    ensures r.Some? ==> r.value < |docs| && Matches(docs[r.value], q)
    ensures r.Some? ==> forall j :: 0 <= j < r.value ==> !Matches(docs[j], q)
    ensures r.None? <==> forall j :: 0 <= j < |docs| ==> !Matches(docs[j], q)
  {
    FirstFrom(docs, u => Matches(u, q), 0)
  }

  /** The scan of `find_one` from position `i` on, for the test `p`. */
  function FirstFrom(docs: seq<User>, p: User -> bool, i: nat): (r: Option<nat>)
    requires i <= |docs|
    ensures r.Some? ==> i <= r.value < |docs| && p(docs[r.value])
    ensures r.Some? ==> forall j :: i <= j < r.value ==> !p(docs[j])
    ensures r.None? ==> forall j :: i <= j < |docs| ==> !p(docs[j])
    decreases |docs| - i
  {
    if i == |docs| then None
    else if p(docs[i]) then Some(i)
    else FirstFrom(docs, p, i + 1)
  }

  /** `update_many({"user_id": {"$in": ids}}, {"is_active": False})`: the users whose
      `user_id` field equals one of `ids` become inactive; nothing else changes. */
  function Deactivate(docs: seq<User>, ids: seq<Value>): (r: seq<User>)
    ensures |r| == |docs|
    ensures forall i :: 0 <= i < |docs| ==>
      r[i] == if VStr(docs[i].user_id) in ids then docs[i].(is_active := false) else docs[i]
  {
    seq(|docs|, i requires 0 <= i < |docs| =>
      if VStr(docs[i].user_id) in ids then docs[i].(is_active := false) else docs[i])
  }

  /** In document terms: a document whose `user_id` is among `ids` keeps every field but
      `is_active`, which becomes False; every other document is unchanged. */
  lemma DeactivateFields(docs: seq<User>, ids: seq<Value>)
    ensures |Deactivate(docs, ids)| == |docs|
    ensures forall i :: 0 <= i < |docs| && VStr(docs[i].user_id) !in ids ==>
      Deactivate(docs, ids)[i] == docs[i]
    ensures forall i :: 0 <= i < |docs| && VStr(docs[i].user_id) in ids ==>
      var before, after := UserAttrs(docs[i]), UserAttrs(Deactivate(docs, ids)[i]);
      && after.Keys == before.Keys
      && after["is_active"] == VBool(false)
      && (forall k :: k in before && k != "is_active" ==> after[k] == before[k])
  {
  }

  /** Deactivating is idempotent. */
  lemma DeactivateIdempotent(docs: seq<User>, ids: seq<Value>)
    ensures Deactivate(Deactivate(docs, ids), ids) == Deactivate(docs, ids)
  {
  }

  class UserCollection {
    var docs: seq<User>
    /** The `$in` lists of the bulk updates issued so far, in order. */
    var bulkUpdates: seq<seq<Value>>

    constructor (initial: seq<User>)
      ensures docs == initial && bulkUpdates == []
    {
      docs := initial;
      bulkUpdates := [];
    }

    /** `save()` of a new object: its query {"_id": None} finds nothing, so it is inserted. */
    method InsertOne(u: User)
      modifies this
      ensures docs == old(docs) + [u] && bulkUpdates == old(bulkUpdates)
    {
      docs := docs + [u];
    }

    /** `save()` of a loaded object: the document with its `_id` gets all its attributes. */
    method SaveAt(i: nat, u: User)
      requires i < |docs|
      modifies this
      ensures docs == old(docs)[i := u] && bulkUpdates == old(bulkUpdates)
    {
      docs := docs[i := u];
    }

    method DeactivateMany(ids: seq<Value>)
      modifies this
      ensures docs == Deactivate(old(docs), ids)
      ensures bulkUpdates == old(bulkUpdates) + [ids]
    {
      docs := Deactivate(docs, ids);
      bulkUpdates := bulkUpdates + [ids];
    }
  }
}
