/** The update step every PUT handler shares: pop the protected keys from
    the body, overlay the rest on the stored dict form, build a new object
    from the result, delete the old one and save the new one under the same
    key. */
module Updating {
  import opened Values
  import opened Kinds
  import opened UserModel
  import opened Objects
  import opened FileStorage
  import opened Views

  /** `params.pop(f, None)` for each protected f, then
      `updated_obj = obj.to_dict(); updated_obj.update(params)`. */
  function Merge(current: Record, params: Record, protected: set<string>): (r: Record)
    ensures r.Keys == current.Keys + (params.Keys - protected)
    ensures forall f :: f in params && f !in protected ==> r[f] == params[f]
    ensures forall f :: f in current && (f !in params || f in protected) ==> r[f] == current[f]
  {
    current + (params - protected)
  }

  /** The object an update handler builds from the stored one. */
  function Rebuilt(k: Key, current: Record, params: Record, protected: set<string>, now: string): Option<Record>
    requires now != ""
  {
    Instantiate(k.kind, Merge(ToDict(k, current), params, protected), k.id, now)
  }

  /** The outcome of an update handler: 404 before the body is looked at,
      then "Not a JSON", then the merged object replaces the old one under
      the same key and the response is 200 with its dict form. */
  predicate Replaced(k: Key, protected: set<string>, body: Option<Val>, now: string,
                     objs0: map<Key, Record>,
                     objs1: map<Key, Record>, resp: Response)
    requires now != ""
  {
    if k !in objs0 then resp == NotFound && objs1 == objs0
    else match ReadBody(body)
      case NotJson => resp == BadRequest("Not a JSON") && objs1 == objs0
      case NotObject => resp == ServerError && objs1 == objs0
      case Params(p) =>
        match Rebuilt(k, objs0[k], p, protected, now)
        case None => resp == ServerError && objs1 == objs0
        case Some(r) => objs1 == objs0[k := r] && resp == Ok200(JObj(ToDict(k, r)))
  }

  /** Rebuilding keeps the key's id, whatever the body says about it. */
  lemma RebuiltKeepsId(k: Key, current: Record, params: Record, protected: set<string>, now: string)
    requires now != "" && WellFormed(k, current) && ServerFields <= protected
    ensures IdFor(Merge(ToDict(k, current), params, protected), k.id) == k.id
    ensures var r := Rebuilt(k, current, params, protected, now); r.Some? ==> WellFormed(k, r.value)
  {
  }

  /** `obj.delete()` then `new_obj.save()` for a new object under the same key. */
  method Swap(s: Storage, k: Key, r: Record)
    requires s.Valid() && WellFormed(k, r)
    modifies s
    ensures s.Valid() && s.links == old(s.links)
    ensures s.objects == old(s.objects)[k := r] && s.file == Snapshot(s.objects)
  {
    ghost var before := s.objects;
    s.Delete(k.kind, k.id);
    s.New(k.kind, r);
    assert s.objects == before[k := r];
    s.Save();
  }

  method Replace(s: Storage, kind: Kind, protected: set<string>, id: string, body: Option<Val>, now: string)
    returns (resp: Response)
    requires s.Valid() && now != "" && ServerFields <= protected
    modifies s
    ensures s.Valid() && s.links == old(s.links)
    ensures Replaced(Key(kind, id), protected, body, now, old(s.objects), s.objects, resp)
    ensures Persisted(resp.Ok200?, old(s.file), s.objects, s.file)
  {
    var k := Key(kind, id);
    var obj := s.Get(kind, id);
    if obj.None? {
      return NotFound;
    }
    var b := ReadBody(body);
    if b.NotJson? {
      return BadRequest("Not a JSON");
    }
    if b.NotObject? {
      return ServerError;
    }
    var updated := Merge(ToDict(k, obj.value), b.params, protected);
    var r := Instantiate(kind, updated, id, now);
    if r.None? {
      return ServerError;
    }
    RebuiltKeepsId(k, obj.value, b.params, protected, now);
    Swap(s, k, r.value);
    resp := Ok200(JObj(ToDict(k, r.value)));
  }

  /** A successful update keeps the table's keys: the entry is replaced in
      place, every other entry is kept, and every class keeps its count. */
  lemma ReplacedTable(k: Key, protected: set<string>, body: Option<Val>, now: string,
                      objs0: map<Key, Record>,
                      objs1: map<Key, Record>, resp: Response)
    requires now != ""
    requires Replaced(k, protected, body, now, objs0, objs1, resp) && resp.Ok200?
    ensures k in objs0 && ReadBody(body).Params?
    ensures objs1.Keys == objs0.Keys
    ensures forall kind :: |OfKind(objs1, kind)| == |OfKind(objs0, kind)|
    ensures forall k' :: k' in objs0 && k' != k ==> objs1[k'] == objs0[k']
  {
    forall kind ensures |OfKind(objs1, kind)| == |OfKind(objs0, kind)| {
      assert OfKind(objs1, kind).Keys == OfKind(objs0, kind).Keys;
    }
  }

  /** What an update builds from a stored object: same id and creation
      time, a fresh updated_at, protected fields as they were, supplied
      fields as the client sent them, everything else kept. */
  lemma RebuiltFields(k: Key, was: Record, p: Record, protected: set<string>, now: string)
    requires now != "" && ServerFields <= protected && WellFormed(k, was)
    requires Rebuilt(k, was, p, protected, now).Some?
    ensures var now' := Rebuilt(k, was, p, protected, now).value;
      && WellFormed(k, now')
      && now'["created_at"] == was["created_at"]
      && now'["updated_at"] == VStr(now)
      && now'.Keys == was.Keys + (p.Keys - protected - {"__class__"})
      && (forall f :: f in protected && f in was && f !in Managed && !(k.kind == User && f == "password") ==> now'[f] == was[f])
      && (forall f :: f in p && f !in protected && f !in Managed && !(k.kind == User && f == "password") ==> now'[f] == p[f])
      && (forall f :: f in was && f !in p && f !in Managed && !(k.kind == User && f == "password") ==> now'[f] == was[f])
  {
    var merged := Merge(ToDict(k, was), p, protected);
    RebuiltKeepsId(k, was, p, protected, now);
    InstantiateFields(k.kind, merged, k.id, now);
    assert merged["created_at"] == was["created_at"];
  }

  /** A successful update stores the rebuilt object under the same key and
      answers with its dict form. */
  lemma ReplacedRecord(k: Key, protected: set<string>, body: Option<Val>, now: string,
                       objs0: map<Key, Record>,
                       objs1: map<Key, Record>, resp: Response)
    requires now != ""
    requires Replaced(k, protected, body, now, objs0, objs1, resp) && resp.Ok200?
    ensures k in objs0 && k in objs1 && ReadBody(body).Params?
    ensures Rebuilt(k, objs0[k], ReadBody(body).params, protected, now) == Some(objs1[k])
    ensures resp.body == JObj(ToDict(k, objs1[k]))
  {
  }

  /** What an update guarantees about one protected field: a field the body
      is not allowed to change keeps its presence and its value. */
  lemma ReplacedKeeps(k: Key, protected: set<string>, body: Option<Val>, now: string,
                      objs0: map<Key, Record>,
                      objs1: map<Key, Record>, resp: Response, f: string)
    requires now != "" && ServerFields <= protected && Tracked(objs0)
    requires Replaced(k, protected, body, now, objs0, objs1, resp) && resp.Ok200?
    requires f in protected && f != "__class__" && !(k.kind == User && f == "password")
    ensures k in objs0 && k in objs1
    ensures f in objs1[k] <==> f in objs0[k]
    ensures f in objs0[k] && f != "updated_at" ==> objs1[k][f] == objs0[k][f]
  {
    ReplacedRecord(k, protected, body, now, objs0, objs1, resp);
    var p := ReadBody(body).params;
    RebuiltFields(k, objs0[k], p, protected, now);
  }
}
