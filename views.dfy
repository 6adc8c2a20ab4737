/** What every route handler shares: the request body test, the response
    shapes, the dict-form list comprehension, and the retrieve and delete
    steps, each with the outcome it promises stated over the store before
    and after. */
module Views {
  import opened Values
  import opened Kinds
  import opened UserModel
  import opened Objects
  import opened FileStorage

  datatype Json = JObj(fields: Record) | JList(items: seq<Record>)

  /** The HTTP outcome of a handler. ServerError stands for an exception the
      handler does not catch (status 500). */
  datatype Response =
    | Ok200(body: Json)
    | Created201(created: Record)
    | BadRequest(message: string)
    | NotFound
    | ServerError

  /** `make_response(jsonify({}), 200)` */
  const Deleted: Response := Ok200(JObj(map[]))

  /** What `params = request.get_json(silent=True)` and `if not params` leave. */
  datatype Body = NotJson | NotObject | Params(params: Record)

  /** An absent or unparsable body (None) and every falsy JSON value, the
      empty object included, are "Not a JSON"; a truthy value that is not an
      object passes the test but makes the next `params.get` or `params.pop`
      raise. */
  function ReadBody(body: Option<Val>): (b: Body)
    ensures b.NotJson? <==> body.None? || !Truthy(body.value)
    ensures b.Params? <==> body.Some? && body.value.VObj? && body.value.fields != map[]
    ensures b.Params? ==> b.params == body.value.fields
  {
    if body.None? || !Truthy(body.value) then NotJson
    else if body.value.VObj? then Params(body.value.fields)
    else NotObject
  }

  /** The file after a handler: rewritten from the new table when the
      handler called save(), as it was otherwise. */
  predicate Persisted(saved: bool, file0: map<string, Record>, objs1: map<Key, Record>, file1: map<string, Record>)
  {
    if saved then file1 == Snapshot(objs1) else file1 == file0
  }

  /** The dict forms of a table's entries. */
  function FormsOf(all: map<Key, Record>): set<Record>
  {
    set k | k in all :: ToDict(k, all[k])
  }

  /** items lists the dict form of every entry of all, one item per entry. */
  predicate Lists(all: map<Key, Record>, items: seq<Record>)
  {
    && |items| == |all|
    && (forall i :: 0 <= i < |items| ==> items[i] in FormsOf(all))
    && (forall k :: k in all ==> ToDict(k, all[k]) in items)
  }

  /** `[obj.to_dict() for obj in all.values()]` */
  method DictForms(all: map<Key, Record>) returns (items: seq<Record>)
    ensures Lists(all, items)
  {
    items := [];
    var rest := all.Keys;
    while rest != {}
      invariant rest <= all.Keys
      invariant |items| + |rest| == |all|
      invariant forall i :: 0 <= i < |items| ==> items[i] in FormsOf(all)
      invariant forall k :: k in all && k !in rest ==> ToDict(k, all[k]) in items
      decreases rest
    {
      var k :| k in rest;
      items := items + [ToDict(k, all[k])];
      rest := rest - {k};
    }
  }

  /** The objects of `kind` whose foreign key `fk` names the parent: the
      relationship getters `state.cities`, `city.places`, `place.reviews`. */
  function Children(objs: map<Key, Record>, kind: Kind, fk: string, parentId: string): map<Key, Record>
  {
    map k | k in objs && k.kind == kind && GetOr(objs[k], fk) == VStr(parentId) :: objs[k]
  }

  /** An object of the kind whose foreign key names the parent is one of
      its children. */
  lemma ChildOf(objs: map<Key, Record>, k: Key, fk: string, parentId: string)
    requires k in objs && GetOr(objs[k], fk) == VStr(parentId)
    ensures k in Children(objs, k.kind, fk, parentId)
  {
  }

  /** `place.amenities`: the stored amenities linked to the place. */
  function AmenitiesOf(objs: map<Key, Record>, links: set<Link>, placeId: string): map<Key, Record>
  {
    map k | k in objs && k.kind == Amenity && (placeId, k.id) in links :: objs[k]
  }

  /** A listing handler's 200 response. */
  predicate ListResponse(all: map<Key, Record>, resp: Response)
  {
    resp.Ok200? && resp.body.JList? && Lists(all, resp.body.items)
  }

  /** A nested listing handler: the parent must exist, then its children are listed. */
  method ListChildren(s: Storage, parent: Key, kind: Kind, fk: string) returns (resp: Response)
    ensures parent !in s.objects ==> resp == NotFound
    ensures parent in s.objects ==> ListResponse(Children(s.objects, kind, fk, parent.id), resp)
  {
    var p := s.Get(parent.kind, parent.id);
    if p.None? {
      return NotFound;
    }
    var items := DictForms(Children(s.objects, kind, fk, parent.id));
    resp := Ok200(JList(items));
  }

  /** A listing handler over one whole class. */
  method ListKind(s: Storage, kind: Kind) returns (resp: Response)
    ensures ListResponse(OfKind(s.objects, kind), resp)
  {
    var all := s.AllOf(kind);
    var items := DictForms(all);
    resp := Ok200(JList(items));
  }

  /** A retrieve handler: 200 with the dict form, or 404. */
  method Retrieve(s: Storage, kind: Kind, id: string) returns (resp: Response)
    ensures Key(kind, id) in s.objects ==> resp == Ok200(JObj(ToDict(Key(kind, id), s.objects[Key(kind, id)])))
    ensures Key(kind, id) !in s.objects ==> resp == NotFound
  {
    var obj := s.Get(kind, id);
    if obj.None? {
      return NotFound;
    }
    resp := Ok200(JObj(ToDict(Key(kind, id), obj.value)));
  }

  /** The outcome of a delete handler: 404 and nothing changes, or the entry
      is gone and the response is 200 `{}`. */
  predicate Removed(k: Key, objs0: map<Key, Record>,
                    objs1: map<Key, Record>, resp: Response)
  {
    if k in objs0 then resp == Deleted && objs1 == objs0 - {k}
    else resp == NotFound && objs1 == objs0
  }

  method Remove(s: Storage, kind: Kind, id: string) returns (resp: Response)
    requires s.Valid()
    modifies s
    ensures s.Valid() && s.links == old(s.links)
    ensures Removed(Key(kind, id), old(s.objects), s.objects, resp)
    ensures Persisted(resp == Deleted, old(s.file), s.objects, s.file)
  {
    var obj := s.Get(kind, id);
    if obj.None? {
      return NotFound;
    }
    s.Delete(kind, id);
    s.Save();
    resp := Deleted;
  }

  /** A successful delete removes exactly that entry: its class has one
      entry fewer and every other entry is kept. */
  lemma RemovedCounts(k: Key, objs0: map<Key, Record>,
                      objs1: map<Key, Record>, resp: Response)
    requires Removed(k, objs0, objs1, resp) && resp == Deleted
    ensures k in objs0 && k !in objs1
    ensures |OfKind(objs1, k.kind)| == |OfKind(objs0, k.kind)| - 1
    ensures forall kind :: kind != k.kind ==> OfKind(objs1, kind) == OfKind(objs0, kind)
    ensures forall k' :: k' in objs0 && k' != k ==> k' in objs1 && objs1[k'] == objs0[k']
  {
    DropCounts(objs0, k);
  }
}
