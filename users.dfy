/** The User routes: /users and /users/<user_id> (api/v1/views/users.py).
    Every password a client sends reaches the store through the User hook. */
module UsersView {
  import opened Values
  import opened Kinds
  import opened UserModel
  import opened Objects
  import opened FileStorage
  import opened Views
  import opened Creating
  import opened Updating

  /** The body tests of `create_user`, in order. */
  const CreateChecks: seq<Check> := [Present("email"), Present("password")]

  /** The keys `update_user` pops from the body: email is one of them. */
  const Protected: set<string> := ServerFields + {"email"}

  /** GET /users */
  method ListUsers(s: Storage) returns (resp: Response)
    ensures ListResponse(OfKind(s.objects, User), resp)
  {
    resp := ListKind(s, User);
  }

  /** GET /users/<user_id> */
  method RetrieveUser(s: Storage, userId: string) returns (resp: Response)
    ensures Key(User, userId) in s.objects ==> resp == Ok200(JObj(ToDict(Key(User, userId), s.objects[Key(User, userId)])))
    ensures Key(User, userId) !in s.objects ==> resp == NotFound
  {
    resp := Retrieve(s, User, userId);
  }

  /** DELETE /users/<user_id> */
  method DeleteUser(s: Storage, userId: string) returns (resp: Response)
    requires s.Valid()
    modifies s
    ensures s.Valid() && s.links == old(s.links)
    ensures Removed(Key(User, userId), old(s.objects), s.objects, resp)
    ensures Persisted(resp == Deleted, old(s.file), s.objects, s.file)
  {
    resp := Remove(s, User, userId);
  }

  /** POST /users */
  method CreateUser(s: Storage, body: Option<Val>, freshId: string, now: string) returns (resp: Response)
    requires s.Valid() && now != ""
    modifies s
    ensures s.Valid() && s.links == old(s.links)
    ensures Created(None, User, CreateChecks, map[], body, freshId, now, old(s.objects), s.objects, resp)
    ensures Persisted(resp.Created201?, old(s.file), s.objects, s.file)
  {
    resp := Create(s, None, User, CreateChecks, map[], body, freshId, now);
  }

  /** PUT /users/<user_id> */
  method UpdateUser(s: Storage, userId: string, body: Option<Val>, now: string) returns (resp: Response)
    requires s.Valid() && now != ""
    modifies s
    ensures s.Valid() && s.links == old(s.links)
    ensures Replaced(Key(User, userId), Protected, body, now, old(s.objects), s.objects, resp)
    ensures Persisted(resp.Ok200?, old(s.file), s.objects, s.file)
  {
    resp := Replace(s, User, Protected, userId, body, now);
  }

  /** The create tests in order: "Not a JSON", then "Missing email", then
      "Missing password"; a body with a truthy email and password is
      accepted. */
  lemma CreateUserOrder(body: Option<Val>, objs: map<Key, Record>)
    ensures ReadBody(body).NotJson? ==> Screen(None, CreateChecks, body, objs) == Reject(BadRequest("Not a JSON"))
    ensures ReadBody(body).Params? && !Truthy(GetOr(ReadBody(body).params, "email")) ==>
      Screen(None, CreateChecks, body, objs) == Reject(BadRequest("Missing email"))
    ensures ReadBody(body).Params? && Truthy(GetOr(ReadBody(body).params, "email"))
            && !Truthy(GetOr(ReadBody(body).params, "password")) ==>
      Screen(None, CreateChecks, body, objs) == Reject(BadRequest("Missing password"))
    ensures Screen(None, CreateChecks, body, objs).Accept? <==>
      (ReadBody(body).Params? && Truthy(GetOr(ReadBody(body).params, "email"))
       && Truthy(GetOr(ReadBody(body).params, "password")))
  {
    if ReadBody(body).Params? {
      var p := ReadBody(body).params;
      if !Truthy(GetOr(p, "email")) {
        ScreenFailsAt(None, CreateChecks, body, objs, 0);
      } else if !Truthy(GetOr(p, "password")) {
        assert Passes(objs, p, CreateChecks[0]);
        ScreenFailsAt(None, CreateChecks, body, objs, 1);
      } else {
        assert Passes(objs, p, CreateChecks[0]) && Passes(objs, p, CreateChecks[1]);
      }
    }
  }

  /** An accepted body whose password is truthy but not a string makes the
      hook raise: 500, and nothing changes. */
  lemma CreateUserHookRaises(body: Option<Val>, freshId: string, now: string,
                             objs0: map<Key, Record>, objs1: map<Key, Record>, resp: Response)
    requires now != ""
    requires Created(None, User, CreateChecks, map[], body, freshId, now, objs0, objs1, resp)
    requires Screen(None, CreateChecks, body, objs0).Accept?
    requires ReadBody(body).Params? && "password" in ReadBody(body).params
    requires !ReadBody(body).params["password"].VStr?
    ensures resp == ServerError && objs1 == objs0
  {
    CreateUserOrder(body, objs0);
    var p := ReadBody(body).params;
    assert (p + map[])["password"] == p["password"];
    CreatedHookRaises(None, CreateChecks, map[], body, freshId, now, objs0, objs1, resp);
  }

  /** A created User holds the email it was sent and the digest of the
      password, never the password itself. */
  lemma CreateUserHashed(body: Option<Val>, freshId: string, now: string,
                         objs0: map<Key, Record>,
                         objs1: map<Key, Record>, resp: Response)
    requires now != ""
    requires Created(None, User, CreateChecks, map[], body, freshId, now, objs0, objs1, resp)
    requires resp.Created201?
    ensures ReadBody(body).Params?
    ensures var p := ReadBody(body).params;
      var k := Key(User, IdFor(p + map[], freshId));
      && k in objs1 && "email" in p && objs1[k]["email"] == p["email"]
      && "password" in p && p["password"].VStr? && objs1[k]["password"] == VStr(Hash(p["password"].s))
  {
    CreatedRequired(None, User, CreateChecks, map[], body, freshId, now, objs0, objs1, resp, 0);
    CreatedStored(None, User, CreateChecks, map[], body, freshId, now, objs0, objs1, resp);
    CreatedHashed(None, CreateChecks, map[], body, freshId, now, objs0, objs1, resp);
    assert Passes(objs0, ReadBody(body).params, CreateChecks[1]);
  }

  /** What the hook does to an update: a string password in the body is
      stored as its digest, a non-string one makes the hook raise, and
      without one the stored digest goes through the hook again. */
  lemma RebuiltPassword(k: Key, was: Record, p: Record, now: string)
    requires now != "" && k.kind == User && WellFormed(k, was)
    ensures var r := Rebuilt(k, was, p, Protected, now);
      && ("password" in p ==> (r.Some? <==> p["password"].VStr?))
      && ("password" in p && r.Some? ==> r.value["password"] == VStr(Hash(p["password"].s)))
      && ("password" !in p && "password" in was ==> r.Some? && r.value["password"] == VStr(Hash(was["password"].s)))
      && ("password" !in p && "password" !in was ==> r.Some? && "password" !in r.value)
  {
    var merged := Merge(ToDict(k, was), p, Protected);
    if Rebuilt(k, was, p, Protected, now).Some? {
      InstantiateFields(User, merged, k.id, now);
    }
  }

  /** An update never changes a user's email. */
  lemma UpdateUserKeepsEmail(userId: string, body: Option<Val>, now: string,
                             objs0: map<Key, Record>,
                             objs1: map<Key, Record>, resp: Response)
    requires now != "" && Tracked(objs0)
    requires Replaced(Key(User, userId), Protected, body, now, objs0, objs1, resp) && resp.Ok200?
    ensures var k := Key(User, userId);
      && k in objs0 && k in objs1
      && ("email" in objs1[k] <==> "email" in objs0[k])
      && ("email" in objs0[k] ==> objs1[k]["email"] == objs0[k]["email"])
  {
    ReplacedKeeps(Key(User, userId), Protected, body, now, objs0, objs1, resp, "email");
  }

  /** An update's password outcome: a supplied string replaces the old
      password by its digest; with no password in the body the stored digest
      is hashed again; a supplied non-string is a 500 that changes nothing. */
  lemma UpdateUserPassword(userId: string, body: Option<Val>, now: string,
                           objs0: map<Key, Record>,
                           objs1: map<Key, Record>, resp: Response)
    requires now != "" && Tracked(objs0)
    requires Replaced(Key(User, userId), Protected, body, now, objs0, objs1, resp)
    requires Key(User, userId) in objs0 && ReadBody(body).Params?
    ensures var k, p := Key(User, userId), ReadBody(body).params;
      && ("password" in p && !p["password"].VStr? ==> resp == ServerError && objs1 == objs0)
      && ("password" in p && p["password"].VStr? ==> resp.Ok200? && objs1[k]["password"] == VStr(Hash(p["password"].s)))
      && ("password" !in p && "password" in objs0[k] ==>
            resp.Ok200? && objs1[k]["password"] == VStr(Hash(objs0[k]["password"].s)))
  {
    var k := Key(User, userId);
    RebuiltPassword(k, objs0[k], ReadBody(body).params, now);
  }
}
