/** The create step every POST handler shares: the existence check on the
    parent the path names, the body test, the ordered field tests, and then
    `params.update(forced); obj = kind(**params); obj.save()`. */
module Creating {
  import opened Values
  import opened Kinds
  import opened UserModel
  import opened Objects
  import opened FileStorage
  import opened Views

  /** The outcome of `obj = kind(**params); obj.save()` answered with 201 and
      the new dict form; a constructor that raises changes nothing. */
  predicate Inserted(kind: Kind, params: Record, freshId: string, now: string,
                     objs0: map<Key, Record>,
                     objs1: map<Key, Record>, resp: Response)
    requires now != ""
  {
    match Instantiate(kind, params, freshId, now)
    case None => resp == ServerError && objs1 == objs0
    case Some(r) =>
      var k := Key(kind, IdFor(params, freshId));
      objs1 == objs0[k := r] && resp == Created201(ToDict(k, r))
  }

  method Insert(s: Storage, kind: Kind, params: Record, freshId: string, now: string) returns (resp: Response)
    requires s.Valid() && now != ""
    modifies s
    ensures s.Valid() && s.links == old(s.links)
    ensures Inserted(kind, params, freshId, now, old(s.objects), s.objects, resp)
    ensures Persisted(resp.Created201?, old(s.file), s.objects, s.file)
  {
    var r := Instantiate(kind, params, freshId, now);
    if r.None? {
      return ServerError;
    }
    s.New(kind, r.value);
    s.Save();
    resp := Created201(ToDict(Key(kind, IdFor(params, freshId)), r.value));
  }

  /** A created object is stored under its key with the dict form the
      response carried and the client's plain fields; every other entry is
      kept. */
  lemma InsertedStored(kind: Kind, params: Record, freshId: string, now: string,
                       objs0: map<Key, Record>,
                       objs1: map<Key, Record>, resp: Response)
    requires now != ""
    requires Inserted(kind, params, freshId, now, objs0, objs1, resp) && resp.Created201?
    ensures var k := Key(kind, IdFor(params, freshId));
      && k in objs1 && WellFormed(k, objs1[k]) && ToDict(k, objs1[k]) == resp.created
      && (forall f :: f in params && f !in Managed && !(kind == User && f == "password") ==> objs1[k][f] == params[f])
      && (forall k' :: k' in objs0 && k' != k ==> k' in objs1 && objs1[k'] == objs0[k'])
     
  {
    InstantiateFields(kind, params, freshId, now);
  }

  /** A create under a fresh key adds one entry to its class and none to the
      others; a client-chosen id that is already taken replaces that entry. */
  lemma InsertedCounts(kind: Kind, params: Record, freshId: string, now: string,
                       objs0: map<Key, Record>,
                       objs1: map<Key, Record>, resp: Response)
    requires now != ""
    requires Inserted(kind, params, freshId, now, objs0, objs1, resp) && resp.Created201?
    ensures var k := Key(kind, IdFor(params, freshId));
      && (k !in objs0 ==> |OfKind(objs1, kind)| == |OfKind(objs0, kind)| + 1)
      && (k in objs0 ==> |OfKind(objs1, kind)| == |OfKind(objs0, kind)|)
      && (forall other :: other != kind ==> OfKind(objs1, other) == OfKind(objs0, other))
  {
    var k := Key(kind, IdFor(params, freshId));
    var r := Instantiate(kind, params, freshId, now).value;
    assert objs1 == objs0[k := r];
    PutCounts(objs0, k, r);
  }

  /** One body test of a create handler. */
  datatype Check =
    | Present(field: string)       // `if not params.get(field, None)`: 400 "Missing <field>"
    | Names(field: string, kind: Kind)  // `if not storage.get(kind, params.get(field))`: 404

  /** Whether a body passes one test against the store. */
  predicate Passes(objs: map<Key, Record>, p: Record, c: Check)
  {
    match c
    case Present(f) => Truthy(GetOr(p, f))
    case Names(f, kind) => GetOr(p, f).VStr? && Key(kind, GetOr(p, f).s) in objs
  }

  /** The response of a failed test. */
  function Failure(c: Check): Response
  {
    match c
    case Present(f) => BadRequest("Missing " + f)
    case Names(_, _) => NotFound
  }

  /** The response of the first test the body fails, in order; None when it
      passes them all. */
  function FirstFailure(objs: map<Key, Record>, p: Record, checks: seq<Check>): (r: Option<Response>)
    ensures r.None? <==> forall i :: 0 <= i < |checks| ==> Passes(objs, p, checks[i])
    ensures r.Some? ==> r.value.BadRequest? || r.value == NotFound
  {
    if checks == [] then None
    else if !Passes(objs, p, checks[0]) then Some(Failure(checks[0]))
    else
      var r := FirstFailure(objs, p, checks[1..]);
      assert forall i :: 1 <= i < |checks| ==> checks[i] == checks[1..][i - 1];
      r
  }

  /** The tests run in order: the response is that of the first test the
      body fails, every test before it having passed. */
  lemma {:induction false} FirstFailureIsFirst(objs: map<Key, Record>, p: Record, checks: seq<Check>)
    requires FirstFailure(objs, p, checks).Some?
    ensures exists i :: (0 <= i < |checks| && !Passes(objs, p, checks[i])
      && (forall j :: 0 <= j < i ==> Passes(objs, p, checks[j]))
      && FirstFailure(objs, p, checks).value == Failure(checks[i]))
  {
    if Passes(objs, p, checks[0]) {
      FirstFailureIsFirst(objs, p, checks[1..]);
      var i :| 0 <= i < |checks[1..]| && !Passes(objs, p, checks[1..][i])
        && (forall j :: 0 <= j < i ==> Passes(objs, p, checks[1..][j]))
        && FirstFailure(objs, p, checks[1..]).value == Failure(checks[1..][i]);
      assert !Passes(objs, p, checks[i + 1]);
      assert forall j :: 0 <= j < i + 1 ==> Passes(objs, p, checks[j]);
    } else {
      assert !Passes(objs, p, checks[0]);
    }
  }

  /** The first failing test decides the response. */
  lemma {:induction false} FirstFailureAt(objs: map<Key, Record>, p: Record, checks: seq<Check>, i: nat)
    requires i < |checks| && !Passes(objs, p, checks[i])
    requires forall j :: 0 <= j < i ==> Passes(objs, p, checks[j])
    ensures FirstFailure(objs, p, checks) == Some(Failure(checks[i]))
    decreases i
  {
    if i > 0 {
      assert Passes(objs, p, checks[0]);
      assert checks[1..][i - 1] == checks[i];
      FirstFailureAt(objs, p, checks[1..], i - 1);
    }
  }

  /** What the tests before construction decide: a response, or the body
      that goes on to be built. */
  datatype Verdict = Reject(response: Response) | Accept(params: Record)

  /** The tests of a create handler, in the order it makes them: 404 when
      the parent named by the path is missing, then "Not a JSON" (or a 500
      for a truthy body that is not an object), then the field tests. */
  function Screen(parent: Option<Key>, checks: seq<Check>, body: Option<Val>, objs: map<Key, Record>): (v: Verdict)
    ensures v.Accept? <==> ((parent.Some? ==> parent.value in objs) && ReadBody(body).Params?
                            && forall i :: 0 <= i < |checks| ==> Passes(objs, ReadBody(body).params, checks[i]))
    ensures v.Accept? ==> v.params == ReadBody(body).params
    ensures v.Reject? ==> v.response.BadRequest? || v.response == NotFound || v.response == ServerError
  {
    if parent.Some? && parent.value !in objs then Reject(NotFound)
    else match ReadBody(body)
      case NotJson => Reject(BadRequest("Not a JSON"))
      case NotObject => Reject(ServerError)
      case Params(p) =>
        match FirstFailure(objs, p, checks)
        case Some(failure) => Reject(failure)
        case None => Accept(p)
  }

  /** With the parent present and an object body, the first failing field
      test decides the response. */
  lemma ScreenFailsAt(parent: Option<Key>, checks: seq<Check>, body: Option<Val>, objs: map<Key, Record>, i: nat)
    requires (parent.Some? ==> parent.value in objs) && ReadBody(body).Params?
    requires i < |checks| && !Passes(objs, ReadBody(body).params, checks[i])
    requires forall j :: 0 <= j < i ==> Passes(objs, ReadBody(body).params, checks[j])
    ensures Screen(parent, checks, body, objs) == Reject(Failure(checks[i]))
  {
    FirstFailureAt(objs, ReadBody(body).params, checks, i);
  }

  /** The outcome of a create handler: a rejection changes nothing; an
      accepted body is built with the forced fields on top and saved. */
  predicate Created(parent: Option<Key>, kind: Kind, checks: seq<Check>, forced: Record,
                    body: Option<Val>, freshId: string, now: string,
                    objs0: map<Key, Record>,
                    objs1: map<Key, Record>, resp: Response)
    requires now != ""
  {
    match Screen(parent, checks, body, objs0)
    case Reject(r) => resp == r && objs1 == objs0
    case Accept(p) => Inserted(kind, p + forced, freshId, now, objs0, objs1, resp)
  }

  method Create(s: Storage, parent: Option<Key>, kind: Kind, checks: seq<Check>, forced: Record,
                body: Option<Val>, freshId: string, now: string) returns (resp: Response)
    requires s.Valid() && now != ""
    modifies s
    ensures s.Valid() && s.links == old(s.links)
    ensures Created(parent, kind, checks, forced, body, freshId, now, old(s.objects), s.objects, resp)
    ensures Persisted(resp.Created201?, old(s.file), s.objects, s.file)
  {
    if parent.Some? {
      var p := s.Get(parent.value.kind, parent.value.id);
      if p.None? {
        return NotFound;
      }
    }
    var b := ReadBody(body);
    if b.NotJson? {
      return BadRequest("Not a JSON");
    }
    if b.NotObject? {
      return ServerError;
    }
    var failure := FirstFailure(s.objects, b.params, checks);
    if failure.Some? {
      return failure.value;
    }
    resp := Insert(s, kind, b.params + forced, freshId, now);
  }

  /** Every response other than 201 leaves the store alone,
      and a 201 means the body was accepted. */
  lemma CreatedRejected(parent: Option<Key>, kind: Kind, checks: seq<Check>, forced: Record,
                        body: Option<Val>, freshId: string, now: string,
                        objs0: map<Key, Record>,
                        objs1: map<Key, Record>, resp: Response)
    requires now != ""
    requires Created(parent, kind, checks, forced, body, freshId, now, objs0, objs1, resp)
    ensures !resp.Created201? ==> objs1 == objs0
    ensures resp.Created201? ==> Screen(parent, checks, body, objs0).Accept?
  {
  }

  /** What a 201 promises: the parent exists, the body passed every test
      (and still passes it afterwards: every object a `Names` test found is
      still stored), the new entry carries each forced field as forced and
      each other plain field as the client sent it, and every other entry is
      kept. */
  lemma CreatedStored(parent: Option<Key>, kind: Kind, checks: seq<Check>, forced: Record,
                      body: Option<Val>, freshId: string, now: string,
                      objs0: map<Key, Record>,
                      objs1: map<Key, Record>, resp: Response)
    requires now != ""
    requires Created(parent, kind, checks, forced, body, freshId, now, objs0, objs1, resp)
    requires resp.Created201?
    ensures parent.Some? ==> parent.value in objs0 && parent.value in objs1
    ensures ReadBody(body).Params?
    ensures var p := ReadBody(body).params;
      var k := Key(kind, IdFor(p + forced, freshId));
      && (forall i :: 0 <= i < |checks| ==> Passes(objs0, p, checks[i]) && Passes(objs1, p, checks[i]))
      && k in objs1 && WellFormed(k, objs1[k]) && resp.created == ToDict(k, objs1[k])
      && (forall f :: f in forced && f !in Managed && !(kind == User && f == "password") ==> objs1[k][f] == forced[f])
      && (forall f :: f in p && f !in forced && f !in Managed && !(kind == User && f == "password") ==> objs1[k][f] == p[f])
      && (forall k' :: k' in objs0 && k' != k ==> k' in objs1 && objs1[k'] == objs0[k'])
  {
    var p := ReadBody(body).params;
    InsertedStored(kind, p + forced, freshId, now, objs0, objs1, resp);
    forall i | 0 <= i < |checks| ensures Passes(objs0, p, checks[i]) && Passes(objs1, p, checks[i]) {
      assert Passes(objs0, p, checks[i]);
      assert objs0.Keys <= objs1.Keys;
    }
  }

  /** A User body that passes every test but carries a password that is not
      a string makes the hook raise: 500, and nothing changes. */
  lemma CreatedHookRaises(parent: Option<Key>, checks: seq<Check>, forced: Record,
                          body: Option<Val>, freshId: string, now: string,
                          objs0: map<Key, Record>,
                          objs1: map<Key, Record>, resp: Response)
    requires now != ""
    requires Created(parent, User, checks, forced, body, freshId, now, objs0, objs1, resp)
    requires Screen(parent, checks, body, objs0).Accept?
    requires var kw := Screen(parent, checks, body, objs0).params + forced; "password" in kw && !kw["password"].VStr?
    ensures resp == ServerError && objs1 == objs0
  {
  }

  /** A created User stores the digest of the password it was given. */
  lemma CreatedHashed(parent: Option<Key>, checks: seq<Check>, forced: Record,
                      body: Option<Val>, freshId: string, now: string,
                      objs0: map<Key, Record>,
                      objs1: map<Key, Record>, resp: Response)
    requires now != ""
    requires Created(parent, User, checks, forced, body, freshId, now, objs0, objs1, resp)
    requires resp.Created201?
    ensures ReadBody(body).Params?
    ensures var kw := ReadBody(body).params + forced;
      var k := Key(User, IdFor(kw, freshId));
      "password" in kw ==> kw["password"].VStr? && k in objs1 && objs1[k]["password"] == VStr(Hash(kw["password"].s))
  {
    var kw := ReadBody(body).params + forced;
    InstantiateFields(User, kw, freshId, now);
  }

  /** A field a `Present` test required is stored as the client sent it,
      and what was sent is truthy. */
  lemma CreatedRequired(parent: Option<Key>, kind: Kind, checks: seq<Check>, forced: Record,
                        body: Option<Val>, freshId: string, now: string,
                        objs0: map<Key, Record>,
                        objs1: map<Key, Record>, resp: Response, i: nat)
    requires now != ""
    requires Created(parent, kind, checks, forced, body, freshId, now, objs0, objs1, resp)
    requires resp.Created201?
    requires i < |checks| && checks[i].Present?
    requires checks[i].field !in forced && checks[i].field !in Managed && !(kind == User && checks[i].field == "password")
    ensures ReadBody(body).Params?
    ensures var p, f := ReadBody(body).params, checks[i].field;
      var k := Key(kind, IdFor(p + forced, freshId));
      f in p && Truthy(p[f]) && k in objs1 && objs1[k][f] == p[f]
  {
    CreatedStored(parent, kind, checks, forced, body, freshId, now, objs0, objs1, resp);
    assert Passes(objs0, ReadBody(body).params, checks[i]);
  }

  /** A forced foreign key makes the new object a child of the parent it
      names, whatever the body said. */
  lemma CreatedChild(parent: Option<Key>, kind: Kind, checks: seq<Check>, forced: Record,
                     body: Option<Val>, freshId: string, now: string,
                     objs0: map<Key, Record>,
                     objs1: map<Key, Record>, resp: Response, fk: string)
    requires now != ""
    requires Created(parent, kind, checks, forced, body, freshId, now, objs0, objs1, resp)
    requires resp.Created201?
    requires fk in forced && forced[fk].VStr? && fk !in Managed && !(kind == User && fk == "password")
    ensures ReadBody(body).Params?
    ensures var k := Key(kind, IdFor(ReadBody(body).params + forced, freshId));
      k in objs1 && objs1[k][fk] == forced[fk] && k in Children(objs1, kind, fk, forced[fk].s)
  {
    CreatedStored(parent, kind, checks, forced, body, freshId, now, objs0, objs1, resp);
    var k := Key(kind, IdFor(ReadBody(body).params + forced, freshId));
    ChildOf(objs1, k, fk, forced[fk].s);
  }

}
