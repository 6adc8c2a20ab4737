/** The file storage engine as its tests pin it down: an in-memory table of
    objects keyed by "<Kind>.<id>", a whole-table snapshot written by save,
    and the get/count query surface. */
module FileStorage {
  import opened Values
  import opened Kinds
  import opened Objects

  /** A place_amenity join row: (place id, amenity id). */
  type Link = (string, string)

  /** `all(cls)`: the entries of one kind. */
  function OfKind(objs: map<Key, Record>, kind: Kind): map<Key, Record>
  {
    map k | k in objs && k.kind == kind :: objs[k]
  }

  lemma AllKeyStringsInjective()
    ensures forall k1: Key, k2: Key :: KeyString(k1) == KeyString(k2) ==> k1 == k2
  {
    forall k1: Key, k2: Key
      ensures KeyString(k1) == KeyString(k2) ==> k1 == k2
    {
      KeyStringInjective(k1, k2);
    }
  }

  /** What save() writes: every tracked object's dict form under its
      composite key. */
  function Snapshot(objs: map<Key, Record>): map<string, Record>
  {
    AllKeyStringsInjective();
    map k | k in objs :: KeyString(k) := ToDict(k, objs[k])
  }

  /** The snapshot holds exactly the tracked objects, each under its own key
      and as its dict form. */
  lemma SnapshotExact(objs: map<Key, Record>)
    ensures forall k :: k in objs ==> KeyString(k) in Snapshot(objs) && Snapshot(objs)[KeyString(k)] == ToDict(k, objs[k])
    ensures forall s :: s in Snapshot(objs) ==> ParseKey(s).Some? && ParseKey(s).value in objs && s == KeyString(ParseKey(s).value)
  {
    AllKeyStringsInjective();
    forall s | s in Snapshot(objs)
      ensures ParseKey(s).Some? && ParseKey(s).value in objs && s == KeyString(ParseKey(s).value)
    {
      var k :| k in objs && KeyString(k) == s;
      ParseKeyString(k);
    }
  }

  /** Distinct keys have distinct composite keys, so a set of keys has as
      many composite keys as members. */
  lemma {:induction false} KeyStringsSize(ks: set<Key>)
    ensures |set k | k in ks :: KeyString(k)| == |ks|
    decreases |ks|
  {
    if ks != {} {
      var k :| k in ks;
      var rest := ks - {k};
      KeyStringsSize(rest);
      AllKeyStringsInjective();
      assert (set x | x in ks :: KeyString(x)) == (set x | x in rest :: KeyString(x)) + {KeyString(k)};
      assert KeyString(k) !in (set x | x in rest :: KeyString(x));
    }
  }

  /** No two objects collide in the snapshot: it has one entry per object. */
  lemma SnapshotSize(objs: map<Key, Record>)
    ensures |Snapshot(objs)| == |objs|
  {
    KeyStringsSize(objs.Keys);
    assert Snapshot(objs).Keys == set k | k in objs.Keys :: KeyString(k);
  }

  /** Sum of count(cls) over a list of classes. */
  function CountSum(objs: map<Key, Record>, kinds: seq<Kind>): nat
  {
    if kinds == [] then 0 else |OfKind(objs, kinds[0])| + CountSum(objs, kinds[1..])
  }

  function KeysOfKinds(objs: map<Key, Record>, kinds: seq<Kind>): set<Key>
  {
    set k | k in objs && k.kind in kinds
  }

  lemma {:induction false} CountSplit(objs: map<Key, Record>, kinds: seq<Kind>)
    requires forall i, j :: 0 <= i < j < |kinds| ==> kinds[i] != kinds[j]
    ensures |KeysOfKinds(objs, kinds)| == CountSum(objs, kinds)
  {
    if kinds == [] {
      assert KeysOfKinds(objs, kinds) == {};
    } else {
      var first := OfKind(objs, kinds[0]).Keys;
      var rest := KeysOfKinds(objs, kinds[1..]);
      CountSplit(objs, kinds[1..]);
      assert KeysOfKinds(objs, kinds) == first + rest;
      assert kinds[0] !in kinds[1..];
      assert first !! rest;
      assert |first + rest| == |first| + |rest|;
    }
  }

  /** count() is the sum of count(cls) over every class: the classes
      partition the table. */
  lemma CountIsSumOfKinds(objs: map<Key, Record>)
    ensures |objs| == |OfKind(objs, Amenity)| + |OfKind(objs, BaseModel)| + |OfKind(objs, City)|
      + |OfKind(objs, Place)| + |OfKind(objs, Review)| + |OfKind(objs, State)| + |OfKind(objs, User)|
  {
    CountSplit(objs, AllKinds);
    forall k | k in objs ensures k in KeysOfKinds(objs, AllKinds) {
      AllKindsComplete(k.kind);
    }
    assert KeysOfKinds(objs, AllKinds) == objs.Keys;
    CountSumOfAllKinds(objs);
  }

  lemma CountSumOfAllKinds(objs: map<Key, Record>)
    ensures CountSum(objs, AllKinds) == |OfKind(objs, Amenity)| + |OfKind(objs, BaseModel)| + |OfKind(objs, City)|
      + |OfKind(objs, Place)| + |OfKind(objs, Review)| + |OfKind(objs, State)| + |OfKind(objs, User)|
  {
    var ks := AllKinds;
    assert CountSum(objs, [User]) == |OfKind(objs, User)| by { assert [User][1..] == []; }
    assert CountSum(objs, [State, User]) == |OfKind(objs, State)| + CountSum(objs, [User]) by { assert [State, User][1..] == [User]; }
    assert CountSum(objs, [Review, State, User]) == |OfKind(objs, Review)| + CountSum(objs, [State, User]) by { assert [Review, State, User][1..] == [State, User]; }
    assert CountSum(objs, [Place, Review, State, User]) == |OfKind(objs, Place)| + CountSum(objs, [Review, State, User]) by { assert [Place, Review, State, User][1..] == [Review, State, User]; }
    assert CountSum(objs, [City, Place, Review, State, User]) == |OfKind(objs, City)| + CountSum(objs, [Place, Review, State, User]) by { assert [City, Place, Review, State, User][1..] == [Place, Review, State, User]; }
    assert CountSum(objs, [BaseModel, City, Place, Review, State, User]) == |OfKind(objs, BaseModel)| + CountSum(objs, [City, Place, Review, State, User]) by { assert [BaseModel, City, Place, Review, State, User][1..] == [City, Place, Review, State, User]; }
    assert CountSum(objs, ks) == |OfKind(objs, Amenity)| + CountSum(objs, [BaseModel, City, Place, Review, State, User]) by { assert ks[1..] == [BaseModel, City, Place, Review, State, User]; }
  }

  /** The counting tests: one object of each of the six model classes gives
      count() == 6, and count(cls) == 1 differs from it. */
  lemma OneOfEachKind(objs: map<Key, Record>)
    requires |OfKind(objs, BaseModel)| == 0
    requires forall kind :: kind != BaseModel ==> |OfKind(objs, kind)| == 1
    ensures |objs| == 6
    ensures forall kind :: kind != BaseModel ==> |OfKind(objs, kind)| != |objs|
  {
    CountIsSumOfKinds(objs);
  }

  class Storage {
    /** `__objects` */
    var objects: map<Key, Record>
    /** The content of the JSON file, as of the last save. */
    var file: map<string, Record>
    /** The place-amenity relation behind `place.amenities`. */
    var links: set<Link>

    ghost predicate Valid()
      reads this`objects
    {
      Tracked(objects)
    }

    constructor ()
      ensures Valid() && objects == map[] && file == map[] && links == {}
    {
      objects, file, links := map[], map[], {};
    }

    /** all(): the tracked table itself. */
    method All() returns (r: map<Key, Record>)
      ensures r == objects
    {
      r := objects;
    }

    /** all(cls) */
    method AllOf(kind: Kind) returns (r: map<Key, Record>)
      ensures r == OfKind(objects, kind)
    {
      r := map k | k in objects && k.kind == kind :: objects[k];
    }

    /** new(obj): track obj under its composite key. */
    method New(kind: Kind, r: Record)
      requires Valid()
      requires "id" in r && r["id"].VStr? && WellFormed(Key(kind, r["id"].s), r)
      modifies this`objects
      ensures Valid()
      ensures objects == old(objects)[Key(kind, r["id"].s) := r]
    {
      objects := objects[Key(kind, r["id"].s) := r];
    }

    /** save(): rewrite the file with every tracked object's dict form. */
    method Save()
      modifies this`file
      ensures file == Snapshot(objects)
    {
      file := Snapshot(objects);
    }

    /** get(cls, id): the object, or None on a miss. */
    method Get(kind: Kind, id: string) returns (r: Option<Record>)
      ensures Key(kind, id) in objects ==> r == Some(objects[Key(kind, id)])
      ensures Key(kind, id) !in objects ==> r == None
    {
      var k := Key(kind, id);
      r := if k in objects then Some(objects[k]) else None;
    }

    /** delete(obj): untrack obj; nothing happens if it is not tracked. */
    method Delete(kind: Kind, id: string)
      requires Valid()
      modifies this`objects
      ensures Valid()
      ensures objects == old(objects) - {Key(kind, id)}
    {
      objects := objects - {Key(kind, id)};
    }

    /** count() */
    method Count() returns (n: nat)
      ensures n == |objects|
    {
      n := |objects|;
    }

    /** count(cls): the number of entries of that class only. */
    method CountOf(kind: Kind) returns (n: nat)
      ensures n == |OfKind(objects, kind)|
    {
      var all := AllOf(kind);
      n := |all|;
    }
  }

  /** The `new` test: each insertion of a fresh object adds exactly its entry. */
  lemma NewAddsOne(objs: map<Key, Record>, k: Key, r: Record)
    requires k !in objs
    ensures |objs[k := r]| == |objs| + 1
    ensures forall k' :: k' in objs ==> k' in objs[k := r] && objs[k := r][k'] == objs[k']
  {
    assert objs[k := r].Keys == objs.Keys + {k};
  }

  /** Tracking an object under k adds one entry to its class when k is new
      and none otherwise; the other classes are untouched. */
  lemma PutCounts(objs: map<Key, Record>, k: Key, r: Record)
    ensures k !in objs ==> |OfKind(objs[k := r], k.kind)| == |OfKind(objs, k.kind)| + 1
    ensures k in objs ==> |OfKind(objs[k := r], k.kind)| == |OfKind(objs, k.kind)|
    ensures forall other :: other != k.kind ==> OfKind(objs[k := r], other) == OfKind(objs, other)
  {
    assert OfKind(objs[k := r], k.kind).Keys == OfKind(objs, k.kind).Keys + {k};
    if k !in objs {
      assert k !in OfKind(objs, k.kind).Keys;
    } else {
      assert k in OfKind(objs, k.kind).Keys;
    }
  }

  /** Untracking a tracked object removes one entry from its class and
      none from the others. */
  lemma DropCounts(objs: map<Key, Record>, k: Key)
    requires k in objs
    ensures |OfKind(objs - {k}, k.kind)| == |OfKind(objs, k.kind)| - 1
    ensures forall other :: other != k.kind ==> OfKind(objs - {k}, other) == OfKind(objs, other)
  {
    assert OfKind(objs - {k}, k.kind).Keys == OfKind(objs, k.kind).Keys - {k};
  }

  /** The get tests: an object saved with obj.save() is returned by get with
      the same dict form, and an id never saved is a miss. */
  method SaveThenGet(s: Storage, kind: Kind, r: Record, other: string) returns (found: Option<Record>, missed: Option<Record>)
    requires s.Valid()
    requires "id" in r && r["id"].VStr? && WellFormed(Key(kind, r["id"].s), r)
    requires Key(kind, other) !in s.objects && other != r["id"].s
    modifies s
    ensures found.Some? && ToDict(Key(kind, r["id"].s), found.value) == ToDict(Key(kind, r["id"].s), r)
    ensures missed == None
  {
    s.New(kind, r);
    s.Save();
    found := s.Get(kind, r["id"].s);
    missed := s.Get(kind, other);
  }
}
