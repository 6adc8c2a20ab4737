/** Entity kinds and the composite key "<Kind>.<id>" under which the file
    store tracks an object. */
module Kinds {
  import opened Values

  /** The classes the storage engine knows (BaseModel included, as in the
      file-store tests). */
  datatype Kind = Amenity | BaseModel | City | Place | Review | State | User

  const AllKinds: seq<Kind> := [Amenity, BaseModel, City, Place, Review, State, User]

  /** `cls.__name__` */
  function Name(k: Kind): string
  {
    match k
    case Amenity => "Amenity"
    case BaseModel => "BaseModel"
    case City => "City"
    case Place => "Place"
    case Review => "Review"
    case State => "State"
    case User => "User"
  }

  /** The class with a given name, if any: the inverse of Name. */
  function KindNamed(name: string): (r: Option<Kind>)
    ensures r.Some? ==> Name(r.value) == name
  {
    if name == "Amenity" then Some(Amenity)
    else if name == "BaseModel" then Some(BaseModel)
    else if name == "City" then Some(City)
    else if name == "Place" then Some(Place)
    else if name == "Review" then Some(Review)
    else if name == "State" then Some(State)
    else if name == "User" then Some(User)
    else None
  }

  lemma KindNamedName(k: Kind)
    ensures KindNamed(Name(k)) == Some(k)
  {
  }

  lemma AllKindsComplete(k: Kind)
    ensures k in AllKinds
  {
  }

  datatype Key = Key(kind: Kind, id: string)

  /** `obj.__class__.__name__ + "." + obj.id` */
  function KeyString(k: Key): string
  {
    Name(k.kind) + "." + k.id
  }

  /** Position of the first '.' in s. */
  function FirstDot(s: string): (r: Option<nat>)
    ensures r.Some? ==> r.value < |s| && s[r.value] == '.' && '.' !in s[..r.value]
    ensures r.None? ==> '.' !in s
  {
    if s == [] then None
    else if s[0] == '.' then Some(0)
    else match FirstDot(s[1..])
      case None => None
      case Some(i) => assert s[..i + 1] == [s[0]] + s[1..][..i]; Some(i + 1)
  }

  /** Splits a composite key at its first '.'; a class name never holds one. */
  function ParseKey(s: string): Option<Key>
  {
    match FirstDot(s)
    case None => None
    case Some(i) =>
      match KindNamed(s[..i])
      case None => None
      case Some(kind) => Some(Key(kind, s[i + 1..]))
  }

  lemma {:induction false} FirstDotAfter(a: string, b: string)
    requires '.' !in a
    ensures FirstDot(a + "." + b) == Some(|a|)
  {
    if a != [] {
      assert (a + "." + b)[1..] == a[1..] + "." + b;
      FirstDotAfter(a[1..], b);
    }
  }

  /** Parsing a composite key gives back the kind and the id. */
  lemma ParseKeyString(k: Key)
    ensures ParseKey(KeyString(k)) == Some(k)
  {
    var s := KeyString(k);
    var n := Name(k.kind);
    assert '.' !in n;
    FirstDotAfter(n, k.id);
    assert s[..|n|] == n;
    assert s[|n| + 1..] == k.id;
    KindNamedName(k.kind);
  }

  /** Two distinct (kind, id) pairs never share a composite key. */
  lemma KeyStringInjective(k1: Key, k2: Key)
    ensures KeyString(k1) == KeyString(k2) ==> k1 == k2
  {
    ParseKeyString(k1);
    ParseKeyString(k2);
  }
}
