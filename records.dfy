/**
 * The album record shared by the catalog service and the cart store, and the
 * scans over a sequence of albums that both of them perform by id
 * (`find`, `findIndex`, `some` and `filter` in the source).
 */
module Records {
  import opened Wrappers

  /** One album: a store-assigned integer id and four carried fields. */
  datatype Album = Album(id: int, title: string, artist: string, price: real, imageUrl: string)

  /** No two albums of `s` share an id. */
  predicate UniqueIds(s: seq<Album>)
  {
    forall i, j :: 0 <= i < j < |s| ==> s[i].id != s[j].id
  }

  /** `s.some(a => a.id === id)`. */
  function HasId(s: seq<Album>, id: int): (r: bool)
    ensures r <==> exists k :: 0 <= k < |s| && s[k].id == id
  {
    if s == [] then false else s[0].id == id || HasId(s[1..], id)
  }

  /** `s.findIndex(a => a.id === id)`, with `None` for -1. */
  function FirstIndex(s: seq<Album>, id: int): (r: Option<nat>)
    ensures r.None? <==> !HasId(s, id)
    ensures r.Some? ==> r.value < |s| && s[r.value].id == id
    ensures r.Some? ==> forall j :: 0 <= j < r.value ==> s[j].id != id
  {
    if s == [] then None
    else if s[0].id == id then Some(0)
    else match FirstIndex(s[1..], id)
      case None => None
      case Some(k) => Some(k + 1)
  }

  /** `s.find(a => a.id === id)`. */
  function Find(s: seq<Album>, id: int): (r: Option<Album>)
    ensures r.None? <==> !HasId(s, id)
    ensures r.Some? ==> r.value.id == id && r.value in s
    ensures r.Some? ==> exists k :: 0 <= k < |s| && s[k] == r.value && forall j :: 0 <= j < k ==> s[j].id != id
  {
    match FirstIndex(s, id)
    case None => None
    case Some(k) => Some(s[k])
  }

  /** `s.filter(a => a.id !== id)`. */
  function WithoutId(s: seq<Album>, id: int): (r: seq<Album>)
    ensures |r| <= |s|
    ensures !HasId(r, id)
    ensures |r| < |s| <==> HasId(s, id)
  {
    if s == [] then []
    else if s[0].id == id then WithoutId(s[1..], id)
    else [s[0]] + WithoutId(s[1..], id)
  }

  /** Filtering keeps exactly the albums whose id differs. */
  lemma {:induction false} WithoutIdMembers(s: seq<Album>, id: int)
    ensures forall a :: a in WithoutId(s, id) <==> a in s && a.id != id
  {
    if s != [] {
      WithoutIdMembers(s[1..], id);
      assert s == [s[0]] + s[1..];
    }
  }

  /** Filtering distributes over concatenation: the kept albums stay in their order. */
  lemma {:induction false} WithoutIdAppend(s: seq<Album>, t: seq<Album>, id: int)
    ensures WithoutId(s + t, id) == WithoutId(s, id) + WithoutId(t, id)
  {
    if s == [] {
      assert s + t == t;
    } else {
      assert (s + t)[1..] == s[1..] + t;
      WithoutIdAppend(s[1..], t, id);
    }
  }

  /** Filtering out an id that no album carries changes nothing. */
  lemma {:induction false} WithoutAbsentId(s: seq<Album>, id: int)
    requires !HasId(s, id)
    ensures WithoutId(s, id) == s
  {
    if s != [] {
      WithoutAbsentId(s[1..], id);
    }
  }

  /** Filtering keeps ids unique. */
  lemma {:induction false} WithoutIdKeepsUnique(s: seq<Album>, id: int)
    requires UniqueIds(s)
    ensures UniqueIds(WithoutId(s, id))
  {
    if s != [] {
      WithoutIdKeepsUnique(s[1..], id);
      WithoutIdMembers(s[1..], id);
      var rest := WithoutId(s[1..], id);
      if s[0].id != id {
        forall a | a in rest ensures a.id != s[0].id {
          var k :| 0 <= k < |s[1..]| && s[1..][k] == a;
          assert s[k + 1] == a;
        }
      }
    }
  }

  /** Appending an album whose id is not present keeps ids unique. */
  lemma AppendKeepsUnique(s: seq<Album>, a: Album)
    requires UniqueIds(s) && !HasId(s, a.id)
    ensures UniqueIds(s + [a])
  {
  }
}
