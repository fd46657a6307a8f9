/**
 * The album catalog of the REST service: a process-wide sequence of albums,
 * seeded with six records, with list, get, add, update and delete.
 */
module Catalog {
  import opened Wrappers
  import opened Records

  /** What a client supplies on create and update: every field but the id. */
  datatype AlbumInput = AlbumInput(title: string, artist: string, price: real, imageUrl: string)

  /** `{ id, ...input }` for an input that carries no id of its own. */
  function WithId(id: int, input: AlbumInput): (a: Album)
    ensures a.id == id
    ensures AlbumInput(a.title, a.artist, a.price, a.imageUrl) == input
  {
    Album(id, input.title, input.artist, input.price, input.imageUrl)
  }

  /** The six albums the store holds at process start. */
  function Seed(): (s: seq<Album>)
    ensures |s| == 6 && Numbered(s)
  {
    [ Album(1, "You, Me and an App Id", "Daprize", 10.99, "https://aka.ms/albums-daprlogo"),
      Album(2, "Seven Revision Army", "The Blue-Green Stripes", 13.99, "https://aka.ms/albums-containerappslogo"),
      Album(3, "Scale It Up", "KEDA Club", 13.99, "https://aka.ms/albums-kedalogo"),
      Album(4, "Lost in Translation", "MegaDNS", 12.99, "https://aka.ms/albums-envoylogo"),
      Album(5, "Lock Down Your Love", "V is for VNET", 12.99, "https://aka.ms/albums-vnetlogo"),
      Album(6, "Sweet Container O' Mine", "Guns N Probeses", 14.99, "https://aka.ms/albums-containerappslogo") ]
  }

  /** `Math.max(...s.map(a => a.id))` on a non-empty sequence. */
  function MaxId(s: seq<Album>): (m: int)
    requires s != []
    ensures forall k :: 0 <= k < |s| ==> s[k].id <= m
    ensures exists k :: 0 <= k < |s| && s[k].id == m
  {
    if |s| == 1 then s[0].id
    else
      var rest := MaxId(s[1..]);
      if s[0].id >= rest then s[0].id else rest
  }

  /** The id `addAlbum` assigns: one more than the largest id, or 1 when empty. */
  function NextId(s: seq<Album>): (n: int)
    ensures forall k :: 0 <= k < |s| ==> s[k].id < n
    ensures s == [] ==> n == 1
    ensures s != [] ==> HasId(s, n - 1)
  {
    (if |s| > 0 then MaxId(s) else 0) + 1
  }

  /** Every id is positive and no two albums share one. */
  predicate WellFormed(s: seq<Album>)
  {
    UniqueIds(s) && forall k :: 0 <= k < |s| ==> s[k].id > 0
  }

  /** The albums of `s` carry the ids 1, 2, ... in order, as the seed does. */
  predicate Numbered(s: seq<Album>)
  {
    forall k :: 0 <= k < |s| ==> s[k].id == k + 1
  }

  /** The seed is well formed and the first album created after it gets id 7. */
  lemma SeedNextIdIsSeven()
    ensures WellFormed(Seed())
    ensures NextId(Seed()) == 7
  {
    NumberedIsWellFormed(Seed());
    NextIdOfNumbered(Seed());
  }

  /** A list numbered 1..n in order has positive, unique ids. */
  lemma NumberedIsWellFormed(s: seq<Album>)
    requires Numbered(s)
    ensures WellFormed(s)
  {
  }

  /** Replacing the slot that holds `id` by a record with the same id keeps the catalog well formed. */
  lemma ReplaceKeepsWellFormed(s: seq<Album>, k: nat, a: Album)
    requires WellFormed(s) && k < |s| && s[k].id == a.id
    ensures WellFormed(s[k := a])
  {
  }

  /** After a replacement under a unique id, reading that id gives the new record. */
  lemma ReplaceThenFind(s: seq<Album>, k: nat, a: Album)
    requires UniqueIds(s) && k < |s| && s[k].id == a.id
    ensures Find(s[k := a], a.id) == Some(a)
  {
    var t := s[k := a];
    assert t[k].id == a.id;
    assert FirstIndex(t, a.id).Some?;
  }

  /** After appending an album whose id is new, reading that id gives the album. */
  lemma AppendThenFind(s: seq<Album>, a: Album)
    requires !HasId(s, a.id)
    ensures Find(s + [a], a.id) == Some(a)
  {
    var t := s + [a];
    assert t[|s|].id == a.id;
    assert FirstIndex(t, a.id).Some?;
  }

  /** Appending a record with the next id keeps the catalog well formed. */
  lemma AppendNextKeepsWellFormed(s: seq<Album>, input: AlbumInput)
    requires WellFormed(s)
    ensures WellFormed(s + [WithId(NextId(s), input)])
  {
  }

  /** Deleting keeps ids positive and unique. */
  lemma DeleteKeepsWellFormed(s: seq<Album>, id: int)
    requires WellFormed(s)
    ensures WellFormed(WithoutId(s, id))
  {
    WithoutIdKeepsUnique(s, id);
    WithoutIdMembers(s, id);
    var r := WithoutId(s, id);
    forall k | 0 <= k < |r| ensures r[k].id > 0 {
      assert r[k] in s;
    }
  }

  /** A delete leaves no album with that id, so a second delete of it finds nothing to remove. */
  lemma DeleteTwice(s: seq<Album>, id: int)
    ensures WithoutId(WithoutId(s, id), id) == WithoutId(s, id)
    ensures |WithoutId(WithoutId(s, id), id)| == |WithoutId(s, id)|
  {
  }

  /**
   * Ids are "max + 1", not a counter: after deleting the album with the
   * largest id, the next create gets an id no larger than the deleted one.
   */
  lemma DeleteMaxThenAddReuses(s: seq<Album>)
    requires s != [] && WellFormed(s)
    ensures NextId(WithoutId(s, MaxId(s))) <= MaxId(s)
  {
    var m := MaxId(s);
    var r := WithoutId(s, m);
    assert s[0].id > 0;
    if r != [] {
      var k :| 0 <= k < |r| && r[k].id == NextId(r) - 1;
      WithoutIdMembers(s, m);
      assert r[k] in s;
    }
  }

  /**
   * For a catalog numbered 1..n in order (the seed has n = 6), deleting album
   * n and then creating one gives the new album id n again.
   */
  lemma DeleteLastOfNumberedThenAddReuses(s: seq<Album>)
    requires s != [] && Numbered(s)
    ensures NextId(WithoutId(s, |s|)) == |s|
  {
    var p, a := s[..|s| - 1], s[|s| - 1];
    NumberedPrefix(s);
    SplitLast(s);
    WithoutLastAlbum(p, a);
    if p != [] {
      NextIdOfNumbered(p);
    }
  }

  /** Without its last album a numbered list is still numbered, and lacks the last id. */
  lemma NumberedPrefix(s: seq<Album>)
    requires s != [] && Numbered(s)
    ensures Numbered(s[..|s| - 1]) && !HasId(s[..|s| - 1], |s|)
  {
    var p := s[..|s| - 1];
    forall k | 0 <= k < |p| ensures p[k].id == k + 1 {
      assert p[k] == s[k];
    }
  }

  /** Deleting the id of an appended album that occurs nowhere earlier gives back the prefix. */
  lemma WithoutLastAlbum(p: seq<Album>, a: Album)
    requires !HasId(p, a.id)
    ensures WithoutId(p + [a], a.id) == p
  {
    WithoutIdAppend(p, [a], a.id);
    WithoutAbsentId(p, a.id);
    WithoutOwnId(a);
  }

  /** A non-empty list is its prefix followed by its last element. */
  lemma SplitLast(s: seq<Album>)
    requires s != []
    ensures s == s[..|s| - 1] + [s[|s| - 1]]
  {
  }

  /** Filtering a one-album list by that album's id gives the empty list. */
  lemma WithoutOwnId(a: Album)
    ensures WithoutId([a], a.id) == []
  {
  }

  /** A non-empty catalog numbered 1..n in order gets n + 1 as its next id. */
  lemma NextIdOfNumbered(p: seq<Album>)
    requires p != [] && Numbered(p)
    ensures NextId(p) == |p| + 1
  {
    var k :| 0 <= k < |p| && p[k].id == NextId(p) - 1;
    assert p[|p| - 1].id < NextId(p);
  }

  /** The store: `let albums` of the source, owned by one object. */
  class AlbumStore {
    var albums: seq<Album>

    ghost predicate Valid()
      reads this
    {
      WellFormed(albums)
    }

    /** The process starts with the seed. */
    constructor ()
      ensures Valid() && albums == Seed()
    {
      NumberedIsWellFormed(Seed());
      albums := Seed();
    }

    /** `listAlbums`: the whole collection, in insertion order. */
    method ListAlbums() returns (r: seq<Album>)
      ensures r == albums
    {
      r := albums;
    }

    /** `getAlbum`: the first album carrying `id`, or the absence signal; the store is untouched. */
    method GetAlbum(id: int) returns (r: Option<Album>)
      ensures r == Find(albums, id)
      ensures r.None? <==> !HasId(albums, id)
      ensures r.Some? ==> r.value.id == id
      ensures r.Some? ==> exists k :: 0 <= k < |albums| && albums[k] == r.value && forall j :: 0 <= j < k ==> albums[j].id != id
    {
      r := Find(albums, id);
    }

    /** `addAlbum`: append the input under a fresh id and return the new record. */
    method AddAlbum(input: AlbumInput) returns (created: Album)
      requires Valid()
      modifies this
      ensures Valid()
      ensures created == WithId(NextId(old(albums)), input)
      ensures forall k :: 0 <= k < |old(albums)| ==> old(albums)[k].id < created.id
      ensures albums == old(albums) + [created]
    {
      var id := NextId(albums);
      AppendNextKeepsWellFormed(albums, input);
      created := WithId(id, input);
      albums := albums + [created];
    }

    /**
     * `updateAlbum`: replace the first record carrying `id` by the input under
     * the same id; an unknown id changes nothing and yields the absence signal.
     */
    method UpdateAlbum(id: int, input: AlbumInput) returns (r: Option<Album>)
      requires Valid()
      modifies this
      ensures Valid()
      ensures r.None? <==> !HasId(old(albums), id)
      ensures r.None? ==> albums == old(albums)
      ensures r.Some? ==> r.value == WithId(id, input)
      ensures r.Some? ==> exists k :: 0 <= k < |old(albums)| && old(albums)[k].id == id && albums == old(albums)[k := r.value]
    {
      var idx := FirstIndex(albums, id);
      if idx.None? {
        return None;
      }
      var updated := WithId(id, input);
      ReplaceKeepsWellFormed(albums, idx.value, updated);
      albums := albums[idx.value := updated];
      r := Some(updated);
    }

    /** `deleteAlbum`: drop every record carrying `id`; report whether the collection shrank. */
    method DeleteAlbum(id: int) returns (removed: bool)
      requires Valid()
      modifies this
      ensures Valid()
      ensures albums == WithoutId(old(albums), id)
      ensures removed <==> HasId(old(albums), id)
      ensures !HasId(albums, id)
    {
      var before := |albums|;
      DeleteKeepsWellFormed(albums, id);
      albums := WithoutId(albums, id);
      removed := |albums| < before;
    }
  }

  /**
   * The create-read-delete scenario on a fresh process: the first album
   * created gets id 7, can then be read back, is deleted, and is gone.
   */
  method CreateReadDeleteScenario(input: AlbumInput)
    returns (created: Album, found: Option<Album>, removed: bool, after: Option<Album>)
    ensures created == WithId(7, input)
    ensures found == Some(created)
    ensures removed
    ensures after == None
  {
    var store := new AlbumStore();
    SeedNextIdIsSeven();
    ghost var seed := store.albums;
    created := store.AddAlbum(input);
    AppendThenFind(seed, created);
    found := store.GetAlbum(7);
    removed := store.DeleteAlbum(7);
    after := store.GetAlbum(7);
  }
}
