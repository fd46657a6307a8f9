/**
 * The request layer of the REST service in front of the catalog: payload
 * validation and the status each `/albums` route answers with.
 * Routing, body parsing and the HTTP transport are outside the model: a
 * route handler receives the path id already parsed (`None` when
 * `Number(param)` is NaN) and the parsed JSON body.
 */
module Server {
  import opened Wrappers
  import opened Records
  import opened Catalog

  /** A property value of the parsed body, as far as validation looks at it. */
  datatype JsonValue = JString(s: string) | JNumber(n: real) | JOther

  /** A property name of the body: the five an album has, or any other. */
  datatype Key = Title | Artist | Price | ImageUrl | Id | OtherKey(name: string)

  /** The parsed body: a falsy value (no body, `null`) or an object's own properties. */
  datatype Payload = Falsy | Object(fields: map<Key, JsonValue>)

  /**
   * What `String.prototype.trim` strips: the white space and line terminator
   * code points of ECMA-262 (sections 12.2 and 12.3).
   */
  predicate IsWhitespace(c: char)
  {
    c in {'\t', '\n', '\U{000B}', '\U{000C}', '\r', ' ', '\U{00A0}', '\U{1680}',
          '\U{2000}', '\U{2001}', '\U{2002}', '\U{2003}', '\U{2004}', '\U{2005}',
          '\U{2006}', '\U{2007}', '\U{2008}', '\U{2009}', '\U{200A}',
          '\U{2028}', '\U{2029}', '\U{202F}', '\U{205F}', '\U{3000}', '\U{FEFF}'}
  }

  /** `s` has a character that is not white space. */
  predicate HasVisibleChar(s: string)
  {
    exists k :: 0 <= k < |s| && !IsWhitespace(s[k])
  }

  /** Leading white space removed: a suffix of `s` that starts with a visible character or is empty. */
  function TrimStart(s: string): (r: string)
    ensures |r| <= |s| && r == s[|s| - |r|..]
    ensures forall k :: 0 <= k < |s| - |r| ==> IsWhitespace(s[k])
    ensures r != [] ==> !IsWhitespace(r[0])
  {
    if s != [] && IsWhitespace(s[0]) then TrimStart(s[1..]) else s
  }

  /** Trailing white space removed: a prefix of `s` that ends with a visible character or is empty. */
  function TrimEnd(s: string): (r: string)
    ensures |r| <= |s| && r == s[..|r|]
    ensures forall k :: |r| <= k < |s| ==> IsWhitespace(s[k])
    ensures r != [] ==> !IsWhitespace(r[|r| - 1])
  {
    if s != [] && IsWhitespace(s[|s| - 1]) then TrimEnd(s[..|s| - 1]) else s
  }

  /** `s.trim()`. */
  function Trim(s: string): string
  {
    TrimEnd(TrimStart(s))
  }

  /** `s.trim().length > 0` holds exactly when `s` has a visible character. */
  lemma TrimNonEmptyIffVisible(s: string)
    ensures |Trim(s)| > 0 <==> HasVisibleChar(s)
  {
  }

  /** The property `key` is a string that is non-empty after `trim`. */
  predicate IsFilledText(fields: map<Key, JsonValue>, key: Key)
  {
    key in fields && fields[key].JString? && |Trim(fields[key].s)| > 0
  }

  /** The property `key` is a string with a visible character. */
  predicate IsVisibleText(fields: map<Key, JsonValue>, key: Key)
  {
    key in fields && fields[key].JString? && HasVisibleChar(fields[key].s)
  }

  lemma FilledIffVisible(fields: map<Key, JsonValue>, key: Key)
    ensures IsFilledText(fields, key) <==> IsVisibleText(fields, key)
  {
  }

  /**
   * `validateAlbumPayload`: title, artist and imageUrl are strings that are not
   * blank, and price is a number no smaller than zero.
   */
  function ValidateAlbumPayload(p: Payload): (ok: bool)
    ensures ok <==>
      p.Object? &&
      IsVisibleText(p.fields, Title) && IsVisibleText(p.fields, Artist) &&
      IsVisibleText(p.fields, ImageUrl) &&
      Price in p.fields && p.fields[Price].JNumber? && p.fields[Price].n >= 0.0
  {
    if p.Object? then
      var f := p.fields;
      FilledIffVisible(f, Title);
      FilledIffVisible(f, Artist);
      FilledIffVisible(f, ImageUrl);
      IsFilledText(f, Title) && IsFilledText(f, Artist) &&
      Price in f && f[Price].JNumber? && f[Price].n >= 0.0 &&
      IsFilledText(f, ImageUrl)
    else false
  }

  /** A body with exactly the four album properties. */
  function AlbumBody(title: string, artist: string, url: string, price: real): map<Key, JsonValue>
  {
    map[Title := JString(title), Artist := JString(artist), ImageUrl := JString(url), Price := JNumber(price)]
  }

  /** With the texts filled in, a body is accepted exactly when its price is not negative; zero is accepted. */
  lemma PriceBoundary(title: string, artist: string, url: string, price: real)
    requires HasVisibleChar(title) && HasVisibleChar(artist) && HasVisibleChar(url)
    ensures ValidateAlbumPayload(Object(AlbumBody(title, artist, url, price))) <==> price >= 0.0
    ensures ValidateAlbumPayload(Object(AlbumBody(title, artist, url, 0.0)))
  {
    var f := AlbumBody(title, artist, url, price);
    assert IsVisibleText(f, Title) && IsVisibleText(f, Artist) && IsVisibleText(f, ImageUrl);
  }

  /** Whitespace-only, empty and non-string texts are refused, as is the all-empty body with price -1. */
  lemma BlankTextRefused(title: string, artist: string, url: string, price: real)
    ensures !ValidateAlbumPayload(Object(AlbumBody(" \t", artist, url, price)))
    ensures !ValidateAlbumPayload(Object(AlbumBody(title, "", url, price)))
    ensures !ValidateAlbumPayload(Object(AlbumBody(title, artist, url, price)[ImageUrl := JOther]))
    ensures !ValidateAlbumPayload(Object(AlbumBody("", "", "", -1.0)))
  {
    var blank := " \t";
    assert !HasVisibleChar(blank) by {
      assert forall k :: 0 <= k < |blank| ==> IsWhitespace(blank[k]);
    }
    assert !IsVisibleText(AlbumBody(blank, artist, url, price), Title);
    assert !IsVisibleText(AlbumBody(title, "", url, price), Artist);
    assert !IsVisibleText(AlbumBody(title, artist, url, price)[ImageUrl := JOther], ImageUrl);
    assert !IsVisibleText(AlbumBody("", "", "", -1.0), Title);
  }

  /** A body without a price, and no body at all, are refused. */
  lemma MissingPartsRefused(title: string, artist: string, url: string, price: real)
    ensures !ValidateAlbumPayload(Object(AlbumBody(title, artist, url, price) - {Price}))
    ensures !ValidateAlbumPayload(Falsy)
  {
  }

  /** The typed input a valid body stands for: its four album properties. */
  function ToInput(p: Payload): (input: AlbumInput)
    requires ValidateAlbumPayload(p)
    ensures p.fields[Title] == JString(input.title)
    ensures p.fields[Artist] == JString(input.artist)
    ensures p.fields[Price] == JNumber(input.price) && input.price >= 0.0
    ensures p.fields[ImageUrl] == JString(input.imageUrl)
  {
    AlbumInput(p.fields[Title].s, p.fields[Artist].s, p.fields[Price].n, p.fields[ImageUrl].s)
  }

  /** The body of a response. */
  datatype Body = AlbumJson(album: Album) | AlbumListJson(albums: seq<Album>) | ErrorJson(error: string) | NoContent

  datatype Response = Response(status: int, body: Body)

  const InvalidId := Response(400, ErrorJson("Invalid id"))
  const InvalidPayload := Response(400, ErrorJson("Invalid album payload"))
  const NotFound := Response(404, ErrorJson("Album not found"))

  /** GET /albums: the whole collection. */
  method ListRoute(store: AlbumStore) returns (res: Response)
    ensures res == Response(200, AlbumListJson(store.albums))
  {
    var all := store.ListAlbums();
    res := Response(200, AlbumListJson(all));
  }

  /** GET /albums/:id: 400 for an unparsable id, 404 for an unknown one, else the first album with that id. */
  method GetRoute(store: AlbumStore, id: Option<int>) returns (res: Response)
    ensures id.None? ==> res == InvalidId
    ensures id.Some? && !HasId(store.albums, id.value) ==> res == NotFound
    ensures id.Some? && HasId(store.albums, id.value) ==>
      res.status == 200 && res.body.AlbumJson? && res.body.album.id == id.value &&
      exists k :: 0 <= k < |store.albums| && store.albums[k] == res.body.album &&
        forall j :: 0 <= j < k ==> store.albums[j].id != id.value
  {
    if id.None? {
      return InvalidId;
    }
    var album := store.GetAlbum(id.value);
    if album.None? {
      return NotFound;
    }
    res := Response(200, AlbumJson(album.value));
  }

  /** POST /albums: 400 without touching the store for an invalid body, else 201 with the created album. */
  method PostRoute(store: AlbumStore, body: Payload) returns (res: Response)
    requires store.Valid()
    modifies store
    ensures store.Valid()
    ensures !ValidateAlbumPayload(body) ==> res == InvalidPayload && store.albums == old(store.albums)
    ensures ValidateAlbumPayload(body) ==>
      var created := WithId(NextId(old(store.albums)), ToInput(body));
      res == Response(201, AlbumJson(created)) && store.albums == old(store.albums) + [created]
  {
    if !ValidateAlbumPayload(body) {
      return InvalidPayload;
    }
    var created := store.AddAlbum(ToInput(body));
    res := Response(201, AlbumJson(created));
  }

  /**
   * PUT /albums/:id: the id is checked first, then the body, and only then is
   * the store consulted; 404 for an unknown id, else 200 with the new record.
   */
  method PutRoute(store: AlbumStore, id: Option<int>, body: Payload) returns (res: Response)
    requires store.Valid()
    modifies store
    ensures store.Valid()
    ensures res.status != 200 ==> store.albums == old(store.albums)
    ensures id.None? ==> res == InvalidId
    ensures id.Some? && !ValidateAlbumPayload(body) ==> res == InvalidPayload
    ensures id.Some? && ValidateAlbumPayload(body) && !HasId(old(store.albums), id.value) ==> res == NotFound
    ensures id.Some? && ValidateAlbumPayload(body) && HasId(old(store.albums), id.value) ==>
      var updated := WithId(id.value, ToInput(body));
      res == Response(200, AlbumJson(updated)) &&
      exists k :: 0 <= k < |old(store.albums)| && old(store.albums)[k].id == id.value &&
        store.albums == old(store.albums)[k := updated]
  {
    if id.None? {
      return InvalidId;
    }
    if !ValidateAlbumPayload(body) {
      return InvalidPayload;
    }
    var updated := store.UpdateAlbum(id.value, ToInput(body));
    if updated.None? {
      return NotFound;
    }
    res := Response(200, AlbumJson(updated.value));
  }

  /** DELETE /albums/:id: 400 for an unparsable id, 204 when something was removed, else 404. */
  method DeleteRoute(store: AlbumStore, id: Option<int>) returns (res: Response)
    requires store.Valid()
    modifies store
    ensures store.Valid()
    ensures id.None? ==> res == InvalidId && store.albums == old(store.albums)
    ensures id.Some? ==> store.albums == WithoutId(old(store.albums), id.value)
    ensures id.Some? && HasId(old(store.albums), id.value) ==> res == Response(204, NoContent)
    ensures id.Some? && !HasId(old(store.albums), id.value) ==> res == NotFound && store.albums == old(store.albums)
  {
    if id.None? {
      return InvalidId;
    }
    var removed := store.DeleteAlbum(id.value);
    if !removed {
      WithoutAbsentId(old(store.albums), id.value);
      return NotFound;
    }
    res := Response(204, NoContent);
  }

  /**
   * `{ id, ...input }` as the source evaluates it on the request body: object
   * spread copies every property of the body after `id`, so a property named
   * "id" in the body wins. Dafny's map union is right-biased in the same way.
   */
  function SpreadAsWritten(id: int, body: map<Key, JsonValue>): (r: map<Key, JsonValue>)
    ensures r.Keys == body.Keys + {Id}
    ensures forall key :: key in body ==> r[key] == body[key]
    ensures Id !in body ==> r[Id] == JNumber(id as real)
  {
    map[Id := JNumber(id as real)] + body
  }

  /**
   * A valid POST body that also carries "id": 1 is stored under id 1 instead
   * of the assigned id, although an album with id 1 is already present (on a
   * fresh process: seed album 1, with 7 assigned).
   */
  lemma SpreadAsWrittenDuplicatesId(s: seq<Album>, title: string, artist: string, url: string, price: real)
    requires WellFormed(s) && HasId(s, 1)
    requires HasVisibleChar(title) && HasVisibleChar(artist) && HasVisibleChar(url) && price >= 0.0
    ensures var body := AlbumBody(title, artist, url, price)[Id := JNumber(1.0)];
      ValidateAlbumPayload(Object(body)) &&
      NextId(s) != 1 &&
      SpreadAsWritten(NextId(s), body)[Id] == JNumber(1.0)
  {
    PriceBoundary(title, artist, url, price);
    IdKeyIgnored(AlbumBody(title, artist, url, price), JNumber(1.0));
  }

  /** Validation does not look at a property named "id". */
  lemma IdKeyIgnored(fields: map<Key, JsonValue>, v: JsonValue)
    ensures ValidateAlbumPayload(Object(fields[Id := v])) == ValidateAlbumPayload(Object(fields))
  {
  }
}
