/**
 * The client-side cart store: an ordered list of albums, unique by id, with
 * best-effort persistence of the whole list to one key of a key-value
 * storage (the browser's localStorage). Storage is injected and may fail on
 * read and on write; JSON encoding and decoding are injected as a codec.
 */
module Cart {
  import opened Wrappers
  import opened Records

  /** The storage key the cart is kept under. */
  const StorageKey: string := "album-viewer:cart"

  /** What parsing the stored text gives: a syntax error, a JSON value that is not an array, or an array of albums. */
  datatype Decoded = ParseError | NonArray | Array(albums: seq<Album>)

  /** `JSON.stringify` and `JSON.parse` on album lists. */
  datatype Codec = Codec(encode: seq<Album> -> string, decode: string -> Decoded)
  {
    /**
     * Parsing what was written for `xs` gives `xs` back, and the written text
     * is not empty (the encoding of an array is at least "[]"). Stated per
     * list: with unbounded real prices no string codec can do this for every
     * list at once.
     */
    ghost predicate RoundTripsOn(xs: seq<Album>)
    {
      decode(encode(xs)) == Array(xs) && encode(xs) != ""
    }
  }

  /** The outcome of `getItem`: it threw, or it returned the stored text or `null`. */
  datatype ReadResult = Threw | Stored(text: Option<string>)

  /** What the store reports through `console.error`. */
  datatype Diagnostic = SaveFailed | LoadFailed

  /** A key-value storage whose reads and writes may throw. */
  class Storage {
    var slots: map<string, string>
    /** Every `setItem` call, in order, including those that threw. */
    var writes: seq<(string, string)>
    const readsFail: bool
    const writesFail: bool

    constructor (slots: map<string, string>, readsFail: bool, writesFail: bool)
      ensures this.slots == slots && writes == []
      ensures this.readsFail == readsFail && this.writesFail == writesFail
    {
      this.slots := slots;
      this.writes := [];
      this.readsFail := readsFail;
      this.writesFail := writesFail;
    }

    /** `getItem(key)`. */
    method GetItem(key: string) returns (r: ReadResult)
      ensures readsFail ==> r == Threw
      ensures !readsFail ==> r == Stored(if key in slots then Some(slots[key]) else None)
    {
      if readsFail {
        return Threw;
      }
      r := Stored(if key in slots then Some(slots[key]) else None);
    }

    /** `setItem(key, value)`: `ok` is false when the call threw, and then nothing was stored. */
    method SetItem(key: string, value: string) returns (ok: bool)
      modifies this
      ensures writes == old(writes) + [(key, value)]
      ensures ok == !writesFail
      ensures slots == if ok then old(slots)[key := value] else old(slots)
    {
      writes := writes + [(key, value)];
      ok := !writesFail;
      if ok {
        slots := slots[key := value];
      }
    }
  }

  class CartStore {
    var items: seq<Album>
    /** The diagnostics logged so far. */
    var log: seq<Diagnostic>
    const storage: Storage
    const codec: Codec

    /** A new store starts empty; it reads storage only when asked to load. */
    constructor (storage: Storage, codec: Codec)
      ensures items == [] && log == []
      ensures this.storage == storage && this.codec == codec
    {
      items := [];
      log := [];
      this.storage := storage;
      this.codec := codec;
    }

    /** `count`: derived from the list, never stored on its own. */
    function Count(): (n: nat)
      reads this
      ensures n == |items|
    {
      |items|
    }

    /** `has(id)`: some item carries `id`. */
    function Has(id: int): (r: bool)
      reads this
      ensures r <==> exists k :: 0 <= k < |items| && items[k].id == id
    {
      HasId(items, id)
    }

    /**
     * The effect of one `saveToStorage` on the state before it: exactly one
     * write of the encoded list under the cart's key; when it throws, the slot
     * keeps its old text and a diagnostic is logged instead.
     */
    ghost predicate Saved(slots0: map<string, string>, writes0: seq<(string, string)>, log0: seq<Diagnostic>)
      reads this, storage
    {
      var text := codec.encode(items);
      storage.writes == writes0 + [(StorageKey, text)] &&
      storage.slots == (if storage.writesFail then slots0 else slots0[StorageKey := text]) &&
      log == log0 + (if storage.writesFail then [SaveFailed] else [])
    }

    /** `saveToStorage`: write the list; a failing write is logged and swallowed. */
    method SaveToStorage()
      modifies this`log, storage
      ensures Saved(old(storage.slots), old(storage.writes), old(log))
    {
      var ok := storage.SetItem(StorageKey, codec.encode(items));
      if !ok {
        log := log + [SaveFailed];
      }
    }

    /** `add(album)`: append and save when the id is new; otherwise no change and no write. */
    method Add(album: Album)
      modifies this, storage
      ensures HasId(old(items), album.id) ==>
        items == old(items) && log == old(log) &&
        storage.slots == old(storage.slots) && storage.writes == old(storage.writes)
      ensures !HasId(old(items), album.id) ==>
        items == old(items) + [album] && Saved(old(storage.slots), old(storage.writes), old(log))
      ensures UniqueIds(old(items)) ==> UniqueIds(items)
      ensures Has(album.id)
    {
      if !Has(album.id) {
        if UniqueIds(items) {
          AppendKeepsUnique(items, album);
        }
        items := items + [album];
        assert items[|items| - 1].id == album.id;
        SaveToStorage();
      }
    }

    /** `remove(id)`: drop every item carrying `id`, keep the rest in order, and always save. */
    method Remove(id: int)
      modifies this, storage
      ensures items == WithoutId(old(items), id)
      ensures !Has(id)
      ensures Saved(old(storage.slots), old(storage.writes), old(log))
      ensures UniqueIds(old(items)) ==> UniqueIds(items)
    {
      if UniqueIds(items) {
        WithoutIdKeepsUnique(items, id);
      }
      items := WithoutId(items, id);
      SaveToStorage();
    }

    /** `clear()`: empty the list and save. */
    method Clear()
      modifies this, storage
      ensures items == [] && Count() == 0
      ensures Saved(old(storage.slots), old(storage.writes), old(log))
    {
      items := [];
      SaveToStorage();
    }

    /**
     * `loadFromStorage`: an absent or empty slot and a stored non-array leave
     * the list as it is; a stored array is adopted as it is, without checking
     * its ids; a parse error or a throwing read empties the list and logs.
     * Storage is only read.
     */
    method LoadFromStorage()
      modifies this`items, this`log
      ensures storage.readsFail ==> items == [] && log == old(log) + [LoadFailed]
      ensures !storage.readsFail && (StorageKey !in storage.slots || storage.slots[StorageKey] == "") ==>
        items == old(items) && log == old(log)
      ensures !storage.readsFail && StorageKey in storage.slots && storage.slots[StorageKey] != "" ==>
        match codec.decode(storage.slots[StorageKey])
        case ParseError => items == [] && log == old(log) + [LoadFailed]
        case NonArray => items == old(items) && log == old(log)
        case Array(xs) => items == xs && log == old(log)
    {
      var read := storage.GetItem(StorageKey);
      if read.Threw? {
        items := [];
        log := log + [LoadFailed];
        return;
      }
      if read.text.Some? && read.text.value != "" {
        match codec.decode(read.text.value)
        case ParseError =>
          items := [];
          log := log + [LoadFailed];
        case NonArray =>
        case Array(xs) =>
          items := xs;
      }
    }
  }

  /** Adding two different albums and removing the first leaves only the second. */
  method AddAddRemoveScenario(storage: Storage, codec: Codec, a1: Album, a2: Album)
    returns (items: seq<Album>, count: nat)
    requires a1.id != a2.id
    modifies storage
    ensures items == [a2] && count == 1
  {
    var cart := new CartStore(storage, codec);
    cart.Add(a1);
    cart.Add(a2);
    cart.Remove(a1.id);
    assert WithoutId([a1, a2], a1.id) == [a2];
    items, count := cart.items, cart.Count();
  }

  /**
   * Persistence across a reload: when storage works and the codec round-trips
   * the one-album list written, a fresh store that loads after another store added `a` to an empty cart
   * holds exactly `[a]`.
   */
  method ReloadScenario(storage: Storage, codec: Codec, a: Album) returns (reloaded: seq<Album>)
    requires codec.RoundTripsOn([a])
    requires !storage.readsFail && !storage.writesFail
    modifies storage
    ensures reloaded == [a]
  {
    var first := new CartStore(storage, codec);
    first.Add(a);
    assert first.items == [a];
    var second := new CartStore(storage, codec);
    second.LoadFromStorage();
    reloaded := second.items;
  }
}
