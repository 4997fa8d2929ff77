/**
 * `useLocalStorage` and `useLocalStorageState`: in-memory state mirrored to `localStorage` under
 * the value's own key. Values go through an abstract JSON codec whose decoding may fail.
 */
module Persisted {
  import opened Wrappers
  import Storage

  /** `JSON.stringify` / `JSON.parse` for the values of one hook; `decode` is `None` when parsing throws. */
  datatype Codec<!V> = Codec(encode: V -> string, decode: string -> Option<V>)

  /** The JSON round trip for `v`: its text is non-empty and parses back to `v`. */
  predicate RoundTrips<V(==)>(c: Codec<V>, v: V) {
    c.encode(v) != "" && c.decode(c.encode(v)) == Some(v)
  }

  /** The key holds a non-empty string that parses. */
  predicate Readable<V>(items: map<string, string>, key: string, c: Codec<V>) {
    key in items && items[key] != "" && c.decode(items[key]).Some?
  }

  /**
   * The initial read of one key: the parsed stored item, or `fallback` when there is no window,
   * the key is missing or empty, or parsing fails.
   */
  function ReadStored<V>(items: map<string, string>, key: string, fallback: V, c: Codec<V>, hasWindow: bool): (r: V)
    ensures hasWindow && Readable(items, key, c) ==> c.decode(items[key]) == Some(r)
    ensures !(hasWindow && Readable(items, key, c)) ==> r == fallback
  {
    if !hasWindow then fallback
    else if key in items && items[key] != "" then c.decode(items[key]).GetOr(fallback)
    else fallback
  }

  /** A value written under `key` reads back as itself, whatever the fallback. */
  lemma ReadBackAfterWrite<V>(items: map<string, string>, key: string, v: V, fallback: V, c: Codec<V>)
    requires RoundTrips(c, v)
    ensures ReadStored(items[key := c.encode(v)], key, fallback, c, true) == v
  {
  }

  /** A write under `key` changes the read of no other key. */
  lemma WriteIsolated<V>(items: map<string, string>, key: string, text: string, other: string, fallback: V, c: Codec<V>, hasWindow: bool)
    requires other != key
    ensures ReadStored(items[key := text], other, fallback, c, hasWindow) == ReadStored(items, other, fallback, c, hasWindow)
  {
  }

  /** The argument of a setter: a value, or an updater applied to the current value. */
  datatype Update<!V> = Assign(value: V) | Apply(f: V -> V)

  /**
   * `value instanceof Function ? value(storedValue) : value`: a plain value ignores the current
   * value; an updater sees it.
   */
  function Resolve<V>(u: Update<V>, current: V): V {
    match u
    case Assign(v) => v
    case Apply(f) => f(current)
  }

  /** `useLocalStorage(key, initialValue)`. */
  class LocalStorageHook<V> {
    const storage: Storage.LocalStorage
    const key: string
    const codec: Codec<V>
    const hasWindow: bool
    var value: V

    /** The first render reads the key once. */
    constructor (storage: Storage.LocalStorage, key: string, initialValue: V, codec: Codec<V>, hasWindow: bool)
      ensures this.storage == storage && this.key == key && this.codec == codec && this.hasWindow == hasWindow
      ensures value == ReadStored(storage.items, key, initialValue, codec, hasWindow)
    {
      this.storage := storage;
      this.key := key;
      this.codec := codec;
      this.hasWindow := hasWindow;
      value := ReadStored(storage.items, key, initialValue, codec, hasWindow);
    }

    /**
     * `setValue(v)`: the value is updated first, then written under `key` alone; a refused write
     * is swallowed, so the caller sees no error and the value stays updated.
     */
    method SetValue(u: Update<V>, rejected: bool)
      modifies this`value, storage
      ensures value == Resolve(u, old(value))
      ensures storage.items == if hasWindow && !rejected then old(storage.items)[key := codec.encode(value)]
                               else old(storage.items)
    {
      value := Resolve(u, value);
      if hasWindow {
        var _ := storage.SetItem(key, codec.encode(value), rejected);
      }
    }
  }

  /** The state `useLocalStorageState` starts from: every key of `initial`, each read on its own. */
  function InitialState<V>(items: map<string, string>, initial: map<string, V>, c: Codec<V>, hasWindow: bool): (r: map<string, V>)
    ensures r.Keys == initial.Keys
    ensures forall k :: k in r ==> r[k] == ReadStored(items, k, initial[k], c, hasWindow)
  {
    if !hasWindow then initial
    else map k | k in initial :: ReadStored(items, k, initial[k], c, true)
  }

  /** The initial reader: one read per key of `initialValues`, filling `stored` key by key. */
  method ReadInitialState<V>(storage: Storage.LocalStorage, initial: map<string, V>, c: Codec<V>, hasWindow: bool)
    returns (stored: map<string, V>)
    ensures stored == InitialState(storage.items, initial, c, hasWindow)
  {
    if !hasWindow {
      return initial;
    }
    stored := map[];
    var pending := initial.Keys;
    while pending != {}
      invariant pending <= initial.Keys
      invariant stored.Keys == initial.Keys - pending
      invariant forall k :: k in stored ==> stored[k] == ReadStored(storage.items, k, initial[k], c, true)
      decreases pending
    {
      var k :| k in pending;
      stored := stored[k := ReadStored(storage.items, k, initial[k], c, true)];
      pending := pending - {k};
    }
  }

  /** A key whose stored text does not parse falls back alone; every other key reads as before. */
  lemma UnreadableKeyFallsBackAlone<V>(items: map<string, string>, initial: map<string, V>, c: Codec<V>, k: string, text: string)
    requires k in initial && c.decode(text).None?
    ensures InitialState(items[k := text], initial, c, true)[k] == initial[k]
    ensures forall j :: j in initial && j != k ==>
              InitialState(items[k := text], initial, c, true)[j] == InitialState(items, initial, c, true)[j]
  {
  }

  /** `{...prev, [key]: value}`. */
  function WithKey<V>(prev: map<string, V>, key: string, value: V): (r: map<string, V>)
    ensures r.Keys == prev.Keys + {key}
    ensures r[key] == value
    ensures forall j :: j in prev && j != key ==> r[j] == prev[j]
  {
    prev[key := value]
  }

  /** `useLocalStorageState(initialValues)`. */
  class LocalStorageStateHook<V> {
    const storage: Storage.LocalStorage
    const codec: Codec<V>
    const hasWindow: bool
    var state: map<string, V>

    constructor (storage: Storage.LocalStorage, initialValues: map<string, V>, codec: Codec<V>, hasWindow: bool)
      ensures this.storage == storage && this.codec == codec && this.hasWindow == hasWindow
      ensures state == InitialState(storage.items, initialValues, codec, hasWindow)
    {
      this.storage := storage;
      this.codec := codec;
      this.hasWindow := hasWindow;
      var stored := ReadInitialState(storage, initialValues, codec, hasWindow);
      state := stored;
    }

    /** `updateValue(key, value)`: `key` takes `value`, and only `key` is written; a refused write is swallowed. */
    method UpdateValue(key: string, value: V, rejected: bool)
      modifies this`state, storage
      ensures state == WithKey(old(state), key, value)
      ensures storage.items == if hasWindow && !rejected then old(storage.items)[key := codec.encode(value)]
                               else old(storage.items)
    {
      state := WithKey(state, key, value);
      if hasWindow {
        var _ := storage.SetItem(key, codec.encode(value), rejected);
      }
    }
  }
}
