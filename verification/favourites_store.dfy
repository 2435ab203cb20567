/** Durable storage of the favourites list (frontend/src/App.js, lines
    28-32 and 65-67): the whole list is serialised under one fixed key on
    every change and read back once when the page loads.  The browser's
    key-value storage is a map; the JSON serialiser and parser are
    parameters. */
module FavouritesStore {
  import opened Items

  const StorageKey := "favourites"

  type Storage = map<string, string>
  type Serialise = seq<Item> -> string
  type Parse = string -> seq<Item>

  /** The initial favourites: the parsed stored list when the key holds a
      non-empty string, otherwise the empty list. */
  function Load(storage: Storage, parse: Parse): (favs: seq<Item>)
    ensures StorageKey !in storage ==> favs == []
    ensures StorageKey in storage && storage[StorageKey] == "" ==> favs == []
    ensures StorageKey in storage && storage[StorageKey] != "" ==> favs == parse(storage[StorageKey])
  {
    if StorageKey in storage && storage[StorageKey] != "" then parse(storage[StorageKey]) else []
  }

  /** `localStorage.setItem('favourites', JSON.stringify(favourites))` */
  function Save(storage: Storage, favs: seq<Item>, serialise: Serialise): (s: Storage)
    ensures StorageKey in s && s[StorageKey] == serialise(favs)
    ensures forall k :: k in storage && k != StorageKey ==> k in s && s[k] == storage[k]
    ensures s.Keys == storage.Keys + {StorageKey}
  {
    storage[StorageKey := serialise(favs)]
  }

  /** Reloading after a save gives back the saved list, whenever the
      serialiser yields a non-empty text that the parser reads back. */
  lemma LoadAfterSave(storage: Storage, favs: seq<Item>, serialise: Serialise, parse: Parse)
    requires serialise(favs) != "" && parse(serialise(favs)) == favs
    ensures Load(Save(storage, favs, serialise), parse) == favs
  {
  }
}
