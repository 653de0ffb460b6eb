/** What the user-data layer runs against: the browser's localStorage, the
    React state that mirrors it, and the two window effects it triggers
    (a page reload and a blocking alert). */
module Env {
  import opened Json

  /** One localStorage value. `Stringified(v)` is the text `JSON.stringify(v)`,
      which `JSON.parse` reads back as `v`; `Raw(t)` is text stored verbatim. */
  datatype Entry = Stringified(value: Json) | Raw(text: string)

  type Store = map<string, Entry>

  /** An optional state setter as the data functions receive it: not passed,
      passed, or passed and throwing when called. */
  datatype Setter = Absent | Live | Throwing

  /** `localStorage.getItem(key)`, with `None` for `null`. */
  function GetItem(store: Store, key: string): Option<Entry> {
    if key in store then Some(store[key]) else None
  }

  /** `JSON.parse(localStorage.getItem(key) ?? "[]")`: a missing key reads as
      the empty array, and `None` is a parse that throws. */
  function ReadJson(store: Store, key: string, parse: string -> Option<Json>): (r: Option<Json>)
    ensures key !in store ==> r == Some(JArray([]))
    ensures key in store && store[key].Stringified? ==> r == Some(store[key].value)
  {
    if key !in store then Some(JArray([]))
    else match store[key]
      case Stringified(v) => Some(v)
      case Raw(t) => parse(t)
  }

  /** Both sides kept the same at `key`: present in both with one value, or
      absent from both. */
  predicate SameAt<V(==)>(a: map<string, V>, b: map<string, V>, key: string) {
    (key in a <==> key in b) && (key in a ==> a[key] == b[key])
  }

  /** The page: localStorage, the React state the data buttons update
      (plot plans, user pins and the found-collectable record `UserData`),
      and whether a reload or an alert has been triggered. */
  class Page {
    var storage: Store
    var plotData: Json
    var userPins: Json
    var found: map<string, Json>
    var reloaded: bool
    var alerted: bool

    constructor (storage: Store, plotData: Json, userPins: Json, found: map<string, Json>)
      ensures this.storage == storage && this.plotData == plotData
      ensures this.userPins == userPins && this.found == found
      ensures !reloaded && !alerted
    {
      this.storage := storage;
      this.plotData := plotData;
      this.userPins := userPins;
      this.found := found;
      reloaded := false;
      alerted := false;
    }

    /** `localStorage.setItem(key, e)`. */
    method SetItem(key: string, e: Entry)
      modifies this`storage
      ensures storage == old(storage)[key := e]
    {
      storage := storage[key := e];
    }

    /** `window.location.reload()`: all state is re-derived from storage. */
    method Reload()
      modifies this`reloaded
      ensures reloaded
    {
      reloaded := true;
    }

    /** `window.alert(...)`. */
    method Alert()
      modifies this`alerted
      ensures alerted
    {
      alerted := true;
    }
  }
}
