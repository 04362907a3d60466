/** The browser facilities the components share: the origin's localStorage,
    the router's navigation history and the alert dialog. One `Window` object
    is handed to every component, so a write by one is seen by the others. */
module Browser {

  datatype Option<T> = None | Some(value: T)

  /** Storage keys of the two credentials. The constants module they come from
      is not part of this model; only their being distinct matters. */
  const ACCESS_TOKEN: string := "access"
  const REFRESH_TOKEN: string := "refresh"

  /** JavaScript truthiness of a value that is a string or null/undefined. */
  predicate Truthy(v: Option<string>) {
    v.Some? && v.value != ""
  }

  /** What `localStorage.setItem` stores for a response field that may be
      missing: a missing field is converted to the string "undefined". */
  function Stored(v: Option<string>): string {
    match v
    case Some(s) => s
    case None => "undefined"
  }

  /** The entry stored under `key`, or null. */
  function Lookup(storage: map<string, string>, key: string): (r: Option<string>)
    ensures r.Some? <==> key in storage
    ensures r.Some? ==> r.value == storage[key]
  {
    if key in storage then Some(storage[key]) else None
  }

  /** A navigation, with the contents of localStorage at the moment it happened. */
  datatype Visit = Visit(path: string, storageThen: map<string, string>)

  class Window {
    var storage: map<string, string>
    var visits: seq<Visit>
    var alerts: seq<string>

    constructor (initial: map<string, string>)
      ensures storage == initial && visits == [] && alerts == []
    {
      storage := initial;
      visits := [];
      alerts := [];
    }

    /** `localStorage.getItem(key)`: the stored string, or null. */
    function GetItem(key: string): Option<string>
      reads this
    {
      Lookup(storage, key)
    }

    method SetItem(key: string, value: string)
      modifies this
      ensures storage == old(storage)[key := value]
      ensures visits == old(visits) && alerts == old(alerts)
    {
      storage := storage[key := value];
    }

    /** `localStorage.clear()`. */
    method Clear()
      modifies this
      ensures storage == map[]
      ensures visits == old(visits) && alerts == old(alerts)
    {
      storage := map[];
    }

    /** `navigate(path)`. */
    method Navigate(path: string)
      modifies this
      ensures visits == old(visits) + [Visit(path, storage)]
      ensures storage == old(storage) && alerts == old(alerts)
    {
      visits := visits + [Visit(path, storage)];
    }

    /** `alert(message)`. */
    method Alert(message: string)
      modifies this
      ensures alerts == old(alerts) + [message]
      ensures storage == old(storage) && visits == old(visits)
    {
      alerts := alerts + [message];
    }
  }
}
