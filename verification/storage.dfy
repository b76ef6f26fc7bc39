/** The browser's `localStorage`: string values kept under string keys. */
module Storage {
  import opened Wrappers

  /** `localStorage.getItem(key)` on the contents `items`: the value, or null. */
  function Read(items: map<string, string>, key: string): Option<string> {
    if key in items then Some(items[key]) else None
  }

  /** The one storage area every store of the application writes to. */
  class LocalStorage {
    var items: map<string, string>

    constructor (initial: map<string, string>)
      ensures items == initial
    {
      items := initial;
    }

    method GetItem(key: string) returns (v: Option<string>)
      ensures v == Read(items, key)
    {
      v := if key in items then Some(items[key]) else None;
    }

    method SetItem(key: string, value: string)
      modifies this
      ensures items == old(items)[key := value]
    {
      items := items[key := value];
    }

    method RemoveItem(key: string)
      modifies this
      ensures items == old(items) - {key}
    {
      items := items - {key};
    }
  }
}
