/** The browser's `localStorage`: a string-to-string store shared by every hook of the page. */
module Storage {

  class LocalStorage {
    var items: map<string, string>

    constructor (items: map<string, string>)
      ensures this.items == items
    {
      this.items := items;
    }

    /**
     * `setItem(key, value)`. The browser may refuse the write (`rejected`, e.g. the quota is
     * exhausted), in which case `setItem` throws and nothing is stored.
     */
    method SetItem(key: string, value: string, rejected: bool) returns (ok: bool)
      modifies this
      ensures ok == !rejected
      ensures items == if ok then old(items)[key := value] else old(items)
    {
      ok := !rejected;
      if ok {
        items := items[key := value];
      }
    }

    /** `removeItem(key)`: removing a missing key is not an error. */
    method RemoveItem(key: string)
      modifies this
      ensures items == old(items) - {key}
    {
      items := items - {key};
    }
  }
}
