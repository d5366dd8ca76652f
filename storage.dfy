/** The browser's key-value store. Values are kept as the records they
    encode, not as JSON text. */
module LocalStorage {

  import opened Wrappers

  class Storage<V> {
    var items: map<string, V>

    constructor (initial: map<string, V>)
      ensures items == initial
    {
      items := initial;
    }

    /** `getItem`: None when the key is absent (where the browser gives null). */
    function GetItem(key: string): Option<V>
      reads this
    {
      if key in items then Some(items[key]) else None
    }

    method SetItem(key: string, value: V)
      modifies this
      ensures items == old(items)[key := value]
      ensures GetItem(key) == Some(value)
      ensures forall k :: k != key ==> GetItem(k) == old(GetItem(k))
    {
      items := items[key := value];
    }

    method RemoveItem(key: string)
      modifies this
      ensures items == old(items) - {key}
      ensures GetItem(key) == None
      ensures forall k :: k != key ==> GetItem(k) == old(GetItem(k))
    {
      items := items - {key};
    }
  }
}
