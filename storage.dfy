/** The browser's `localStorage`: one string-to-string map shared by every part of the page. */
module Storage {
  import opened Wrappers

  /** `getItem` on a snapshot of the storage map: `None` stands for `null`. */
  function Lookup(items: map<string, string>, key: string): Option<string> {
    if key in items then Some(items[key]) else None
  }

  /** A key reads back what was last set under it, or nothing once removed; other keys read as before. */
  lemma LookupAfterUpdate(items: map<string, string>, key: string, value: string, other: string)
    ensures Lookup(items[key := value], key) == Some(value)
    ensures Lookup(items - {key}, key) == None
    ensures other != key ==> Lookup(items[key := value], other) == Lookup(items, other)
    ensures other != key ==> Lookup(items - {key}, other) == Lookup(items, other)
  {
  }

  class LocalStorage {
    var items: map<string, string>

    constructor (initial: map<string, string>)
      ensures items == initial
    {
      items := initial;
    }

    /** `getItem`: the stored text, or `null` for a key never set or since removed. */
    function GetItem(key: string): (value: Option<string>)
      reads this
      ensures value.Some? <==> key in items
      ensures value.Some? ==> value.value == items[key]
    {
      Lookup(items, key)
    }

    method SetItem(key: string, value: string)
      modifies this
      ensures items == old(items)[key := value]
    {
      items := items[key := value];
    }

    method RemoveItem(key: string)
      modifies this
      ensures items == old(items) - {key}
    {
      items := items - {key};
    }
  }
}
