/**
 * The browser state the session logic shares: `localStorage` (string keys
 * to string values) and `window.location.href`.  Every file that reads or
 * writes the session does it through one `Window`.
 */
module Browser {

  import opened Wrappers

  class Window {
    var storage: map<string, string>
    var href: string

    constructor (storage0: map<string, string>, href0: string)
      ensures storage == storage0 && href == href0
    {
      storage := storage0;
      href := href0;
    }

    /** `localStorage.getItem(key)`: `null` when the key is absent. */
    function GetItem(key: string): Option<string>
      reads this
    {
      if key in storage then Some(storage[key]) else None
    }

    /** `localStorage.setItem(key, value)`. */
    method SetItem(key: string, value: string)
      modifies this`storage
      ensures storage == old(storage)[key := value]
    {
      storage := storage[key := value];
    }

    /** `localStorage.removeItem(key)`: removing an absent key changes nothing. */
    method RemoveItem(key: string)
      modifies this`storage
      ensures storage == old(storage) - {key}
    {
      storage := storage - {key};
    }

    /** `window.location.href = url`. */
    method Assign(url: string)
      modifies this`href
      ensures href == url
    {
      href := url;
    }
  }
}
