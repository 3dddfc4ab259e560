/** Browser-side collaborators the components use: `localStorage` (a string to
    string dictionary), the toast notifier (its argument is returned by each
    handler instead of being displayed) and an opaque selected `File`. */
module Browser {
  import opened Js

  /** The argument of `toastSuccess(text)` or `toastError(text)`. */
  datatype Toast = SuccessToast(text: string) | ErrorToast(text: string)

  /** A file picked in an `<input type="file">`; its contents are not modelled. */
  datatype File = File(name: string)

  /** `window.localStorage`. */
  class LocalStorage {
    var entries: map<string, string>

    /** A store holding no key: every `getItem` reads `null`. */
    constructor ()
      ensures entries == map[]
      ensures forall k :: GetItem(k) == None
    {
      entries := map[];
    }

    /** `getItem(key)`: the stored text, or `null`. */
    function GetItem(key: string): (r: Option<string>)
      reads this
      ensures r.Some? <==> key in entries
      ensures r.Some? ==> r.value == entries[key]
    {
      if key in entries then Some(entries[key]) else None
    }

    /** `setItem(key, value)`: a later `getItem(key)` reads `value` back, and
        every other key reads what it read before. */
    method SetItem(key: string, value: string)
      modifies this
      ensures entries == old(entries)[key := value]
      ensures GetItem(key) == Some(value)
      ensures forall k :: k != key ==> GetItem(k) == old(GetItem(k))
    {
      entries := entries[key := value];
    }

    /** `removeItem(key)`: a later `getItem(key)` reads `null`, every other key
        reads what it read before, and removing an absent key changes nothing. */
    method RemoveItem(key: string)
      modifies this
      ensures entries == old(entries) - {key}
      ensures GetItem(key) == None
      ensures forall k :: k != key ==> GetItem(k) == old(GetItem(k))
      ensures key !in old(entries) ==> entries == old(entries)
    {
      entries := entries - {key};
    }
  }
}
