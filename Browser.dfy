/** The browser facilities the core uses: the `localStorage` key-value store and
    the toast notifications shown to the user (write-only: nothing reads them back). */
module Browser {
  import opened Json

  /** The one key under which the session token is kept. */
  const AuthTokenKey: string := "authToken"

  /** A toast notification, recorded as the text shown. */
  datatype Toast = ToastSuccess(text: string) | ToastError(text: string)

  /** `localStorage`: string keys to string values, updated in place. */
  class Storage {
    var items: map<string, string>

    constructor (initial: map<string, string>)
      ensures items == initial
    {
      items := initial;
    }

    /** `getItem(key)`: null (None) for a missing key. */
    function GetItem(key: string): (v: Option<string>)
      reads this
      ensures v.Some? <==> key in items
      ensures v.Some? ==> v.value == items[key]
    {
      if key in items then Some(items[key]) else None
    }

    /** `setItem(key, value)`: only that key changes. */
    method SetItem(key: string, value: string)
      modifies this
      ensures items == old(items)[key := value]
    {
      items := items[key := value];
    }

    /** `removeItem(key)`: only that key goes; removing a missing key changes nothing. */
    method RemoveItem(key: string)
      modifies this
      ensures items == old(items) - {key}
      ensures key !in old(items) ==> items == old(items)
    {
      items := items - {key};
    }
  }
}
