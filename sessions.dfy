/** The stored session: the `{token, user}` record the login call returns,
    and the browser's durable key-value storage that holds it under the
    key `fmc_user`. JSON serialisation is abstracted away: storage maps a
    key to the record itself. */
module Sessions {
  import opened Common

  datatype User = User(id: Id, username: string, role: string)

  datatype Session = Session(token: string, user: User)

  /** The storage key every component reads and writes. */
  const UserKey := "fmc_user"

  type Storage = map<string, Session>

  /** `JSON.parse(localStorage.getItem('fmc_user'))`: the stored record, or
      nothing when the key is absent. */
  function Stored(entries: Storage): (r: Option<Session>)
    ensures r.Some? <==> UserKey in entries
    ensures r.Some? ==> r.value == entries[UserKey]
  {
    if UserKey in entries then Some(entries[UserKey]) else None
  }

  /** The browser's local storage, shared by every component of one tab. */
  class LocalStorage {
    var entries: Storage

    constructor (initial: Storage)
      ensures entries == initial
    {
      entries := initial;
    }

    /** `localStorage.setItem(key, value)`. */
    method SetItem(key: string, value: Session)
      modifies this
      ensures entries == old(entries)[key := value]
    {
      entries := entries[key := value];
    }

    /** `localStorage.removeItem(key)`: every other key keeps its record. */
    method RemoveItem(key: string)
      modifies this
      ensures entries == old(entries) - {key}
      ensures key !in entries
    {
      entries := entries - {key};
    }
  }
}
