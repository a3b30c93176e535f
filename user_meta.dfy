/**
 * The host's per-user metadata store, reduced to what the plugin touches:
 * string values keyed by user id and meta key.
 */
module UserMeta {
  type UserId = nat

  /** user id -> (meta key -> stored value) */
  type MetaStore = map<UserId, map<string, string>>

  /** `get_user_meta($id, $key, true)`: the stored value, or "" when there is none. */
  function GetUserMeta(meta: MetaStore, id: UserId, key: string): string
  {
    if id in meta && key in meta[id] then meta[id][key] else ""
  }

  /** `update_user_meta($id, $key, $value)`: set one entry, creating it if needed. */
  function UpdateUserMeta(meta: MetaStore, id: UserId, key: string, value: string): (m': MetaStore)
    ensures GetUserMeta(m', id, key) == value
    ensures forall u, k :: (u != id || k != key) ==> GetUserMeta(m', u, k) == GetUserMeta(meta, u, k)
    ensures m'.Keys == meta.Keys + {id}
    ensures id in meta ==> m'[id].Keys == meta[id].Keys + {key}
    ensures forall u :: u in meta && u != id ==> m'[u] == meta[u]
  {
    var row := if id in meta then meta[id] else map[];
    meta[id := row[key := value]]
  }

  /** The store as mutable host state. */
  class UserMetaStore {
    var entries: MetaStore

    constructor (initial: MetaStore)
      ensures entries == initial
    {
      entries := initial;
    }

    method Update(id: UserId, key: string, value: string)
      modifies this
      ensures entries == UpdateUserMeta(old(entries), id, key, value)
    {
      entries := UpdateUserMeta(entries, id, key, value);
    }
  }
}
