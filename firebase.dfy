/** The part of the realtime database the two screens rely on, reduced to an abstract
    append-only log per location and a registry of child-added observers. Network
    synchronisation, write failures and key generation belong to the database client
    and are not modelled: the key a `childByAutoId()` call produces is passed in, and
    only its freshness is required. */
module Firebase {
  import opened Wrappers

  /** A child key such as the ones `childByAutoId()` produces. */
  type Key = string

  /** A database location as its list of child names: `channels/<id>/messages` is
      `["channels", id, "messages"]`. */
  type Path = seq<string>

  /** The value of a child. Both screens force-cast it to a dictionary of strings. */
  type Payload = map<string, string>

  /** One child of a location, as a child-added snapshot presents it. */
  datatype Child = Child(key: Key, value: Payload)

  /** The identifier `observe(_:with:)` returns for a registered observer. */
  type Handle = nat

  /** A child-added subscription: a location and an optional `queryLimited(toLast:)`. */
  datatype Query = Query(path: Path, limitToLast: Option<nat>)

  /** `key` is not the key of any child in `children`. */
  predicate FreshKey(key: Key, children: seq<Child>)
  {
    forall i :: 0 <= i < |children| ==> children[i].key != key
  }

  /** No two children share a key. */
  predicate KeysDistinct(children: seq<Child>)
  {
    forall i, j :: 0 <= i < j < |children| ==> children[i].key != children[j].key
  }

  /** Adding a child under a fresh key keeps the keys distinct. */
  lemma KeysDistinctAppend(children: seq<Child>, child: Child)
    requires KeysDistinct(children) && FreshKey(child.key, children)
    ensures KeysDistinct(children + [child])
  {
  }

  /** Every one of `events` is a child stored in `children`. */
  predicate AllStored(events: seq<Child>, children: seq<Child>)
  {
    forall i :: 0 <= i < |events| ==> events[i] in children
  }

  /** Handing over one more stored child keeps every handed-over child stored. */
  lemma AllStoredAppend(events: seq<Child>, children: seq<Child>, child: Child)
    requires AllStored(events, children) && child in children
    ensures AllStored(events + [child], children)
  {
  }

  /** The children a `queryLimited(toLast: n)` query selects from a location: the
      last `n`, in their stored order. */
  function LimitToLast(children: seq<Child>, n: nat): (r: seq<Child>)
    ensures |r| == if |children| <= n then |children| else n
    ensures r == children[|children| - |r|..]
    ensures children == children[..|children| - |r|] + r
  {
    if |children| <= n then children else children[|children| - n..]
  }

  class Database {
    /** The children stored at each location, in the order they were added. */
    var logs: map<Path, seq<Child>>
    /** The registered child-added observers. */
    var observers: map<Handle, Query>
    /** The next handle `observe` gives out. */
    var nextHandle: Handle

    ghost predicate Valid()
      reads this
    {
      && (forall h :: h in observers ==> h < nextHandle)
      && (forall p :: p in logs ==> KeysDistinct(logs[p]))
    }

    constructor ()
      ensures Valid()
      ensures logs == map[] && observers == map[]
    {
      logs := map[];
      observers := map[];
      nextHandle := 0;
    }

    /** The children stored at `path` (none if nothing was ever written there). */
    function Children(path: Path): seq<Child>
      reads this
    {
      if path in logs then logs[path] else []
    }

    /** `child(path).childByAutoId().setValue(value)`, with `key` the generated key. */
    method SetValueAtAutoId(path: Path, key: Key, value: Payload)
      requires Valid()
      requires FreshKey(key, Children(path))
      modifies this
      ensures Valid()
      ensures logs == old(logs)[path := old(Children(path)) + [Child(key, value)]]
      ensures observers == old(observers)
    {
      var children := Children(path);
      logs := logs[path := children + [Child(key, value)]];
    }

    /** `observe(.childAdded, with:)` on `query`: registers an observer under a handle
        no registered observer holds. */
    method Observe(query: Query) returns (h: Handle)
      requires Valid()
      modifies this
      ensures Valid()
      ensures h !in old(observers)
      ensures observers == old(observers)[h := query]
      ensures logs == old(logs)
    {
      h := nextHandle;
      observers := observers[h := query];
      nextHandle := nextHandle + 1;
    }

    /** `removeObserver(withHandle:)`. */
    method RemoveObserver(h: Handle)
      requires Valid()
      modifies this
      ensures Valid()
      ensures observers == old(observers) - {h}
      ensures logs == old(logs)
    {
      observers := observers - {h};
    }
  }
}
