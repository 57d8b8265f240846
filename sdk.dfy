/** The parts of the feature-flag SDK that the relay store is built on: data
    kinds, versioned items, and the wrapped feature store. The wrapped store is
    an outside collaborator; it is modelled by the state it holds and by the
    outcomes it may report, not by its own conflict resolution. */
module Sdk {

  datatype Option<+T> = None | Some(value: T)

  datatype Error = Error(message: string)

  datatype Result<+T> = Success(value: T) | Failure(error: Error)

  /** A kind of versioned data. Features and Segments are the kinds the relay
      knows by name; Other stands for any further kind value a caller passes. */
  datatype DataKind = Features | Segments | Other(namespace: string)

  /** A versioned item: its key, its version, whether it is a deletion
      tombstone, and its kind-specific fields, kept opaque. */
  datatype Item = Item(key: string, version: int, deleted: bool, attributes: string)

  /** The items of one kind by key. A Go map that may be nil is an
      Option<ItemMap>, with None for nil; so the by-kind data given to Init is
      a map<DataKind, Option<ItemMap>>, whose entries may be nil too. */
  type ItemMap = map<string, Item>

  /** The entry for `kind` in a by-kind map, None when it is absent or nil (a
      Go map read of a missing key gives a nil map). */
  function Lookup(allData: map<DataKind, Option<ItemMap>>, kind: DataKind): (m: Option<ItemMap>)
    ensures m.Some? <==> kind in allData && allData[kind].Some?
    ensures m.Some? ==> m.value == allData[kind].value
  {
    if kind in allData then allData[kind] else None
  }

  /** What a map that may be nil holds: nothing when it is nil. */
  function Contents(m: Option<ItemMap>): ItemMap
  {
    match m
    case None => map[]
    case Some(items) => items
  }

  /** The marker the store keeps for a deleted key. */
  function Tombstone(key: string, version: int): Item
  {
    Item(key, version, true, "")
  }

  /** What the wrapped store does with one upsert or delete: it stores it, it
      keeps its state without reporting an error (for example a stale version),
      or it fails with an error and keeps its state. */
  datatype Write = Applied | Ignored | Failed(error: Error)

  /** The items of `m` that are not deletion tombstones. */
  function Live(m: ItemMap): (r: ItemMap)
    ensures forall key :: key in r <==> key in m && !m[key].deleted
    ensures forall key :: key in r ==> r[key] == m[key]
  {
    map key | key in m && !m[key].deleted :: m[key]
  }

  /** The state of the wrapped store. Deletions are kept as tombstones, which
      the store's reads hide: Get gives nil for a deleted key and All leaves it
      out. */
  datatype Store = Store(items: map<DataKind, ItemMap>, initialized: bool)
  {
    /** Every item of one kind the store holds, tombstones included; a kind
        never written holds nothing. */
    function Held(kind: DataKind): ItemMap
    {
      if kind in items then items[kind] else map[]
    }

    /** Every live item of one kind, as a read of the whole kind sees it. */
    function All(kind: DataKind): (r: ItemMap)
      ensures forall key :: key in r <==> key in Held(kind) && !Held(kind)[key].deleted
      ensures forall key :: key in r ==> r[key] == Held(kind)[key]
    {
      Live(Held(kind))
    }

    /** The item stored under `key`, or None (a nil item) when there is none or
        it has been deleted. */
    function Get(kind: DataKind, key: string): (r: Option<Item>)
      ensures r.Some? <==> key in All(kind)
      ensures r.Some? ==> r.value == All(kind)[key] && !r.value.deleted
    {
      if key in Held(kind) && !Held(kind)[key].deleted then Some(Held(kind)[key]) else None
    }

    /** A read of one item, failing with `fault` when the store reports one. */
    function Read(kind: DataKind, key: string, fault: Option<Error>): (r: Result<Option<Item>>)
      ensures r.Failure? <==> fault.Some?
      ensures r.Failure? ==> r.error == fault.value
      ensures r.Success? ==> r.value == Get(kind, key)
    {
      match fault
      case Some(e) => Failure(e)
      case None => Success(Get(kind, key))
    }

    /** A read of every item of one kind, failing with `fault` when the store
        reports one. */
    function ReadAll(kind: DataKind, fault: Option<Error>): (r: Result<ItemMap>)
      ensures r.Failure? <==> fault.Some?
      ensures r.Failure? ==> r.error == fault.value
      ensures r.Success? ==> r.value == All(kind)
    {
      match fault
      case Some(e) => Failure(e)
      case None => Success(All(kind))
    }

    /** A successful Init: the store holds exactly `allData`, a nil map as an
        empty one, and is initialized. */
    function Init(allData: map<DataKind, Option<ItemMap>>): (s: Store)
      ensures s.initialized
      ensures forall kind :: s.Held(kind) == Contents(Lookup(allData, kind))
      ensures forall kind :: s.All(kind) == Live(Contents(Lookup(allData, kind)))
    {
      Store(map kind | kind in allData :: Contents(allData[kind]), true)
    }

    /** An upsert that did not fail: stored when applied, no change when ignored. */
    function Upsert(kind: DataKind, item: Item, write: Write): (s: Store)
      ensures s.initialized == initialized
      ensures write.Applied? ==> item.key in s.Held(kind) && s.Held(kind)[item.key] == item
      ensures write.Applied? ==> s.Get(kind, item.key) == (if item.deleted then None else Some(item))
      ensures !write.Applied? ==> s == this
      ensures forall k, key :: (k != kind || key != item.key) ==> s.Get(k, key) == Get(k, key)
    {
      if write.Applied? then this.(items := items[kind := Held(kind)[item.key := item]]) else this
    }

    /** A delete that did not fail: a tombstone when applied, no change when ignored. */
    function Delete(kind: DataKind, key: string, version: int, write: Write): (s: Store)
      ensures s.initialized == initialized
      ensures write.Applied? ==> key in s.Held(kind) && s.Held(kind)[key] == Tombstone(key, version)
      ensures write.Applied? ==> s.Get(kind, key) == None
      ensures !write.Applied? ==> s == this
      ensures forall k, key' :: (k != kind || key' != key) ==> s.Get(k, key') == Get(k, key')
    {
      if write.Applied? then this.(items := items[kind := Held(kind)[key := Tombstone(key, version)]]) else this
    }
  }
}
