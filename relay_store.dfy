/** The relay feature store as an object: it holds the wrapped store and the
    three publishers and updates them in place, one write and its publish
    calls after the other. Each method is specified by the matching step of
    the Relay module, so everything proved there holds of it. */
module RelayStore {
  import opened Sdk
  import opened Events
  import opened Relay

  class RelayFeatureStore {
    var store: Store
    const apiKey: string
    var allPublisher: Publisher
    var flagsPublisher: Publisher
    var pingPublisher: Publisher

    /** The object's state as a value. */
    function Model(): State
      reads this
    {
      State(apiKey, store, allPublisher, flagsPublisher, pingPublisher)
    }

    /** Wraps `base` and registers the all, flags and ping repositories under
        the API key with their publishers. The heartbeat interval only paces
        the periodic task, which is not modelled: each tick is a call to
        Heartbeat. */
    constructor (apiKey: string, allPublisher: Publisher, flagsPublisher: Publisher, pingPublisher: Publisher,
                 base: Store, heartbeatInterval: int)
      ensures Model() == New(apiKey, allPublisher, flagsPublisher, pingPublisher, base)
    {
      this.store := base;
      this.apiKey := apiKey;
      this.allPublisher := Register(allPublisher, apiKey, AllRepository);
      this.flagsPublisher := Register(flagsPublisher, apiKey, FlagsRepository);
      this.pingPublisher := Register(pingPublisher, apiKey, PingRepository);
    }

    /** Sends an empty comment on each channel and changes nothing else. */
    method Heartbeat()
      modifies this
      ensures Model() == HeartbeatStep(old(Model()))
      ensures store == old(store)
      ensures allPublisher.sent == old(allPublisher.sent) + [Message([apiKey], CommentLine(""))]
      ensures flagsPublisher.sent == old(flagsPublisher.sent) + [Message([apiKey], CommentLine(""))]
      ensures pingPublisher.sent == old(pingPublisher.sent) + [Message([apiKey], CommentLine(""))]
    {
      var keys := Keys(Model());
      allPublisher := PublishComment(allPublisher, keys, "");
      flagsPublisher := PublishComment(flagsPublisher, keys, "");
      pingPublisher := PublishComment(pingPublisher, keys, "");
    }

    /** One item, as the wrapped store reads it. */
    function Get(kind: DataKind, key: string, fault: Option<Error>): (r: Result<Option<Item>>)
      reads this
      ensures r.Failure? <==> fault.Some?
      ensures r.Failure? ==> r.error == fault.value
      ensures r.Success? ==> (r.value.Some? <==> key in store.All(kind))
      ensures r.Success? && r.value.Some? ==> r.value.value == store.All(kind)[key]
    {
      store.Read(kind, key, fault)
    }

    /** Every item of a kind, as the wrapped store reads them. */
    function All(kind: DataKind, fault: Option<Error>): (r: Result<ItemMap>)
      reads this
      ensures r.Failure? <==> fault.Some?
      ensures r.Failure? ==> r.error == fault.value
      ensures r.Success? ==> r.value == store.All(kind)
    {
      store.ReadAll(kind, fault)
    }

    /** Whether the wrapped store has been initialized. */
    function Initialized(): (r: bool)
      reads this
      ensures r <==> store.initialized
    {
      store.initialized
    }

    method Init(allData: map<DataKind, Option<ItemMap>>, fault: Option<Error>) returns (err: Option<Error>)
      modifies this
      ensures Step(Model(), err) == InitStep(old(Model()), allData, fault)
    {
      if fault.Some? {
        return fault;
      }
      store := store.Init(allData);
      var keys := Keys(Model());
      var put := MakePutEvent(Lookup(allData, Features), Lookup(allData, Segments));
      allPublisher := Publish(allPublisher, keys, put);
      flagsPublisher := Publish(flagsPublisher, keys, MakeFlagsPutEvent(Lookup(allData, Features)));
      pingPublisher := Publish(pingPublisher, keys, MakePingEvent());
      err := None;
    }

    method Delete(kind: DataKind, key: string, version: int, write: Write) returns (err: Option<Error>)
      modifies this
      ensures Step(Model(), err) == DeleteStep(old(Model()), kind, key, version, write)
    {
      if write.Failed? {
        return Some(write.error);
      }
      store := store.Delete(kind, key, version, write);
      var keys := Keys(Model());
      allPublisher := Publish(allPublisher, keys, MakeDeleteEvent(kind, key, version));
      if kind == Features {
        flagsPublisher := Publish(flagsPublisher, keys, MakeFlagsDeleteEvent(key, version));
      }
      pingPublisher := Publish(pingPublisher, keys, MakePingEvent());
      err := None;
    }

    method Upsert(kind: DataKind, item: Item, write: Write, reread: Option<Error>) returns (err: Option<Error>)
      modifies this
      ensures Step(Model(), err) == UpsertStep(old(Model()), kind, item, write, reread)
    {
      if write.Failed? {
        return Some(write.error);
      }
      store := store.Upsert(kind, item, write);
      var newItem := store.Read(kind, item.key, reread);
      if newItem.Failure? {
        return Some(newItem.error);
      }
      if newItem.value.Some? {
        var keys := Keys(Model());
        allPublisher := Publish(allPublisher, keys, MakeUpsertEvent(kind, newItem.value.value));
        if kind == Features {
          flagsPublisher := Publish(flagsPublisher, keys, MakeFlagsUpsertEvent(newItem.value.value));
        }
        pingPublisher := Publish(pingPublisher, keys, MakePingEvent());
      }
      err := None;
    }
  }
}
