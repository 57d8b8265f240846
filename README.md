# Relay feature store, modelled in Dafny

This project models the SSE relay feature store of the ld-relay service. The
store wraps the versioned feature store of one environment, keyed by that
environment's API key. After every write that succeeds, it fans the change
out as server-sent events on three publishers:

- **all** carries flags and segments, with paths `/<kind name>/<key>`;
- **flags** carries flags only, with paths `/<key>`;
- **ping** carries a bare `ping` per change.

Each publisher also has a bootstrap repository that replays a snapshot (a
ping for the ping channel) to a newly connected subscriber.

Files:

- `sdk.dfy` (module `Sdk`): data kinds, versioned items, and the wrapped store.
  The store is an outside collaborator. It is modelled by the items it holds,
  its initialized flag, and the outcomes it can report:
  - a write is `Applied`, `Ignored` (kept its state without an error, such as a stale version) or `Failed`;
  - a read can fail with an error;
  - a delete is kept as a tombstone, which reads hide: `Get` of a deleted key gives nil and `All` leaves it out, as the SDK's stores do.

  A Go map that may be nil is an `Option<ItemMap>`. This holds for the
  per-kind entries of the data given to `Init` as well.
- `events.dfy` (module `Events`): the `dataKindApiName` table, the event
  types, their constructors and fixed tags, and the JSON structure of their
  data. It also has a decoder, used as a reference: it proves that an event's
  type and data determine the event.
- `relay.dfy` (module `Relay`): the relay store as a state machine over values.
  - It covers construction, `Init`, `Upsert`, `Delete`, the heartbeat and the three `Replay`s.
  - The lemmas state what each call publishes on which channel.
  - `RunFollows` proves that under any sequence of calls, the flags channel carries exactly the flag part of the all channel (a nil flag map read as empty), and the ping channel gets one ping per all-channel event.
- `relay_store.dfy` (module `RelayStore`): class `RelayFeatureStore`.
  - It holds the wrapped store and the three publishers and updates them in place.
  - Each method is proved to match the corresponding step in `Relay`.

Behaviours of the code worth noting:

- `Delete` publishes the version it was given, without re-reading the store.
  When the store ignores a stale delete, the event still goes out with that
  version (`Relay.IgnoredDeleteIsStillPublished`). So the published version
  equals the store's version only when the store applied the delete
  (`Relay.AppliedDeleteVersionMatchesStore`).
- `Init` hands `allData[Features]` to the flags-channel put unchanged. When
  the data has no flags entry, or a nil one, that is a nil map (JSON `null`).
  The all-channel put and the flags replay give an empty map in that case
  (`Relay.ReplayFlagsAfterInit`).
- `Init` publishes the data as given, tombstones included, while a replay
  reads the store and so leaves them out. The replay after `Init` equals
  the published put only when the data holds no tombstones
  (`Relay.ReplayAllAfterInit`).
- A data kind missing from the `dataKindApiName` table gets the empty name
  (Go's zero value). Its all-channel path is then `//<key>`.

## Model

| member | source | states |
|---|---|---|
| `Events.ApiName` | internal/store/relay_feature_store.go:208-211 | flags are named "flags", segments "segments", any other kind ""; no name contains a slash |
| `Events.AllPathRoundTrip` | internal/store/relay_feature_store.go:317-336 | an all-channel path `/<kind name>/<key>` splits back into exactly that kind name and key, whatever the key holds |
| `Events.FlagsPathRoundTrip` | internal/store/relay_feature_store.go:324-343 | a flags-channel path `/<key>` gives back the key |
| `Events.MakeUpsertEvent` | internal/store/relay_feature_store.go:317-322 | a patch carrying the item, whose path splits into the kind's name and the item's key |
| `Events.MakeFlagsUpsertEvent` | internal/store/relay_feature_store.go:324-329 | a patch carrying the item, whose path is the item's key after one slash |
| `Events.MakeDeleteEvent` | internal/store/relay_feature_store.go:331-336 | a delete carrying the given version, whose path splits into the kind's name and the key |
| `Events.MakeFlagsDeleteEvent` | internal/store/relay_feature_store.go:338-343 | a delete carrying the given version, whose path is the key after one slash |
| `Events.PutEventOf` | internal/store/relay_feature_store.go:345-357 | the all-channel put has exactly the keys "flags" and "segments", each holding its input map, or an empty map for nil |
| `Events.MakePutEvent` | internal/store/relay_feature_store.go:345-357 | copying both maps entry by entry into a fresh map that starts with both keys empty yields exactly that put |
| `Events.MakeFlagsPutEvent` | internal/store/relay_feature_store.go:359-361 | the flags-channel put is a "put" carrying the flag map as it is, nil included |
| `Events.MakePingEvent` | internal/store/relay_feature_store.go:363-365 | the ping event is a "ping" whose data is a single space |
| `Events.EventTags` | internal/store/relay_feature_store.go:229-315 | puts are "put", upserts "patch", deletes "delete", pings "ping"; Id and Comment are "" for every event |
| `Events.Data` | internal/store/relay_feature_store.go:213-311 | only a ping has plain-text data, and that text is non-empty; every other event has JSON data |
| `Events.DecodeRoundTrip` | internal/store/relay_feature_store.go:213-311 | decoding an event's type and data gives back that event, so no two events look alike to a subscriber |
| `Relay.Keys` | internal/store/relay_feature_store.go:70-72 | every publish is addressed to the single channel named by the API key |
| `Relay.New` | internal/store/relay_feature_store.go:42-56 | construction wraps the store and registers the all, flags and ping repositories under the API key, sending nothing |
| `Relay.FailedWritesPublishNothing` | internal/store/relay_feature_store.go:91-131 | when the wrapped Init, Upsert or Delete fails, its error is returned, the state is unchanged and no channel gets anything |
| `Relay.InitPublishesOnePerChannel` | internal/store/relay_feature_store.go:91-104 | a successful Init initializes the store with the data, then sends exactly one event per channel: all gets a put of the flags and segments, flags gets a put of the flags, ping gets a ping |
| `Relay.DeletePublishes` | internal/store/relay_feature_store.go:107-122 | a Delete that did not fail sends a delete with the given version on all, at `/<kind name>/<key>`, and on flags only for flags, at `/<key>`, plus one ping |
| `Relay.AppliedDeleteVersionMatchesStore` | internal/store/relay_feature_store.go:107-122 | when the store applied the delete, the published version is the version of the tombstone it now holds, and a Get of the key gives nil |
| `Relay.IgnoredDeleteIsStillPublished` | internal/store/relay_feature_store.go:107-122 | when the store ignored the delete, the event is published anyway with the given version, and the store is unchanged |
| `Relay.UpsertPublishesStoredItem` | internal/store/relay_feature_store.go:125-149 | after a write that did not fail and a read-back that succeeded, the published item is what the store now holds under the key (not the argument); nothing is sent when the store holds nothing there; flags get it only for flags |
| `Relay.AppliedUpsertPublishesItem` | internal/store/relay_feature_store.go:125-149 | an upsert the store applied publishes the item passed in; when that item is a tombstone, the read-back gives nil and nothing is sent |
| `Relay.IgnoredUpsertRepublishesStoredItem` | internal/store/relay_feature_store.go:133-146 | an upsert the store ignored republishes what the store already held under the key, or nothing when it held nothing |
| `Relay.UpsertRereadFailurePublishesNothing` | internal/store/relay_feature_store.go:133-137 | a failed read-back returns the read error, keeps the write and sends nothing |
| `Relay.NonFlagKindsSkipFlagsChannel` | internal/store/relay_feature_store.go:107-149 | upserts and deletes of any kind other than flags leave the flags channel untouched |
| `Relay.ReplayFlags` | internal/store/relay_feature_store.go:156-172 | the flags repository replays one put of the stored flags exactly when the store is initialized and the read succeeds, and nothing otherwise |
| `Relay.ReplayAll` | internal/store/relay_feature_store.go:174-196 | the all repository replays one put of the stored flags and segments exactly when the store is initialized and both reads succeed, and nothing otherwise |
| `Relay.ReplayPing` | internal/store/relay_feature_store.go:198-206 | the ping repository always replays exactly one ping |
| `Relay.Replay` | internal/store/relay_feature_store.go:156-206 | the ping repository always replays a ping; the flags and all repositories replay a put exactly when the store is initialized and their reads succeed, and that put holds the store's live flags (and, for all, its live segments) |
| `Relay.ReplayAllAfterInit` | internal/store/relay_feature_store.go:99-196 | after a successful Init, the all repository replays the live flags and segments of the data, which is exactly the put Init sent on the all channel if and only if the data held no tombstones |
| `Relay.ReplayFlagsAfterInit` | internal/store/relay_feature_store.go:100-172 | after a successful Init, the flags repository replays the live flags of the data, which is exactly the put Init sent on the flags channel if and only if the data held a non-nil flag map without tombstones |
| `Relay.FlagsReplayIsViewOfAllReplay` | internal/store/relay_feature_store.go:157-196 | whenever the all repository replays a put, the flags repository replays its flag part |
| `Relay.BootstrapScenario` | internal/store/relay_feature_store.go:157-206 | before the first Init only the ping repository replays anything; after an Init with one flag and no segments, the flags and all repositories replay exactly that data, without the flag when it is a tombstone |
| `Relay.ProjectAppend` | internal/store/relay_feature_store.go:91-149 | the per-message view of a log is compositional over appends |
| `Relay.FollowsTransitive` | internal/store/relay_feature_store.go:91-149 | channel consistency between states composes over successive calls |
| `Relay.HeartbeatFollows` | internal/store/relay_feature_store.go:74-78 | a heartbeat sends the same empty comment on all three channels, keeping them consistent |
| `Relay.InitFollows` | internal/store/relay_feature_store.go:91-104 | after Init, whether it succeeds or fails, the flags channel has received the flag view of what the all channel received (nil read as empty), and the ping channel one ping per event |
| `Relay.DeleteFollows` | internal/store/relay_feature_store.go:107-122 | the same consistency holds for Delete |
| `Relay.UpsertFollows` | internal/store/relay_feature_store.go:125-149 | the same consistency holds for Upsert, in all of its outcomes |
| `Relay.RunFollows` | internal/store/relay_feature_store.go:74-149 | over any sequence of Init, Upsert, Delete and heartbeat calls: registrations stay, the store stays initialized once initialized, the logs only grow, everything goes to the API key, the flags channel carries exactly the flag part of the all channel (a nil flag map read as empty), and the ping channel carries one ping per all-channel event |
| `RelayStore.RelayFeatureStore.constructor` | internal/store/relay_feature_store.go:42-56 | the new object is the state `Relay.New` describes: the store wrapped, the three repositories registered |
| `RelayStore.RelayFeatureStore.Heartbeat` | internal/store/relay_feature_store.go:74-78 | appends one empty comment to each publisher's log and changes nothing else |
| `RelayStore.RelayFeatureStore.Get` | internal/store/relay_feature_store.go:81-83 | passes the wrapped store's read through: its error unchanged, or the item stored under the key, or nil when there is none or it is deleted |
| `RelayStore.RelayFeatureStore.All` | internal/store/relay_feature_store.go:86-88 | passes the wrapped store's read of a whole kind through: its error unchanged, or every live item of the kind |
| `RelayStore.RelayFeatureStore.Initialized` | internal/store/relay_feature_store.go:152-154 | is the wrapped store's initialized flag |
| `RelayStore.RelayFeatureStore.Init` | internal/store/relay_feature_store.go:91-104 | the new state and the returned error are those of `Relay.InitStep` |
| `RelayStore.RelayFeatureStore.Delete` | internal/store/relay_feature_store.go:107-122 | the new state and the returned error are those of `Relay.DeleteStep` |
| `RelayStore.RelayFeatureStore.Upsert` | internal/store/relay_feature_store.go:125-149 | the new state and the returned error are those of `Relay.UpsertStep` |

## Left out

- The heartbeat goroutine and its ticker (lines 57-65) are timing and concurrency. Each tick is one call to `Heartbeat`. The model does not capture that the first tick fires at once or that ticks come at a fixed interval.
- The goroutines and Go channels inside the three `Replay` methods are left out. Each replay is a function that returns zero or one event. Running replays concurrently with live publishing is not modelled.
- `json.Marshal` in the `Data` methods is a library call. Its discarded encode error is left out as well. Data is modelled as a JSON tree, not as text, and an item's own encoding is an opaque leaf.
- Logging through `loggers` and `logging.GlobalLoggers` is I/O with no effect on state, so it is left out.
- The wrapped feature store's internals, including version conflict resolution, are an outside collaborator. They are reduced to the outcomes a write or a read can report. These outcomes are inputs to each operation. A failed write is assumed to leave the store as it was; the "state is unchanged" half of `Relay.FailedWritesPublishNothing` rests on that assumption, while its "publishes nothing" half does not.
- The eventsource library is not modelled. A publisher is reduced to its registrations and the log of what it was asked to send. The source shares one publisher among the stores of several environments; here each store holds the publisher as a value, so interleaving with other environments' messages is not modelled.
- A registered repository holds a pointer to the relay store. Here it is a tag (`Relay.Repository`), and replay reads the relay state it is given.
- `Sdk.Store.Get`/`All`: that reads hide tombstones is taken from the SDK's own stores, whose code is not part of this model. A wrapped store that returned tombstones would make the relay republish deletions as patches.
- Atomicity of write-then-publish with respect to concurrent readers is not modelled. The model is sequential.
