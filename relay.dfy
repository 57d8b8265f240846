/** The relay feature store as a state machine over values: the wrapped store,
    the key it publishes under, and the three publishers (all, flags, ping),
    each seen as the repositories registered with it and the log of what it
    was asked to send. Every mutation writes to the wrapped store first and
    publishes only once the write succeeded. */
module Relay {
  import opened Sdk
  import opened Events

  // ----------------------------------------------------------- publishers

  /** The bootstrap repository registered for one channel. */
  datatype Repository = AllRepository | FlagsRepository | PingRepository

  /** What one publish call sends: an event, or a bare comment line. */
  datatype Body = Published(event: Event) | CommentLine(text: string)

  /** One publish call: the channel keys it goes to and what it sends. */
  datatype Message = Message(channels: seq<string>, body: Body)

  /** A publisher: the repository registered under each channel key, and the
      messages it was asked to send, oldest first. */
  datatype Publisher = Publisher(repositories: map<string, Repository>, sent: seq<Message>)

  function Publish(p: Publisher, channels: seq<string>, e: Event): Publisher
  {
    p.(sent := p.sent + [Message(channels, Published(e))])
  }

  function PublishComment(p: Publisher, channels: seq<string>, text: string): Publisher
  {
    p.(sent := p.sent + [Message(channels, CommentLine(text))])
  }

  function Register(p: Publisher, channel: string, repository: Repository): Publisher
  {
    p.(repositories := p.repositories[channel := repository])
  }

  // ---------------------------------------------------------------- state

  datatype State = State(apiKey: string, store: Store, all: Publisher, flags: Publisher, ping: Publisher)

  /** The state after a mutation and the error it returns, None for nil. */
  datatype Step = Step(next: State, err: Option<Error>)

  /** Every publish goes to the one channel named by the API key. */
  function Keys(s: State): (keys: seq<string>)
    ensures |keys| == 1 && keys[0] == s.apiKey
  {
    [s.apiKey]
  }

  /** Construction: wraps `base` and registers each channel's repository
      under the API key with that channel's publisher. */
  function New(apiKey: string, all: Publisher, flags: Publisher, ping: Publisher, base: Store): (s: State)
    ensures s.apiKey == apiKey && s.store == base
    ensures s.all.repositories == all.repositories[apiKey := AllRepository]
    ensures s.flags.repositories == flags.repositories[apiKey := FlagsRepository]
    ensures s.ping.repositories == ping.repositories[apiKey := PingRepository]
    ensures s.all.sent == all.sent && s.flags.sent == flags.sent && s.ping.sent == ping.sent
  {
    State(apiKey, base,
      Register(all, apiKey, AllRepository),
      Register(flags, apiKey, FlagsRepository),
      Register(ping, apiKey, PingRepository))
  }

  /** One heartbeat: an empty comment on each of the three channels. */
  function HeartbeatStep(s: State): State
  {
    s.(all := PublishComment(s.all, Keys(s), ""),
       flags := PublishComment(s.flags, Keys(s), ""),
       ping := PublishComment(s.ping, Keys(s), ""))
  }

  /** Init: replaces the wrapped store's contents; on success puts the flags
      and segments on the all channel, the flags alone on the flags channel,
      and a ping on the ping channel. */
  function InitStep(s: State, allData: map<DataKind, Option<ItemMap>>, fault: Option<Error>): Step
  {
    match fault
    case Some(e) => Step(s, Some(e))
    case None =>
      var keys := Keys(s);
      Step(s.(store := s.store.Init(allData),
              all := Publish(s.all, keys, PutEventOf(Lookup(allData, Features), Lookup(allData, Segments))),
              flags := Publish(s.flags, keys, MakeFlagsPutEvent(Lookup(allData, Features))),
              ping := Publish(s.ping, keys, MakePingEvent())),
           None)
  }

  /** Delete: tombstones the key in the wrapped store; on success publishes
      the deletion on the all channel, on the flags channel for flags only,
      and a ping. */
  function DeleteStep(s: State, kind: DataKind, key: string, version: int, write: Write): Step
  {
    match write
    case Failed(e) => Step(s, Some(e))
    case _ =>
      var keys := Keys(s);
      Step(s.(store := s.store.Delete(kind, key, version, write),
              all := Publish(s.all, keys, MakeDeleteEvent(kind, key, version)),
              flags := if kind == Features then Publish(s.flags, keys, MakeFlagsDeleteEvent(key, version)) else s.flags,
              ping := Publish(s.ping, keys, MakePingEvent())),
           None)
  }

  /** Upsert: writes the item to the wrapped store, then reads back what the
      store holds under its key and publishes that (on the all channel, on the
      flags channel for flags only, and a ping). A failed read returns its
      error and publishes nothing; an empty read publishes nothing. */
  function UpsertStep(s: State, kind: DataKind, item: Item, write: Write, reread: Option<Error>): Step
  {
    match write
    case Failed(e) => Step(s, Some(e))
    case _ =>
      var written := s.(store := s.store.Upsert(kind, item, write));
      match written.store.Read(kind, item.key, reread)
      case Failure(e) => Step(written, Some(e))
      case Success(None) => Step(written, None)
      case Success(Some(newItem)) =>
        var keys := Keys(s);
        Step(written.(all := Publish(written.all, keys, MakeUpsertEvent(kind, newItem)),
                      flags := if kind == Features then Publish(written.flags, keys, MakeFlagsUpsertEvent(newItem)) else written.flags,
                      ping := Publish(written.ping, keys, MakePingEvent())),
             None)
  }

  // --------------------------------------------------------------- replay

  /** The bootstrap event of the flags channel: nothing before the first
      Init, nothing when the read of the flags fails, else a put of them. */
  function ReplayFlags(s: State, fault: Option<Error>): (r: Option<Event>)
    ensures r.Some? <==> s.store.initialized && fault.None?
    ensures r.Some? ==> EventName(r.value) == "put" && r.value == FlagsPut(Some(s.store.All(Features)))
  {
    if !s.store.initialized then None
    else match s.store.ReadAll(Features, fault)
      case Failure(_) => None
      case Success(flags) => Some(MakeFlagsPutEvent(Some(flags)))
  }

  /** The bootstrap event of the all channel: nothing before the first Init,
      nothing when the read of the flags or of the segments fails, else a put
      of both. */
  function ReplayAll(s: State, flagsFault: Option<Error>, segmentsFault: Option<Error>): (r: Option<Event>)
    ensures r.Some? <==> s.store.initialized && flagsFault.None? && segmentsFault.None?
    ensures r.Some? ==> EventName(r.value) == "put"
    ensures r.Some? ==> r.value == AllPut(map["flags" := s.store.All(Features), "segments" := s.store.All(Segments)])
  {
    if !s.store.initialized then None
    else match s.store.ReadAll(Features, flagsFault)
      case Failure(_) => None
      case Success(flags) =>
        match s.store.ReadAll(Segments, segmentsFault)
        case Failure(_) => None
        case Success(segments) => Some(PutEventOf(Some(flags), Some(segments)))
  }

  /** The bootstrap event of the ping channel: always one ping. */
  function ReplayPing(s: State): (r: Option<Event>)
    ensures r.Some? && EventName(r.value) == "ping"
  {
    Some(MakePingEvent())
  }

  /** What the repository registered for a channel replays to a subscriber. */
  function Replay(repository: Repository, s: State, flagsFault: Option<Error>, segmentsFault: Option<Error>): (r: Option<Event>)
    ensures repository == PingRepository ==> r == Some(Ping)
    ensures repository != PingRepository ==> (r.Some? ==> EventName(r.value) == "put")
    ensures repository != PingRepository ==>
      (r.Some? <==> s.store.initialized && flagsFault.None? && (repository == AllRepository ==> segmentsFault.None?))
    ensures repository == FlagsRepository && r.Some? ==> r.value == FlagsPut(Some(s.store.All(Features)))
    ensures repository == AllRepository && r.Some? ==>
      r.value == AllPut(map["flags" := s.store.All(Features), "segments" := s.store.All(Segments)])
  {
    match repository
    case AllRepository => ReplayAll(s, flagsFault, segmentsFault)
    case FlagsRepository => ReplayFlags(s, flagsFault)
    case PingRepository => ReplayPing(s)
  }

  // ------------------------------------------- what each call publishes

  /** A write the wrapped store rejects is returned as is, changes nothing and
      publishes nothing on any channel. */
  lemma FailedWritesPublishNothing(s: State, allData: map<DataKind, Option<ItemMap>>, kind: DataKind, item: Item,
                                   key: string, version: int, reread: Option<Error>, e: Error)
    ensures InitStep(s, allData, Some(e)) == Step(s, Some(e))
    ensures UpsertStep(s, kind, item, Failed(e), reread) == Step(s, Some(e))
    ensures DeleteStep(s, kind, key, version, Failed(e)) == Step(s, Some(e))
  {
  }

  /** A successful Init sends exactly one event on each channel: all gets a put
      of the given flags and segments (nothing for an absent kind), flags gets
      a put of the given flags as they are (nil when absent), ping a ping. */
  lemma InitPublishesOnePerChannel(s: State, allData: map<DataKind, Option<ItemMap>>)
    ensures var st := InitStep(s, allData, None);
      && st.err.None?
      && st.next.store.initialized
      && (forall kind :: st.next.store.Held(kind) == Contents(Lookup(allData, kind)))
      && st.next.all.sent == s.all.sent + [Message(Keys(s), Published(AllPut(
           map["flags" := Contents(Lookup(allData, Features)), "segments" := Contents(Lookup(allData, Segments))])))]
      && st.next.flags.sent == s.flags.sent + [Message(Keys(s), Published(FlagsPut(Lookup(allData, Features))))]
      && st.next.ping.sent == s.ping.sent + [Message(Keys(s), Published(Ping))]
  {
  }

  /** A Delete the store did not reject is published whatever the store did
      with it: on all under "/<kind name>/<key>", on flags under "/<key>" for
      flags only, with the version passed in; and a ping. */
  lemma DeletePublishes(s: State, kind: DataKind, key: string, version: int, write: Write)
    requires !write.Failed?
    ensures var st := DeleteStep(s, kind, key, version, write);
      && st.err.None?
      && st.next.all.sent == s.all.sent + [Message(Keys(s), Published(Delete("/" + ApiName(kind) + "/" + key, version)))]
      && st.next.flags.sent == s.flags.sent + (if kind == Features then [Message(Keys(s), Published(Delete("/" + key, version)))] else [])
      && st.next.ping.sent == s.ping.sent + [Message(Keys(s), Published(Ping))]
  {
  }

  /** When the store applies a Delete, the published version is the version
      of the tombstone it now holds, and a Get of the key gives nil. */
  lemma AppliedDeleteVersionMatchesStore(s: State, kind: DataKind, key: string, version: int)
    ensures var t := DeleteStep(s, kind, key, version, Applied).next;
      && kind in t.store.items && key in t.store.items[kind]
      && t.store.items[kind][key].deleted
      && t.all.sent[|t.all.sent| - 1].body.event.version == t.store.items[kind][key].version
      && t.store.Get(kind, key) == None
  {
  }

  /** When the store ignores a Delete (a stale version), it is published all
      the same, with the version passed in, while the store keeps what it had. */
  lemma IgnoredDeleteIsStillPublished(s: State, kind: DataKind, key: string, version: int)
    ensures var t := DeleteStep(s, kind, key, version, Ignored).next;
      && t.store == s.store
      && |t.all.sent| == |s.all.sent| + 1
      && t.all.sent[|s.all.sent|].body == Published(MakeDeleteEvent(kind, key, version))
  {
  }

  /** After an Upsert the store did not reject, with the read-back succeeding,
      what is published is what the store now holds under the item's key (what
      a Get returns from then on), not the item passed in; nothing at all when
      the store holds nothing there. */
  lemma UpsertPublishesStoredItem(s: State, kind: DataKind, item: Item, write: Write)
    requires !write.Failed?
    ensures var st := UpsertStep(s, kind, item, write, None);
      && st.err.None?
      && match st.next.store.Get(kind, item.key)
         case None =>
           st.next.all == s.all && st.next.flags == s.flags && st.next.ping == s.ping
         case Some(stored) =>
           && st.next.all.sent == s.all.sent + [Message(Keys(s), Published(Patch("/" + ApiName(kind) + "/" + stored.key, stored)))]
           && st.next.flags.sent == s.flags.sent + (if kind == Features then [Message(Keys(s), Published(Patch("/" + stored.key, stored)))] else [])
           && st.next.ping.sent == s.ping.sent + [Message(Keys(s), Published(Ping))]
  {
  }

  /** An Upsert the store applied publishes the item passed in; when that
      item is itself a tombstone, the read-back gives nil and nothing is sent. */
  lemma AppliedUpsertPublishesItem(s: State, kind: DataKind, item: Item)
    ensures var t := UpsertStep(s, kind, item, Applied, None).next;
      && (!item.deleted ==>
            |t.all.sent| == |s.all.sent| + 1 && t.all.sent[|s.all.sent|].body == Published(MakeUpsertEvent(kind, item)))
      && (item.deleted ==> t.all == s.all && t.flags == s.flags && t.ping == s.ping)
  {
  }

  /** An Upsert the store ignored republishes what the store already held
      under that key, which may differ from the item passed in, and publishes
      nothing when it held nothing there. */
  lemma IgnoredUpsertRepublishesStoredItem(s: State, kind: DataKind, item: Item)
    ensures var t := UpsertStep(s, kind, item, Ignored, None).next;
      && t.store == s.store
      && match s.store.Get(kind, item.key)
         case None => t == s
         case Some(held) =>
           |t.all.sent| == |s.all.sent| + 1 && t.all.sent[|s.all.sent|].body == Published(MakeUpsertEvent(kind, held))
  {
  }

  /** A failed read-back after a successful write returns the read error and
      publishes nothing; the write stays. */
  lemma UpsertRereadFailurePublishesNothing(s: State, kind: DataKind, item: Item, write: Write, e: Error)
    requires !write.Failed?
    ensures var st := UpsertStep(s, kind, item, write, Some(e));
      && st.err == Some(e)
      && st.next.store == s.store.Upsert(kind, item, write)
      && st.next.all == s.all && st.next.flags == s.flags && st.next.ping == s.ping
  {
  }

  /** Upserts and deletes of any kind but flags leave the flags channel alone. */
  lemma NonFlagKindsSkipFlagsChannel(s: State, kind: DataKind, item: Item, key: string, version: int,
                                     write: Write, reread: Option<Error>)
    requires kind != Features
    ensures UpsertStep(s, kind, item, write, reread).next.flags == s.flags
    ensures DeleteStep(s, kind, key, version, write).next.flags == s.flags
  {
  }

  /** A subscriber of the all channel who connects after a successful Init
      is replayed the live flags and segments of the data; that is the very
      put Init published there exactly when the data held no tombstones. */
  lemma ReplayAllAfterInit(s: State, allData: map<DataKind, Option<ItemMap>>)
    ensures var t := InitStep(s, allData, None).next;
      ReplayAll(t, None, None) == Some(AllPut(map["flags" := Live(Contents(Lookup(allData, Features))),
                                                   "segments" := Live(Contents(Lookup(allData, Segments)))]))
    ensures var t := InitStep(s, allData, None).next;
      ReplayAll(t, None, None) == Some(t.all.sent[|t.all.sent| - 1].body.event)
      <==> Live(Contents(Lookup(allData, Features))) == Contents(Lookup(allData, Features))
           && Live(Contents(Lookup(allData, Segments))) == Contents(Lookup(allData, Segments))
  {
  }

  /** A subscriber of the flags channel who connects after a successful Init
      is replayed the live flags of the data. That is the put Init published
      there exactly when the data held a non-nil flag map without tombstones;
      for a nil or absent entry Init sent a nil map and the replay an empty one. */
  lemma ReplayFlagsAfterInit(s: State, allData: map<DataKind, Option<ItemMap>>)
    ensures var t := InitStep(s, allData, None).next;
      ReplayFlags(t, None) == Some(FlagsPut(Some(Live(Contents(Lookup(allData, Features))))))
    ensures var t := InitStep(s, allData, None).next;
      ReplayFlags(t, None) == Some(t.flags.sent[|t.flags.sent| - 1].body.event)
      <==> Lookup(allData, Features).Some? && Live(Lookup(allData, Features).value) == Lookup(allData, Features).value
  {
  }

  /** The flags replay is the flags view of the all replay. */
  lemma FlagsReplayIsViewOfAllReplay(s: State, fault: Option<Error>, segmentsFault: Option<Error>)
    requires ReplayAll(s, fault, segmentsFault).Some?
    ensures ReplayFlags(s, fault).Some?
    ensures FlagsView(Published(ReplayAll(s, fault, segmentsFault).value)) == [Published(ReplayFlags(s, fault).value)]
  {
  }

  /** Bootstrap before and after a first Init holding one flag and no
      segments: before it only the ping repository replays anything; after it
      the flags and all repositories replay exactly that data, with the flag
      left out when it is a tombstone. */
  lemma BootstrapScenario(s: State, f1: Item)
    requires !s.store.initialized
    ensures ReplayFlags(s, None) == None && ReplayAll(s, None, None) == None
    ensures ReplayPing(s) == Some(Ping)
    ensures var t := InitStep(s, map[Features := Some(map["f1" := f1]), Segments := Some(map[])], None).next;
      var live: ItemMap := if f1.deleted then map[] else map["f1" := f1];
      && ReplayFlags(t, None) == Some(FlagsPut(Some(live)))
      && ReplayAll(t, None, None) == Some(AllPut(map["flags" := live, "segments" := map[]]))
  {
    var flags: ItemMap := map["f1" := f1];
    var live: ItemMap := if f1.deleted then map[] else flags;
    assert Live(flags) == live;
    assert Live(map[]) == map[];
  }

  // ------------------------------------------------- channel consistency

  /** Applies `view` to each body of `ms`, keeping each message's channels. */
  function Project(ms: seq<Message>, view: Body -> seq<Body>): seq<Message>
  {
    if ms == [] then []
    else
      Project(ms[..|ms| - 1], view) + Expand(ms[|ms| - 1], view)
  }

  /** The messages `view` makes of one message, each on its channels. */
  function Expand(m: Message, view: Body -> seq<Body>): seq<Message>
  {
    seq(|view(m.body)|, i requires 0 <= i < |view(m.body)| => Message(m.channels, view(m.body)[i]))
  }

  lemma {:induction false} ProjectAppend(a: seq<Message>, b: seq<Message>, view: Body -> seq<Body>)
    ensures Project(a + b, view) == Project(a, view) + Project(b, view)
    decreases |b|
  {
    if b == [] {
      assert a + b == a;
    } else {
      var init := b[..|b| - 1];
      assert (a + b)[..|a + b| - 1] == a + init;
      assert (a + b)[|a + b| - 1] == b[|b| - 1];
      ProjectAppend(a, init, view);
      calc {
        Project(a + b, view);
        Project(a + init, view) + Expand(b[|b| - 1], view);
        Project(a, view) + Project(init, view) + Expand(b[|b| - 1], view);
        Project(a, view) + Project(b, view);
      }
    }
  }

  /** What the flags channel carries for one body of the all channel: flags
      and comments pass with their paths shortened to the key, everything of
      another kind is dropped. */
  function FlagsView(b: Body): seq<Body>
  {
    match b
    case CommentLine(_) => [b]
    case Published(AllPut(data)) => [Published(FlagsPut(Some(if "flags" in data then data["flags"] else map[])))]
    case Published(Patch(path, item)) =>
      var split := SplitAllPath(path);
      if split.Some? && split.value.0 == "flags" then [Published(Patch(FlagsPath(split.value.1), item))] else []
    case Published(Delete(path, version)) =>
      var split := SplitAllPath(path);
      if split.Some? && split.value.0 == "flags" then [Published(Delete(FlagsPath(split.value.1), version))] else []
    case Published(_) => []
  }

  /** What the ping channel carries for one body of the all channel. */
  function PingView(b: Body): seq<Body>
  {
    match b
    case CommentLine(_) => [b]
    case Published(_) => [Published(Ping)]
  }

  /** A flags put of a nil map reads as a put of no flags. */
  function NilAsEmpty(b: Body): seq<Body>
  {
    if b == Published(FlagsPut(None)) then [Published(FlagsPut(Some(map[])))] else [b]
  }

  /** `t` is a later state of `s`: same key, same registrations, the store
      stays initialized, every log only grew, everything added to the all
      channel went to the API key, and what the flags and ping channels got
      is exactly the flags view and the ping view of what the all channel got. */
  predicate Follows(s: State, t: State)
  {
    && t.apiKey == s.apiKey
    && (s.store.initialized ==> t.store.initialized)
    && t.all.repositories == s.all.repositories
    && t.flags.repositories == s.flags.repositories
    && t.ping.repositories == s.ping.repositories
    && s.all.sent <= t.all.sent && s.flags.sent <= t.flags.sent && s.ping.sent <= t.ping.sent
    && (forall m | m in t.all.sent[|s.all.sent|..] :: m.channels == Keys(s))
    && Project(t.flags.sent[|s.flags.sent|..], NilAsEmpty) == Project(t.all.sent[|s.all.sent|..], FlagsView)
    && t.ping.sent[|s.ping.sent|..] == Project(t.all.sent[|s.all.sent|..], PingView)
  }

  lemma FollowsReflexive(s: State)
    ensures Follows(s, s)
  {
  }

  lemma {:induction false} FollowsTransitive(s: State, t: State, u: State)
    requires Follows(s, t) && Follows(t, u)
    ensures Follows(s, u)
  {
    var a1, a2 := t.all.sent[|s.all.sent|..], u.all.sent[|t.all.sent|..];
    var f1, f2 := t.flags.sent[|s.flags.sent|..], u.flags.sent[|t.flags.sent|..];
    var p1, p2 := t.ping.sent[|s.ping.sent|..], u.ping.sent[|t.ping.sent|..];
    SuffixSplit(s.all.sent, t.all.sent, u.all.sent);
    SuffixSplit(s.flags.sent, t.flags.sent, u.flags.sent);
    SuffixSplit(s.ping.sent, t.ping.sent, u.ping.sent);
    ProjectAppend(a1, a2, FlagsView);
    ProjectAppend(a1, a2, PingView);
    ProjectAppend(f1, f2, NilAsEmpty);
    forall m: Message | m in a1 + a2
      ensures m.channels == Keys(s)
    {
      if m in a1 {
      } else {
        assert m in a2;
      }
    }
  }

  /** What a log gained over two extensions is what it gained over each. */
  lemma SuffixSplit(x: seq<Message>, y: seq<Message>, z: seq<Message>)
    requires x <= y <= z
    ensures z[|x|..] == y[|x|..] + z[|y|..]
  {
  }

  /** A heartbeat sends the same empty comment on all three channels. */
  lemma HeartbeatFollows(s: State)
    ensures Follows(s, HeartbeatStep(s))
  {
  }

  /** Init keeps the channels consistent, whether it succeeds or fails. */
  lemma InitFollows(s: State, allData: map<DataKind, Option<ItemMap>>, fault: Option<Error>)
    ensures Follows(s, InitStep(s, allData, fault).next)
  {
  }

  /** Delete keeps the channels consistent, whatever the store did. */
  lemma DeleteFollows(s: State, kind: DataKind, key: string, version: int, write: Write)
    ensures Follows(s, DeleteStep(s, kind, key, version, write).next)
  {
  }

  /** Upsert keeps the channels consistent in each of its outcomes. */
  lemma UpsertFollows(s: State, kind: DataKind, item: Item, write: Write, reread: Option<Error>)
    ensures Follows(s, UpsertStep(s, kind, item, write, reread).next)
  {
    if !write.Failed? {
      var written := s.(store := s.store.Upsert(kind, item, write));
      match written.store.Read(kind, item.key, reread)
      case Failure(_) =>
      case Success(None) =>
      case Success(Some(newItem)) => PublishItemFollows(s, written, kind, newItem);
    }
  }

  /** Publishing any item after a write that kept the store's initialized flag
      keeps the channels consistent; which item the store read back plays no
      part. */
  lemma PublishItemFollows(s: State, written: State, kind: DataKind, newItem: Item)
    requires written == s.(store := written.store)
    requires s.store.initialized ==> written.store.initialized
    ensures var keys := Keys(s);
      Follows(s, written.(all := Publish(written.all, keys, MakeUpsertEvent(kind, newItem)),
                          flags := if kind == Features then Publish(written.flags, keys, MakeFlagsUpsertEvent(newItem)) else written.flags,
                          ping := Publish(written.ping, keys, MakePingEvent())))
  {
    var keys := Keys(s);
    var e := MakeUpsertEvent(kind, newItem);
    var a := [Message(keys, Published(e))];
    var f := if kind == Features then [Message(keys, Published(MakeFlagsUpsertEvent(newItem)))] else [];
    assert (s.all.sent + a)[|s.all.sent|..] == a;
    assert (s.flags.sent + f)[|s.flags.sent|..] == f;
    assert (s.ping.sent + [Message(keys, Published(MakePingEvent()))])[|s.ping.sent|..] == [Message(keys, Published(Ping))];
    assert Project(f, NilAsEmpty) == Project(a, FlagsView);
    var t := written.(all := Publish(written.all, keys, e),
                      flags := if kind == Features then Publish(written.flags, keys, MakeFlagsUpsertEvent(newItem)) else written.flags,
                      ping := Publish(written.ping, keys, MakePingEvent()));
    assert t.all.sent == s.all.sent + a;
    assert t.flags.sent == s.flags.sent + f;
    assert t.apiKey == s.apiKey;
    assert s.all.sent <= t.all.sent && s.flags.sent <= t.flags.sent && s.ping.sent <= t.ping.sent;
    assert forall m | m in t.all.sent[|s.all.sent|..] :: m.channels == Keys(s);
    assert Project(t.flags.sent[|s.flags.sent|..], NilAsEmpty) == Project(t.all.sent[|s.all.sent|..], FlagsView);
    assert t.ping.sent[|s.ping.sent|..] == Project(t.all.sent[|s.all.sent|..], PingView);
  }

  /** One call into the relay store from the single ingestion path, or one
      heartbeat tick. */
  datatype Op =
    | InitOp(allData: map<DataKind, Option<ItemMap>>, fault: Option<Error>)
    | UpsertOp(kind: DataKind, item: Item, write: Write, reread: Option<Error>)
    | DeleteOp(kind: DataKind, key: string, version: int, write: Write)
    | HeartbeatOp

  function Apply(s: State, op: Op): State
  {
    match op
    case InitOp(allData, fault) => InitStep(s, allData, fault).next
    case UpsertOp(kind, item, write, reread) => UpsertStep(s, kind, item, write, reread).next
    case DeleteOp(kind, key, version, write) => DeleteStep(s, kind, key, version, write).next
    case HeartbeatOp => HeartbeatStep(s)
  }

  /** The state after the calls `ops`, in order. */
  function Run(s: State, ops: seq<Op>): State
    decreases |ops|
  {
    if ops == [] then s else Run(Apply(s, ops[0]), ops[1..])
  }

  lemma {:induction false} ApplyFollows(s: State, op: Op)
    ensures Follows(s, Apply(s, op))
  {
    match op
    case InitOp(allData, fault) => InitFollows(s, allData, fault);
    case UpsertOp(kind, item, write, reread) => UpsertFollows(s, kind, item, write, reread);
    case DeleteOp(kind, key, version, write) => DeleteFollows(s, kind, key, version, write);
    case HeartbeatOp => HeartbeatFollows(s);
  }

  /** However the calls go, the three channels stay consistent: the flags
      channel carries exactly the flag part of the all channel and the ping
      channel one ping per event of the all channel, comments alike. */
  lemma {:induction false} RunFollows(s: State, ops: seq<Op>)
    ensures Follows(s, Run(s, ops))
    decreases |ops|
  {
    if ops == [] {
      FollowsReflexive(s);
    } else {
      var t := Apply(s, ops[0]);
      ApplyFollows(s, ops[0]);
      RunFollows(t, ops[1..]);
      FollowsTransitive(s, t, Run(t, ops[1..]));
    }
  }
}
