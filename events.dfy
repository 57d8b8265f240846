/** The events the relay store publishes: their shapes, their constructors, the
    paths they carry, their fixed tags and the structure of their data. */
module Events {
  import opened Sdk

  // ---------------------------------------------------------------- paths

  /** The name of a data kind in paths of the all channel. A kind missing from
      the table reads as "", the zero value of a Go map read. */
  function ApiName(kind: DataKind): (name: string)
    ensures name == "flags" <==> kind == Features
    ensures name == "segments" <==> kind == Segments
    ensures name == "" <==> kind.Other?
    ensures '/' !in name
  {
    match kind
    case Features => "flags"
    case Segments => "segments"
    case Other(_) => ""
  }

  /** The path of an item on the all channel: "/<kind name>/<key>". */
  function AllPath(kind: DataKind, key: string): string
  {
    "/" + ApiName(kind) + "/" + key
  }

  /** The path of a flag on the flags channel: "/<key>". */
  function FlagsPath(key: string): string
  {
    "/" + key
  }

  /** The first position of `c` in `s`, if any. */
  function IndexOf(s: string, c: char): (r: Option<nat>)
    ensures r.Some? ==> r.value < |s| && s[r.value] == c && c !in s[..r.value]
    ensures r.None? ==> c !in s
  {
    if |s| == 0 then None
    else if s[0] == c then Some(0)
    else match IndexOf(s[1..], c)
      case None => None
      case Some(i) => Some(i + 1)
  }

  /** Reads a path of the all channel back into the kind name and the key: the
      name runs from the first slash to the second, the key is the rest. */
  function SplitAllPath(path: string): Option<(string, string)>
  {
    if |path| == 0 || path[0] != '/' then None
    else
      var rest := path[1..];
      match IndexOf(rest, '/')
      case None => None
      case Some(i) => Some((rest[..i], rest[i + 1..]))
  }

  /** Reads a path of the flags channel back into the key. */
  function SplitFlagsPath(path: string): Option<string>
  {
    if |path| == 0 || path[0] != '/' then None else Some(path[1..])
  }

  /** An all-channel path determines the kind's name and the key, whatever the
      key holds, because no kind name contains a slash. */
  lemma {:induction false} AllPathRoundTrip(kind: DataKind, key: string)
    ensures SplitAllPath(AllPath(kind, key)) == Some((ApiName(kind), key))
  {
    var name := ApiName(kind);
    var path := AllPath(kind, key);
    var rest := path[1..];
    assert rest == name + "/" + key;
    assert rest[|name|] == '/';
    match IndexOf(rest, '/')
    case None =>
      assert false;
    case Some(i) =>
      if i != |name| {
        assert false;
      }
      assert rest[..i] == name;
      assert rest[i + 1..] == key;
  }

  /** A flags-channel path determines the key. */
  lemma FlagsPathRoundTrip(key: string)
    ensures SplitFlagsPath(FlagsPath(key)) == Some(key)
  {
  }

  // --------------------------------------------------------------- events

  /** One published event. AllPut is the put of the all channel, whose data
      map holds the flags and the segments; FlagsPut is the flat put of the
      flags channel, None standing for a nil map; Patch is an upsert. */
  datatype Event =
    | AllPut(data: map<string, ItemMap>)
    | FlagsPut(flags: Option<ItemMap>)
    | Patch(path: string, item: Item)
    | Delete(path: string, version: int)
    | Ping

  /** The upsert event of the all channel. */
  function MakeUpsertEvent(kind: DataKind, item: Item): (e: Event)
    ensures e.Patch? && e.item == item
    ensures SplitAllPath(e.path) == Some((ApiName(kind), item.key))
  {
    AllPathRoundTrip(kind, item.key);
    Patch(AllPath(kind, item.key), item)
  }

  /** The upsert event of the flags channel. */
  function MakeFlagsUpsertEvent(item: Item): (e: Event)
    ensures e.Patch? && e.item == item
    ensures SplitFlagsPath(e.path) == Some(item.key)
  {
    Patch(FlagsPath(item.key), item)
  }

  /** The delete event of the all channel. */
  function MakeDeleteEvent(kind: DataKind, key: string, version: int): (e: Event)
    ensures e.Delete? && e.version == version
    ensures SplitAllPath(e.path) == Some((ApiName(kind), key))
  {
    AllPathRoundTrip(kind, key);
    Delete(AllPath(kind, key), version)
  }

  /** The delete event of the flags channel. */
  function MakeFlagsDeleteEvent(key: string, version: int): (e: Event)
    ensures e.Delete? && e.version == version
    ensures SplitFlagsPath(e.path) == Some(key)
  {
    Delete(FlagsPath(key), version)
  }

  /** The put event of the all channel, as a value: exactly the keys "flags"
      and "segments", each holding what its map holds (nothing for nil). */
  function PutEventOf(flags: Option<ItemMap>, segments: Option<ItemMap>): (e: Event)
    ensures e.AllPut? && e.data.Keys == {"flags", "segments"}
    ensures e.data["flags"] == Contents(flags) && e.data["segments"] == Contents(segments)
  {
    AllPut(map["flags" := Contents(flags), "segments" := Contents(segments)])
  }

  /** Builds the put event of the all channel by copying both maps, entry by
      entry, into a fresh map that starts with both keys empty. */
  method MakePutEvent(flags: Option<ItemMap>, segments: Option<ItemMap>) returns (e: Event)
    ensures e == PutEventOf(flags, segments)
  {
    var copiedFlags: ItemMap := map[];
    var copiedSegments: ItemMap := map[];
    if flags.Some? {
      var todo := flags.value.Keys;
      while todo != {}
        invariant todo <= flags.value.Keys
        invariant copiedFlags.Keys == flags.value.Keys - todo
        invariant forall key :: key in copiedFlags ==> copiedFlags[key] == flags.value[key]
        decreases todo
      {
        var key :| key in todo;
        copiedFlags := copiedFlags[key := flags.value[key]];
        todo := todo - {key};
      }
    }
    if segments.Some? {
      var todo := segments.value.Keys;
      while todo != {}
        invariant todo <= segments.value.Keys
        invariant copiedSegments.Keys == segments.value.Keys - todo
        invariant forall key :: key in copiedSegments ==> copiedSegments[key] == segments.value[key]
        decreases todo
      {
        var key :| key in todo;
        copiedSegments := copiedSegments[key := segments.value[key]];
        todo := todo - {key};
      }
    }
    assert copiedFlags == Contents(flags);
    assert copiedSegments == Contents(segments);
    e := AllPut(map["flags" := copiedFlags, "segments" := copiedSegments]);
  }

  /** The put event of the flags channel: the flag map itself, nil included. */
  function MakeFlagsPutEvent(flags: Option<ItemMap>): (e: Event)
    ensures EventName(e) == "put" && e.FlagsPut? && e.flags == flags
  {
    FlagsPut(flags)
  }

  /** The ping event. */
  function MakePingEvent(): (e: Event)
    ensures EventName(e) == "ping" && Data(e) == Text(" ")
  {
    Ping
  }

  // ----------------------------------------------------------------- tags

  /** The event type each event carries on the wire. */
  function EventName(e: Event): string
  {
    match e
    case AllPut(_) => "put"
    case FlagsPut(_) => "put"
    case Patch(_, _) => "patch"
    case Delete(_, _) => "delete"
    case Ping => "ping"
  }

  /** No event carries an id. */
  function Id(e: Event): string
  {
    ""
  }

  /** No event carries a comment. */
  function Comment(e: Event): string
  {
    ""
  }

  /** The fixed tags: puts are "put", upserts "patch", deletes "delete", pings
      "ping", and id and comment are empty for every event. */
  lemma EventTags(e: Event)
    ensures Id(e) == "" && Comment(e) == ""
    ensures EventName(e) == "put" <==> e.AllPut? || e.FlagsPut?
    ensures EventName(e) == "patch" <==> e.Patch?
    ensures EventName(e) == "delete" <==> e.Delete?
    ensures EventName(e) == "ping" <==> e.Ping?
  {
  }

  // ----------------------------------------------------------------- data

  /** The structure an event's data encodes to; an item is a leaf whose own
      encoding belongs to the SDK. */
  datatype Json =
    | JNull
    | JNumber(number: int)
    | JString(text: string)
    | JObject(members: map<string, Json>)
    | JItem(item: Item)

  /** The data line of an event: structured JSON, or plain text for a ping. */
  datatype Payload = Encoded(json: Json) | Text(text: string)

  /** An item map as a JSON object (nil would be JNull). */
  function ItemsJson(items: ItemMap): Json
  {
    JObject(map key | key in items :: JItem(items[key]))
  }

  /** The data of each event, following the field tags of the event types:
      the all-channel put under "data", the flags put as a flat object,
      "path" with "data" for an upsert, "path" with "version" for a delete. A
      ping carries a single space so that its data line is not dropped. */
  function Data(e: Event): (p: Payload)
    ensures p.Text? <==> e.Ping?
    ensures p.Text? ==> |p.text| > 0
  {
    match e
    case AllPut(d) => Encoded(JObject(map["data" := JObject(map name | name in d :: ItemsJson(d[name]))]))
    case FlagsPut(None) => Encoded(JNull)
    case FlagsPut(Some(flags)) => Encoded(ItemsJson(flags))
    case Patch(path, item) => Encoded(JObject(map["path" := JString(path), "data" := JItem(item)]))
    case Delete(path, version) => Encoded(JObject(map["path" := JString(path), "version" := JNumber(version)]))
    case Ping => Text(" ")
  }

  /** Reads a JSON object of items back into an item map. */
  function DecodeItems(j: Json): Option<ItemMap>
  {
    if j.JObject? && forall key :: key in j.members ==> j.members[key].JItem?
    then Some(map key | key in j.members :: j.members[key].item)
    else None
  }

  /** Reads the data of an all-channel put back into its by-name maps. */
  function DecodeAllData(j: Json): Option<map<string, ItemMap>>
  {
    if j.JObject? && forall name :: name in j.members ==> DecodeItems(j.members[name]).Some?
    then Some(map name | name in j.members :: DecodeItems(j.members[name]).value)
    else None
  }

  /** What a subscriber reads back from an event type and its data. */
  function DecodeEvent(name: string, p: Payload): Option<Event>
  {
    if name == "ping" then
      if p == Text(" ") then Some(Ping) else None
    else if !p.Encoded? then None
    else
      var j := p.json;
      if name == "put" then
        if j == JNull then Some(FlagsPut(None))
        else if j.JObject? && j.members.Keys == {"data"} && DecodeAllData(j.members["data"]).Some? then
          Some(AllPut(DecodeAllData(j.members["data"]).value))
        else if DecodeItems(j).Some? then Some(FlagsPut(DecodeItems(j)))
        else None
      else if name == "patch" then
        if j.JObject? && j.members.Keys == {"path", "data"} && j.members["path"].JString? && j.members["data"].JItem?
        then Some(Patch(j.members["path"].text, j.members["data"].item))
        else None
      else if name == "delete" then
        if j.JObject? && j.members.Keys == {"path", "version"} && j.members["path"].JString? && j.members["version"].JNumber?
        then Some(Delete(j.members["path"].text, j.members["version"].number))
        else None
      else None
  }

  lemma {:induction false} ItemsRoundTrip(items: ItemMap)
    ensures DecodeItems(ItemsJson(items)) == Some(items)
  {
    var j := ItemsJson(items);
    assert forall key :: key in j.members ==> j.members[key].JItem?;
    var back := map key | key in j.members :: j.members[key].item;
    assert back.Keys == items.Keys;
    assert back == items;
  }

  /** An event's type and data determine the event: the encoding loses
      nothing and no two events look alike to a subscriber. */
  lemma {:induction false} DecodeRoundTrip(e: Event)
    ensures DecodeEvent(EventName(e), Data(e)) == Some(e)
  {
    match e
    case AllPut(d) =>
      var inner := JObject(map name | name in d :: ItemsJson(d[name]));
      forall name | name in inner.members
        ensures DecodeItems(inner.members[name]) == Some(d[name])
      {
        ItemsRoundTrip(d[name]);
      }
      var back := DecodeAllData(inner).value;
      assert back.Keys == d.Keys;
      assert back == d;
      assert Data(e).json.members["data"] == inner;
    case FlagsPut(None) =>
    case FlagsPut(Some(flags)) =>
      ItemsRoundTrip(flags);
    case Patch(path, item) =>
    case Delete(path, version) =>
    case Ping =>
  }
}
