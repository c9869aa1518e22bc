/** The SwitchBot client: the cached device-list response, its flattening into
    `{name, id, type}` records, the lookup that turns a name or id into a device handle,
    and the command bodies each handle POSTs. Network calls are replaced by the
    sequence of requests they would send. */
module SwitchBot {
  import opened Common

  const BaseUrl := "https://api.switch-bot.com"

  /** One entry of `deviceList` or `infraredRemoteList` in the device-list response.
      Physical devices carry `deviceType`, infrared remotes carry `remoteType`; either key
      may be absent, and the code reacts to that absence. */
  datatype Entry = Entry(
    deviceName: string,
    deviceId: string,
    deviceType: Option<string>,
    remoteType: Option<string>)

  /** The `body` of the response to GET /v1.0/devices. */
  datatype DeviceLists = DeviceLists(deviceList: seq<Entry>, infraredRemoteList: seq<Entry>)

  /** A `{name, id, type}` record as listed by `get_devices`. */
  datatype Record = Record(name: string, id: string, typeName: string)

  /** A `Switchbot` object: its authorization header value and the response fetched once
      when it was created. Neither is updated afterwards. */
  datatype Client = Client(authorization: string, response: DeviceLists)

  /** Creating a client: refused for an empty token, otherwise built around the given
      device-list response (the GET itself is not modelled). */
  function Connect(token: string, response: DeviceLists): (r: Result<Client, Exception>)
    ensures r.Success? <==> token != ""
    ensures r.Success? ==> r.value.authorization == token && r.value.response == response
    ensures r.Failure? ==> r.error.Raised?
  {
    if token == "" then
      Failure(Raised("Cannot create Object of class Switchbot without authorization token."))
    else
      Success(Client(token, response))
  }

  /** Physical devices followed by infrared remotes, as `get` scans them. */
  function Combined(l: DeviceLists): seq<Entry>
  {
    l.deviceList + l.infraredRemoteList
  }

  predicate AllHaveDeviceType(entries: seq<Entry>)
  {
    forall i :: 0 <= i < |entries| ==> entries[i].deviceType.Some?
  }

  predicate AllHaveRemoteType(entries: seq<Entry>)
  {
    forall i :: 0 <= i < |entries| ==> entries[i].remoteType.Some?
  }

  /** The records `get_devices` lists for a response, or the KeyError it raises. */
  function DeviceRecords(l: DeviceLists): Result<seq<Record>, Exception>
  {
    if !AllHaveDeviceType(l.deviceList) then Failure(KeyError("deviceType"))
    else if !AllHaveRemoteType(l.infraredRemoteList) then Failure(KeyError("remoteType"))
    else Success(
      seq(|l.deviceList|, i requires 0 <= i < |l.deviceList| =>
        Record(l.deviceList[i].deviceName, l.deviceList[i].deviceId, l.deviceList[i].deviceType.value))
      + seq(|l.infraredRemoteList|, j requires 0 <= j < |l.infraredRemoteList| =>
        Record(l.infraredRemoteList[j].deviceName, l.infraredRemoteList[j].deviceId,
               l.infraredRemoteList[j].remoteType.value)))
  }

  /** `Switchbot.get_devices`: one record per physical device, then one per infrared
      remote, each group in response order; the type comes from `deviceType` for
      physical devices and from `remoteType` for remotes. */
  method GetDevices(l: DeviceLists) returns (r: Result<seq<Record>, Exception>)
    ensures r == DeviceRecords(l)
    ensures r.Success? <==> AllHaveDeviceType(l.deviceList) && AllHaveRemoteType(l.infraredRemoteList)
    ensures r.Success? ==> |r.value| == |l.deviceList| + |l.infraredRemoteList|
    ensures r.Success? ==> forall i :: 0 <= i < |l.deviceList| ==>
      r.value[i] == Record(l.deviceList[i].deviceName, l.deviceList[i].deviceId, l.deviceList[i].deviceType.value)
    ensures r.Success? ==> forall j :: 0 <= j < |l.infraredRemoteList| ==>
      r.value[|l.deviceList| + j] == Record(l.infraredRemoteList[j].deviceName,
        l.infraredRemoteList[j].deviceId, l.infraredRemoteList[j].remoteType.value)
  {
    var devices, remotes := l.deviceList, l.infraredRemoteList;
    var list: seq<Record> := [];
    for i := 0 to |devices|
      invariant |list| == i
      invariant forall k :: 0 <= k < i ==>
        devices[k].deviceType.Some? &&
        list[k] == Record(devices[k].deviceName, devices[k].deviceId, devices[k].deviceType.value)
    {
      var device := devices[i];
      if device.deviceType.None? {
        assert !AllHaveDeviceType(devices);
        return Failure(KeyError("deviceType"));
      }
      list := list + [Record(device.deviceName, device.deviceId, device.deviceType.value)];
    }
    for j := 0 to |remotes|
      invariant AllHaveDeviceType(devices)
      invariant |list| == |devices| + j
      invariant forall k :: 0 <= k < |devices| ==>
        list[k] == Record(devices[k].deviceName, devices[k].deviceId, devices[k].deviceType.value)
      invariant forall k :: 0 <= k < j ==>
        remotes[k].remoteType.Some? &&
        list[|devices| + k] == Record(remotes[k].deviceName, remotes[k].deviceId, remotes[k].remoteType.value)
    {
      var remote := remotes[j];
      if remote.remoteType.None? {
        assert !AllHaveRemoteType(remotes);
        return Failure(KeyError("remoteType"));
      }
      list := list + [Record(remote.deviceName, remote.deviceId, remote.remoteType.value)];
    }
    assert AllHaveDeviceType(devices) && AllHaveRemoteType(remotes);
    var expected := DeviceRecords(l).value;
    forall k | 0 <= k < |list|
      ensures list[k] == expected[k]
    {
      if k >= |devices| {
        assert list[|devices| + (k - |devices|)] == expected[|devices| + (k - |devices|)];
      }
    }
    assert list == expected;
    r := Success(list);
  }

  /** Each listed record names and identifies the entry at the same position of the
      combined list that `get` scans. */
  lemma RecordsFollowEntries(l: DeviceLists, k: nat)
    requires DeviceRecords(l).Success? && k < |Combined(l)|
    ensures |DeviceRecords(l).value| == |Combined(l)|
    ensures DeviceRecords(l).value[k].name == Combined(l)[k].deviceName
    ensures DeviceRecords(l).value[k].id == Combined(l)[k].deviceId
  {
  }

  // ---------------------------------------------------------------------------
  // Handles and classification

  /** The device classes `get` can return. */
  datatype Handle =
    | Hub(authorization: string, deviceId: string, deviceName: string, deviceType: string)
    | Curtain(authorization: string, deviceId: string, deviceName: string, deviceType: string)
    | IRRemote(authorization: string, deviceId: string, deviceName: string, remoteType: string)

  datatype Kind = HubKind | CurtainKind | RemoteKind | Unsupported

  function KindOfHandle(h: Handle): Kind
  {
    match h
    case Hub(_, _, _, _) => HubKind
    case Curtain(_, _, _, _) => CurtainKind
    case IRRemote(_, _, _, _) => RemoteKind
  }

  /** The type string `get` classifies: `deviceType`, or `remoteType` when that key is
      absent (None when both are absent). */
  function TypeKey(e: Entry): Option<string>
  {
    if e.deviceType.Some? then e.deviceType else e.remoteType
  }

  /** The classification order of `get`: any type mentioning "Hub" is a hub, otherwise
      any mentioning "Curtain" is a curtain, otherwise exactly "TV" or "DIY Projector"
      is an infrared remote, and everything else is unsupported. */
  function KindOf(t: string): (k: Kind)
    ensures k == HubKind <==> IsSubstring("Hub", t)
    ensures k == CurtainKind <==> !IsSubstring("Hub", t) && IsSubstring("Curtain", t)
    ensures k == RemoteKind <==>
      !IsSubstring("Hub", t) && !IsSubstring("Curtain", t) && (t == "TV" || t == "DIY Projector")
  {
    if Contains(t, "Hub") then HubKind
    else if Contains(t, "Curtain") then CurtainKind
    else if t == "TV" || t == "DIY Projector" then RemoteKind
    else Unsupported
  }

  /** The handle `get` builds for a matching entry: None for an unsupported type, and a
      KeyError when the class constructor reads a key the entry lacks (`deviceType` for
      Hub and Curtain, `remoteType` for IRRemote) or when the entry has no type at all. */
  function Classify(authorization: string, e: Entry): (r: Result<Option<Handle>, Exception>)
    ensures TypeKey(e).None? ==> r == Failure(KeyError("remoteType"))
    ensures TypeKey(e).Some? ==>
      (r == Success(None) <==> KindOf(TypeKey(e).value) == Unsupported)
    ensures TypeKey(e).Some? ==>
      (r.Failure? <==>
        (KindOf(TypeKey(e).value) in {HubKind, CurtainKind} && e.deviceType.None?) ||
        (KindOf(TypeKey(e).value) == RemoteKind && e.remoteType.None?))
    ensures r.Failure? ==> r.error.KeyError?
    ensures r.Success? && r.value.Some? ==>
      && TypeKey(e).Some?
      && KindOfHandle(r.value.value) == KindOf(TypeKey(e).value)
      && r.value.value.authorization == authorization
      && r.value.value.deviceId == e.deviceId
      && r.value.value.deviceName == e.deviceName
  {
    match TypeKey(e)
    case None => Failure(KeyError("remoteType"))
    case Some(t) =>
      match KindOf(t)
      case HubKind =>
        if e.deviceType.None? then Failure(KeyError("deviceType"))
        else Success(Some(Hub(authorization, e.deviceId, e.deviceName, e.deviceType.value)))
      case CurtainKind =>
        if e.deviceType.None? then Failure(KeyError("deviceType"))
        else Success(Some(Curtain(authorization, e.deviceId, e.deviceName, e.deviceType.value)))
      case RemoteKind =>
        if e.remoteType.None? then Failure(KeyError("remoteType"))
        else Success(Some(IRRemote(authorization, e.deviceId, e.deviceName, e.remoteType.value)))
      case Unsupported => Success(None)
  }

  /** An entry is reached by a query equal to its name or to its id. */
  predicate Matches(e: Entry, query: string)
  {
    e.deviceName == query || e.deviceId == query
  }

  function MatchesQuery(query: string): Entry -> bool
  {
    e => Matches(e, query)
  }

  /** `Switchbot.get`: an empty or absent query gives None without scanning; otherwise
      the first entry of the combined list matching by name or id alone decides the
      result, and no match gives None. */
  function Get(c: Client, query: Option<string>): (r: Result<Option<Handle>, Exception>)
    ensures query.None? || query == Some("") ==> r == Success(None)
    ensures query.Some? && query.value != "" &&
      (forall k :: 0 <= k < |Combined(c.response)| ==> !Matches(Combined(c.response)[k], query.value))
      ==> r == Success(None)
    ensures forall i ::
      (query.Some? && query.value != "" && 0 <= i < |Combined(c.response)| &&
       Matches(Combined(c.response)[i], query.value) &&
       (forall j :: 0 <= j < i ==> !Matches(Combined(c.response)[j], query.value)))
      ==> r == Classify(c.authorization, Combined(c.response)[i])
  {
    if query.None? || query.value == "" then Success(None)
    else
      var entries := Combined(c.response);
      match FirstIndex(entries, MatchesQuery(query.value))
      case None => Success(None)
      case Some(i) => Classify(c.authorization, entries[i])
  }

  /** Only the first matching entry is consulted: two responses that agree up to a
      matching entry give the same result, whatever follows it, even when that first
      match classifies to None and a later one would classify to a handle. */
  lemma LaterEntriesIgnored(c: Client, d: Client, query: string, i: nat)
    requires c.authorization == d.authorization && query != ""
    requires i < |Combined(c.response)| && i < |Combined(d.response)|
    requires Combined(c.response)[..i + 1] == Combined(d.response)[..i + 1]
    requires Matches(Combined(c.response)[i], query)
    ensures Get(c, Some(query)) == Get(d, Some(query))
  {
    var s, t := Combined(c.response), Combined(d.response);
    FirstIndexOfSharedPrefix(s, t, MatchesQuery(query), i);
    var k := FirstIndex(s, MatchesQuery(query)).value;
    assert s[k] == t[k] by {
      assert s[k] == s[..i + 1][k] && t[k] == t[..i + 1][k];
    }
  }

  // ---------------------------------------------------------------------------
  // Commands

  /** The JSON body of a command POST. */
  datatype CommandBody = CommandBody(command: string, commandType: Option<string>)

  /** One POST: the URL, the Authorization header value and the JSON body. */
  datatype Post = Post(url: string, authorization: string, body: CommandBody)

  const TurnOn := CommandBody("turnOn", None)
  const TurnOff := CommandBody("turnOff", None)
  /** The customised infrared "Power" button, a single toggle signal. */
  const Power := CommandBody("Power", Some("customize"))

  const CommandsPrefix := BaseUrl + "/v1.0/devices/"
  const CommandsSuffix := "/commands"

  /** The commands endpoint of a device. */
  function CommandsUrl(deviceId: string): string
  {
    CommandsPrefix + deviceId + CommandsSuffix
  }

  /** The device a commands URL addresses, when it is one. */
  function TargetOf(url: string): Option<string>
  {
    if |url| >= |CommandsPrefix| + |CommandsSuffix|
       && url[..|CommandsPrefix|] == CommandsPrefix
       && url[|url| - |CommandsSuffix|..] == CommandsSuffix
    then Some(url[|CommandsPrefix|..|url| - |CommandsSuffix|])
    else None
  }

  /** Every commands URL names its device back. */
  lemma TargetOfCommandsUrl(deviceId: string)
    ensures TargetOf(CommandsUrl(deviceId)) == Some(deviceId)
  {
  }

  /** A command to the device behind `h`, with `h`'s authorization. */
  function Send(h: Handle, body: CommandBody): (p: Post)
    ensures TargetOf(p.url) == Some(h.deviceId) && p.authorization == h.authorization
  {
    TargetOfCommandsUrl(h.deviceId);
    Post(CommandsUrl(h.deviceId), h.authorization, body)
  }

  /** Every request goes to the commands endpoint of `h` with `h`'s authorization. */
  predicate SentTo(posts: seq<Post>, h: Handle)
  {
    forall i :: 0 <= i < |posts| ==>
      TargetOf(posts[i].url) == Some(h.deviceId) && posts[i].authorization == h.authorization
  }

  /** `Curtain.open`: one turnOn command to the curtain. */
  function Open(h: Handle): (r: seq<Post>)
    requires h.Curtain?
    ensures |r| == 1 && r[0].body == TurnOn && SentTo(r, h)
  {
    [Send(h, TurnOn)]
  }

  /** `Curtain.close`: one turnOff command to the curtain. */
  function Close(h: Handle): (r: seq<Post>)
    requires h.Curtain?
    ensures |r| == 1 && r[0].body == TurnOff && SentTo(r, h)
  {
    [Send(h, TurnOff)]
  }

  /** `IRRemote.on`: a remote whose name mentions "Projector" gets the Power button,
      any other remote one turnOn. The remote type plays no part. */
  function RemoteOn(h: Handle): (r: seq<Post>)
    requires h.IRRemote?
    ensures |r| == 1 && SentTo(r, h)
    ensures r[0].body == if IsSubstring("Projector", h.deviceName) then Power else TurnOn
  {
    if Contains(h.deviceName, "Projector") then [Send(h, Power)] else [Send(h, TurnOn)]
  }

  /** `IRRemote.off`: a "Projector" remote is switched off by pressing Power twice (the
      same request `on` sends, repeated; the pause between them is not modelled), any
      other remote by one turnOff. */
  function RemoteOff(h: Handle): (r: seq<Post>)
    requires h.IRRemote?
    ensures SentTo(r, h)
    ensures IsSubstring("Projector", h.deviceName) ==> r == RemoteOn(h) + RemoteOn(h)
    ensures !IsSubstring("Projector", h.deviceName) ==> |r| == 1 && r[0].body == TurnOff
  {
    if Contains(h.deviceName, "Projector") then [Send(h, Power), Send(h, Power)]
    else [Send(h, TurnOff)]
  }

  /** The command methods each class defines: open/close for a curtain, on/off for an
      infrared remote, none for a hub. */
  predicate Supports(h: Handle, methodName: string)
  {
    (h.Curtain? && (methodName == "open" || methodName == "close")) ||
    (h.IRRemote? && (methodName == "on" || methodName == "off"))
  }

  /** Calling the command method `methodName` on a handle: the requests it sends, or the
      AttributeError Python raises when the class has no such method. */
  function Perform(h: Handle, methodName: string): (r: Result<seq<Post>, Exception>)
    ensures r.Success? <==> Supports(h, methodName)
    ensures r.Failure? ==> r.error == AttributeError(methodName)
    ensures r.Success? ==> |r.value| > 0 && SentTo(r.value, h)
    ensures h.Curtain? && methodName == "open" ==> r == Success(Open(h))
    ensures h.Curtain? && methodName == "close" ==> r == Success(Close(h))
    ensures h.IRRemote? && methodName == "on" ==> r == Success(RemoteOn(h))
    ensures h.IRRemote? && methodName == "off" ==> r == Success(RemoteOff(h))
  {
    match h
    case Hub(_, _, _, _) => Failure(AttributeError(methodName))
    case Curtain(_, _, _, _) =>
      if methodName == "open" then Success(Open(h))
      else if methodName == "close" then Success(Close(h))
      else Failure(AttributeError(methodName))
    case IRRemote(_, _, _, _) =>
      if methodName == "on" then Success(RemoteOn(h))
      else if methodName == "off" then Success(RemoteOff(h))
      else Failure(AttributeError(methodName))
  }
}
