/** The lookup helpers of the switcher: listing and searching each vendor's devices,
    deciding which vendor owns a nickname, and choosing the plug command for a toggle.
    The vendor SDK and HTTP calls are replaced by their inputs (the device lists) and
    by the commands they would issue. */
module Switch {
  import opened Common
  import opened SwitchBot

  /** A Wyze plug as the SDK reports it: nickname, MAC address, product model and
      whether it is currently on. */
  datatype WyzePlug = WyzePlug(nickname: string, mac: string, model: string, isOn: bool)

  /** The two vendors `which_service` can name. */
  datatype Service = WyzeService | SwitchBotService

  /** A device command the program issues. */
  datatype Effect =
    | WyzeTurnOn(mac: string, model: string)
    | WyzeTurnOff(mac: string, model: string)
    | SwitchBotPost(post: Post)

  /** What the program reaches through the network: the Wyze account's devices, the
      SwitchBot token and the SwitchBot device-list response. */
  datatype World = World(wyze: seq<WyzePlug>, switchBotToken: string, switchBotDevices: DeviceLists)

  /** `wyze_find_device` in list mode: the nicknames, in device order. */
  method ListWyzeNicknames(devices: seq<WyzePlug>) returns (names: seq<string>)
    ensures |names| == |devices|
    ensures forall i :: 0 <= i < |devices| ==> names[i] == devices[i].nickname
  {
    names := [];
    for i := 0 to |devices|
      invariant |names| == i
      invariant forall k :: 0 <= k < i ==> names[k] == devices[k].nickname
    {
      names := names + [devices[i].nickname];
    }
  }

  function NicknameIs(nick: string): WyzePlug -> bool
  {
    (d: WyzePlug) => d.nickname == nick
  }

  /** `wyze_find_device` in search mode: the first device whose nickname equals `nick`
      exactly; when none does, the "not found" exception. */
  function FindWyzePlug(devices: seq<WyzePlug>, nick: string): (r: Result<WyzePlug, Exception>)
    ensures r.Failure? <==> forall i :: 0 <= i < |devices| ==> devices[i].nickname != nick
    ensures r.Failure? ==> r.error == Raised("Named device not found on Wyze account.")
    ensures r.Success? ==> r.value.nickname == nick
    ensures r.Success? ==> exists i ::
      && 0 <= i < |devices| && devices[i] == r.value
      && forall j :: 0 <= j < i ==> devices[j].nickname != nick
  {
    match FirstIndex(devices, NicknameIs(nick))
    case None => Failure(Raised("Named device not found on Wyze account."))
    case Some(i) => Success(devices[i])
  }

  /** `switchbot_find_device` in list mode: a copy of every listed record, in order; an
      empty listing falls past the list branch and gives None, not an empty list. */
  method ListSwitchBotDevices(server: seq<Record>) returns (r: Option<seq<Record>>)
    ensures r.None? <==> server == []
    ensures r.Some? ==> r.value == server
  {
    if server == [] {
      return None;
    }
    var list: seq<Record> := [];
    for i := 0 to |server|
      invariant list == server[..i]
    {
      list := list + [Record(server[i].name, server[i].id, server[i].typeName)];
    }
    assert server[..|server|] == server;
    return Some(list);
  }

  /** Some listed record has `nick` as its exact name or id. */
  predicate Listed(server: seq<Record>, nick: string)
  {
    exists i :: 0 <= i < |server| && (nick == server[i].name || nick == server[i].id)
  }

  /** `switchbot_find_device` in search mode: log in, list the devices, and call `get`
      only when some listed record has `nick` as its exact name or id. Because the
      listing mirrors the entries `get` scans, that guard never changes the outcome:
      the result is `get(nick)` itself. */
  function FindSwitchBotDevice(token: string, response: DeviceLists, nick: string): (r: Result<Option<Handle>, Exception>)
    ensures token == "" ==> r.Failure? && r.error.Raised?
    ensures token != "" && DeviceRecords(response).Failure? ==> r == DeviceRecords(response).PropagateFailure()
    ensures token != "" && DeviceRecords(response).Success? ==> r == Get(Client(token, response), Some(nick))
  {
    var client :- Connect(token, response);
    var server :- DeviceRecords(client.response);
    var found := Listed(server, nick);
    GuardMatchesScan(response, nick);
    if found then Get(client, Some(nick)) else Success(None)
  }

  /** The exact-match guard of the search succeeds exactly when `get` finds a matching
      entry. */
  lemma GuardMatchesScan(response: DeviceLists, nick: string)
    requires DeviceRecords(response).Success?
    ensures Listed(DeviceRecords(response).value, nick) <==>
      exists k :: 0 <= k < |Combined(response)| && Matches(Combined(response)[k], nick)
  {
    var server, entries := DeviceRecords(response).value, Combined(response);
    if Listed(server, nick) {
      var i :| 0 <= i < |server| && (nick == server[i].name || nick == server[i].id);
      RecordsFollowEntries(response, i);
      assert Matches(entries[i], nick);
    }
    if exists k :: 0 <= k < |entries| && Matches(entries[k], nick) {
      var k :| 0 <= k < |entries| && Matches(entries[k], nick);
      RecordsFollowEntries(response, k);
      assert nick == server[k].name || nick == server[k].id;
    }
  }

  function ContainsNick(nick: string): string -> bool
  {
    w => Contains(w, nick)
  }

  function NameContainsNick(nick: string): Record -> bool
  {
    (rec: Record) => Contains(rec.name, nick)
  }

  /** `which_service`: Wyze when `nick` is a substring of some Wyze nickname, whatever
      the SwitchBot list holds; otherwise SwitchBot when it is a substring of some
      SwitchBot name (ids are not consulted); otherwise None. A SwitchBot listing that is
      None (an account with no devices) cannot be iterated: TypeError. */
  function WhichService(nick: string, rw: seq<string>, rs: Option<seq<Record>>): (r: Result<Option<Service>, Exception>)
    ensures r == Success(Some(WyzeService)) <==> exists i :: 0 <= i < |rw| && IsSubstring(nick, rw[i])
    ensures r == Success(Some(SwitchBotService)) <==>
      && (forall i :: 0 <= i < |rw| ==> !IsSubstring(nick, rw[i]))
      && rs.Some?
      && exists j :: 0 <= j < |rs.value| && IsSubstring(nick, rs.value[j].name)
    ensures r == Success(None) <==>
      && (forall i :: 0 <= i < |rw| ==> !IsSubstring(nick, rw[i]))
      && rs.Some?
      && (forall j :: 0 <= j < |rs.value| ==> !IsSubstring(nick, rs.value[j].name))
    ensures r.Failure? <==> (forall i :: 0 <= i < |rw| ==> !IsSubstring(nick, rw[i])) && rs.None?
    ensures r.Failure? ==> r.error == TypeError
  {
    if FirstIndex(rw, ContainsNick(nick)).Some? then Success(Some(WyzeService))
    else if rs.None? then Failure(TypeError)
    else if FirstIndex(rs.value, NameContainsNick(nick)).Some? then Success(Some(SwitchBotService))
    else Success(None)
  }

  /** The state a plug is in after a sequence of commands, starting from `isOn`. */
  function PlugStateAfter(isOn: bool, effects: seq<Effect>): bool
    decreases |effects|
  {
    if effects == [] then isOn
    else
      var next := match effects[0]
        case WyzeTurnOn(_, _) => true
        case WyzeTurnOff(_, _) => false
        case SwitchBotPost(_) => isOn;
      PlugStateAfter(next, effects[1..])
  }

  /** The command addresses `plug`. */
  predicate Addresses(e: Effect, plug: WyzePlug)
  {
    (e.WyzeTurnOn? || e.WyzeTurnOff?) && e.mac == plug.mac && e.model == plug.model
  }

  /** `wyze_toggle` as written: both branches call names that are not defined
      (`turn_off`, `turn_on`), so it raises NameError instead of switching the plug. */
  function WyzeToggleAsWritten(plug: WyzePlug): (r: Result<seq<Effect>, Exception>)
    ensures r.Failure? && r.error.NameError?
    ensures r.error.name == if plug.isOn then "turn_off" else "turn_on"
  {
    if plug.isOn then Failure(NameError("turn_off"))
    else Failure(NameError("turn_on"))
  }

  /** `wyze_toggle` as intended: turn the plug off when it reports on, on otherwise, so
      one command always flips its state. */
  function WyzeToggle(plug: WyzePlug): (r: seq<Effect>)
    ensures |r| == 1 && Addresses(r[0], plug)
    ensures PlugStateAfter(plug.isOn, r) == !plug.isOn
  {
    if plug.isOn then [WyzeTurnOff(plug.mac, plug.model)]
    else [WyzeTurnOn(plug.mac, plug.model)]
  }

  /** Toggling twice, each time from the state the previous toggle left, returns the
      plug to where it started. */
  lemma ToggleTwiceRestores(plug: WyzePlug)
    ensures
      var once := plug.(isOn := PlugStateAfter(plug.isOn, WyzeToggle(plug)));
      PlugStateAfter(once.isOn, WyzeToggle(once)) == plug.isOn
  {
  }
}
