/** The decisions of the program's entry point: which argument shapes are accepted, the
    (service, action) tables of the one-shot command path and of the message-bus
    handler, the device-cache refresh and the `--list` listing. Printing, logging, the
    cache file and the message-bus client are not modelled; their inputs and outputs
    are parameters and results. */
module SwitchCli {
  import opened Common
  import opened SwitchBot
  import opened Switch

  // ---------------------------------------------------------------------------
  // Argument acceptance

  /** What the command line asks for. */
  datatype Mode =
    | OnDemand(flag: string, nick: string)
    | ListMode
    | RefreshMode
    | DaemonMode

  predicate IsActionFlag(flag: string)
  {
    flag == "--on" || flag == "--off" || flag == "--toggle" || flag == "--close" || flag == "--open"
  }

  /** The accepted shapes of `sys.argv`: an action flag with a non-empty nickname,
      `--list`, `--refresh`, or `--daemon`/`--server`; any other shape is an invalid
      option, and reading an argument that is not there is an IndexError. */
  function ParseArgs(argv: seq<string>): (r: Result<Mode, Exception>)
    ensures (r.Success? && r.value.OnDemand?) <==> |argv| >= 3 && IsActionFlag(argv[1]) && argv[2] != ""
    ensures r.Success? && r.value.OnDemand? ==> r.value == OnDemand(argv[1], argv[2])
    ensures r == Success(ListMode) <==> |argv| >= 2 && argv[1] == "--list"
    ensures r == Success(RefreshMode) <==> |argv| >= 2 && argv[1] == "--refresh"
    ensures r == Success(DaemonMode) <==> |argv| >= 2 && (argv[1] == "--daemon" || argv[1] == "--server")
    ensures r == Failure(IndexError) <==> |argv| < 2 || (IsActionFlag(argv[1]) && |argv| < 3)
    ensures r.Failure? && r.error != IndexError ==> r.error == Raised("Invalid option.")
    ensures |argv| >= 3 && IsActionFlag(argv[1]) && argv[2] == "" ==> r == Failure(Raised("Invalid option."))
  {
    if |argv| < 2 then Failure(IndexError)
    else if IsActionFlag(argv[1]) && |argv| < 3 then Failure(IndexError)
    else if IsActionFlag(argv[1]) && argv[2] != "" then Success(OnDemand(argv[1], argv[2]))
    else if argv[1] == "--list" then Success(ListMode)
    else if argv[1] == "--refresh" then Success(RefreshMode)
    else if argv[1] == "--daemon" || argv[1] == "--server" then Success(DaemonMode)
    else Failure(Raised("Invalid option."))
  }

  // ---------------------------------------------------------------------------
  // Dispatch

  /** The requests a SwitchBot handle sends, as issued commands. */
  function Posted(posts: seq<Post>): (r: seq<Effect>)
    ensures |r| == |posts| && forall i :: 0 <= i < |posts| ==> r[i] == SwitchBotPost(posts[i])
  {
    seq(|posts|, i requires 0 <= i < |posts| => SwitchBotPost(posts[i]))
  }

  /** `device.<methodName>()` on what `switchbot_find_device` returned: None has no
      methods, and a handle has only those of its class. */
  function Invoke(device: Option<Handle>, methodName: string): (r: Result<seq<Effect>, Exception>)
    ensures r.Failure? ==> r.error == AttributeError(methodName)
    ensures r.Success? <==> device.Some? && Supports(device.value, methodName)
    ensures r.Success? ==> |r.value| > 0 && forall i :: 0 <= i < |r.value| ==>
      r.value[i].SwitchBotPost? && TargetOf(r.value[i].post.url) == Some(device.value.deviceId)
    ensures r.Success? ==> r.value == Posted(Perform(device.value, methodName).value)
  {
    match device
    case None => Failure(AttributeError(methodName))
    case Some(h) =>
      var posts :- Perform(h, methodName);
      Success(Posted(posts))
  }

  /** The pairs the one-shot table acts on: Wyze plugs take on, off and toggle;
      SwitchBot devices take on, off, open and close. */
  predicate CliHandles(s: Service, flag: string)
  {
    (s == WyzeService && (flag == "--on" || flag == "--off" || flag == "--toggle")) ||
    (s == SwitchBotService && (flag == "--on" || flag == "--off" || flag == "--open" || flag == "--close"))
  }

  /** The one-shot command path as intended: pick the vendor, look the device up (even
      for a flag the table then ignores) and run the command the (service, flag) pair
      selects, with `--toggle` running the corrected `WyzeToggle`. No command is issued
      for an unowned nickname or an unhandled pair. */
  function CliDispatch(flag: string, nick: string, rw: seq<string>, rs: Option<seq<Record>>, world: World)
    : (r: Result<seq<Effect>, Exception>)
    ensures WhichService(nick, rw, rs).Failure? ==> r == Failure(TypeError)
    ensures WhichService(nick, rw, rs) == Success(None) ==> r == Success([])
    ensures r.Success? && r.value != [] ==>
      && WhichService(nick, rw, rs).Success?
      && WhichService(nick, rw, rs).value.Some?
      && CliHandles(WhichService(nick, rw, rs).value.value, flag)
    ensures WhichService(nick, rw, rs) == Success(Some(WyzeService)) && CliHandles(WyzeService, flag) ==>
      (r.Success? <==> FindWyzePlug(world.wyze, nick).Success?) && (r.Success? ==> |r.value| == 1)
    ensures WhichService(nick, rw, rs) == Success(Some(WyzeService)) && FindWyzePlug(world.wyze, nick).Failure? ==>
      r == Failure(FindWyzePlug(world.wyze, nick).error)
    ensures WhichService(nick, rw, rs) == Success(Some(WyzeService)) && FindWyzePlug(world.wyze, nick).Success? ==>
      var plug := FindWyzePlug(world.wyze, nick).value;
      && (flag == "--on" ==> r == Success([WyzeTurnOn(plug.mac, plug.model)]))
      && (flag == "--off" ==> r == Success([WyzeTurnOff(plug.mac, plug.model)]))
      && (flag == "--toggle" ==> r == Success(WyzeToggle(plug)))
    ensures WhichService(nick, rw, rs) == Success(Some(SwitchBotService)) && CliHandles(SwitchBotService, flag) ==>
      var found := FindSwitchBotDevice(world.switchBotToken, world.switchBotDevices, nick);
      r == if found.Failure? then Failure(found.error) else Invoke(found.value, flag[2..])
    ensures (WhichService(nick, rw, rs) == Success(Some(WyzeService)) && FindWyzePlug(world.wyze, nick).Success?
             && !CliHandles(WyzeService, flag))
      ==> r == Success([])
    ensures WhichService(nick, rw, rs) == Success(Some(SwitchBotService)) && !CliHandles(SwitchBotService, flag) ==>
      var found := FindSwitchBotDevice(world.switchBotToken, world.switchBotDevices, nick);
      r == if found.Failure? then Failure(found.error) else Success([])
  {
    var service :- WhichService(nick, rw, rs);
    if service == Some(WyzeService) then
      var plug :- FindWyzePlug(world.wyze, nick);
      if flag == "--on" then Success([WyzeTurnOn(plug.mac, plug.model)])
      else if flag == "--off" then Success([WyzeTurnOff(plug.mac, plug.model)])
      else if flag == "--toggle" then Success(WyzeToggle(plug))
      else Success([])
    else if service == Some(SwitchBotService) then
      var device :- FindSwitchBotDevice(world.switchBotToken, world.switchBotDevices, nick);
      if flag == "--on" then Invoke(device, "on")
      else if flag == "--off" then Invoke(device, "off")
      else if flag == "--open" then Invoke(device, "open")
      else if flag == "--close" then Invoke(device, "close")
      else Success([])
    else Success([])
  }

  /** A command reaches a device that `nick` names exactly: a Wyze plug with that
      nickname, or a SwitchBot entry with that name or id. */
  predicate ReachesNamedDevice(e: Effect, nick: string, world: World)
  {
    match e
    case SwitchBotPost(p) =>
      exists k :: 0 <= k < |Combined(world.switchBotDevices)| &&
        Matches(Combined(world.switchBotDevices)[k], nick) &&
        TargetOf(p.url) == Some(Combined(world.switchBotDevices)[k].deviceId)
    case _ =>
      exists i :: 0 <= i < |world.wyze| && world.wyze[i].nickname == nick && Addresses(e, world.wyze[i])
  }

  /** Whatever the substring-based vendor choice, every command the one-shot path
      issues goes to a device the nickname names exactly. */
  lemma CliCommandsReachNamedDevice(flag: string, nick: string, rw: seq<string>, rs: Option<seq<Record>>, world: World)
    ensures CliDispatch(flag, nick, rw, rs, world).Success? ==>
      forall i :: 0 <= i < |CliDispatch(flag, nick, rw, rs, world).value| ==>
        ReachesNamedDevice(CliDispatch(flag, nick, rw, rs, world).value[i], nick, world)
  {
    if CliDispatch(flag, nick, rw, rs, world).Failure? {
      return;
    }
    var effects := CliDispatch(flag, nick, rw, rs, world).value;
    var service := WhichService(nick, rw, rs).value;
    if service == Some(WyzeService) {
      var plug := FindWyzePlug(world.wyze, nick).value;
      var i :| 0 <= i < |world.wyze| && world.wyze[i] == plug;
      forall e | e in effects
        ensures ReachesNamedDevice(e, nick, world)
      {
        assert Addresses(e, world.wyze[i]);
      }
    } else if service == Some(SwitchBotService) {
      var response := world.switchBotDevices;
      var entries := Combined(response);
      var device := FindSwitchBotDevice(world.switchBotToken, response, nick).value;
      if effects != [] {
        assert device.Some?;
        var client := Client(world.switchBotToken, response);
        var k := FirstIndex(entries, MatchesQuery(nick)).value;
        assert Get(client, Some(nick)) == Classify(world.switchBotToken, entries[k]);
        forall e | e in effects
          ensures ReachesNamedDevice(e, nick, world)
        {
          assert Matches(entries[k], nick);
        }
      }
    }
  }

  /** The one-shot command path as written: the same table, except that `--toggle` on a
      plug the exact lookup finds calls `wyze_toggle` as written, which raises NameError. */
  function CliDispatchAsWritten(flag: string, nick: string, rw: seq<string>, rs: Option<seq<Record>>, world: World)
    : (r: Result<seq<Effect>, Exception>)
    ensures flag != "--toggle" ==> r == CliDispatch(flag, nick, rw, rs, world)
    ensures (flag == "--toggle" && WhichService(nick, rw, rs) == Success(Some(WyzeService))
             && FindWyzePlug(world.wyze, nick).Success?) ==>
      r == WyzeToggleAsWritten(FindWyzePlug(world.wyze, nick).value) && r.Failure? && r.error.NameError?
    ensures !(flag == "--toggle" && WhichService(nick, rw, rs) == Success(Some(WyzeService))
              && FindWyzePlug(world.wyze, nick).Success?)
      ==> r == CliDispatch(flag, nick, rw, rs, world)
  {
    var service :- WhichService(nick, rw, rs);
    if service == Some(WyzeService) && flag == "--toggle" then
      var plug :- FindWyzePlug(world.wyze, nick);
      WyzeToggleAsWritten(plug)
    else CliDispatch(flag, nick, rw, rs, world)
  }

  /** A payload from the message bus: the decoded JSON object's "name" and "command"
      keys, each possibly absent. */
  datatype Payload = Payload(name: Option<string>, command: Option<string>)

  function ReadKey(v: Option<string>, key: string): (r: Result<string, Exception>)
    ensures r.Success? <==> v.Some?
    ensures r.Failure? ==> r.error == KeyError(key)
    ensures r.Success? ==> r.value == v.value
  {
    if v.None? then Failure(KeyError(key)) else Success(v.value)
  }

  /** The message handler as written: it calls `which_service` with the name alone, one
      argument where three are required, so every message ends in an exception before
      any device is looked up. */
  function DaemonDispatchAsWritten(p: Payload): (r: Result<seq<Effect>, Exception>)
    ensures r.Failure?
    ensures r.error == if p.name.None? then KeyError("name") else TypeError
  {
    var name :- ReadKey(p.name, "name");
    Failure(TypeError)
  }

  /** The message handler as intended: `which_service` consulted with the device lists
      the process holds, then the same table as the one-shot path keyed by the bare
      command words. The "command" key is read only once a vendor and a device have
      been found. */
  function DaemonDispatch(p: Payload, rw: seq<string>, rs: Option<seq<Record>>, world: World)
    : (r: Result<seq<Effect>, Exception>)
    ensures p.name.None? ==> r == Failure(KeyError("name"))
    ensures p.name.Some? && WhichService(p.name.value, rw, rs) == Success(None) ==> r == Success([])
    ensures (p.name.Some? && p.command.None? && WhichService(p.name.value, rw, rs) == Success(Some(WyzeService))
             && FindWyzePlug(world.wyze, p.name.value).Success?) ==> r == Failure(KeyError("command"))
    ensures (p.name.Some? && p.command.None? && WhichService(p.name.value, rw, rs) == Success(Some(SwitchBotService))
             && FindSwitchBotDevice(world.switchBotToken, world.switchBotDevices, p.name.value).Success?)
      ==> r == Failure(KeyError("command"))
    ensures p.name.Some? && WhichService(p.name.value, rw, rs).Failure? ==> r == Failure(TypeError)
    ensures (p.name.Some? && WhichService(p.name.value, rw, rs) == Success(Some(WyzeService))
             && FindWyzePlug(world.wyze, p.name.value).Failure?)
      ==> r == Failure(FindWyzePlug(world.wyze, p.name.value).error)
    ensures (p.name.Some? && WhichService(p.name.value, rw, rs) == Success(Some(SwitchBotService))
             && FindSwitchBotDevice(world.switchBotToken, world.switchBotDevices, p.name.value).Failure?)
      ==> r == Failure(FindSwitchBotDevice(world.switchBotToken, world.switchBotDevices, p.name.value).error)
  {
    var name :- ReadKey(p.name, "name");
    var service :- WhichService(name, rw, rs);
    if service == Some(WyzeService) then
      var plug :- FindWyzePlug(world.wyze, name);
      var command :- ReadKey(p.command, "command");
      if command == "on" then Success([WyzeTurnOn(plug.mac, plug.model)])
      else if command == "off" then Success([WyzeTurnOff(plug.mac, plug.model)])
      else if command == "toggle" then Success(WyzeToggle(plug))
      else Success([])
    else if service == Some(SwitchBotService) then
      var device :- FindSwitchBotDevice(world.switchBotToken, world.switchBotDevices, name);
      var command :- ReadKey(p.command, "command");
      if command == "on" then Invoke(device, "on")
      else if command == "off" then Invoke(device, "off")
      else if command == "open" then Invoke(device, "open")
      else if command == "close" then Invoke(device, "close")
      else Success([])
    else Success([])
  }

  lemma FlagOfWord(w: string, v: string)
    ensures "--" + w == "--" + v <==> w == v
  {
    if "--" + w == "--" + v {
      assert w == ("--" + w)[2..] == ("--" + v)[2..] == v;
    }
  }

  /** The two copies of the table agree: the message `{"name": nick, "command": w}`
      does exactly what the command line `--w nick` does, for every word `w`. */
  lemma {:induction false} CliAndDaemonTablesAgree(w: string, nick: string, rw: seq<string>, rs: Option<seq<Record>>, world: World)
    ensures CliDispatch("--" + w, nick, rw, rs, world) == DaemonDispatch(Payload(Some(nick), Some(w)), rw, rs, world)
  {
    assert "--on" == "--" + "on" && "--off" == "--" + "off" && "--toggle" == "--" + "toggle";
    assert "--open" == "--" + "open" && "--close" == "--" + "close";
    FlagOfWord(w, "on");
    FlagOfWord(w, "off");
    FlagOfWord(w, "toggle");
    FlagOfWord(w, "open");
    FlagOfWord(w, "close");
  }

  // ---------------------------------------------------------------------------
  // Cache refresh and listing

  /** The two-key document the cache holds: the Wyze nicknames and the SwitchBot
      listing (None when that listing was empty). */
  datatype Snapshot = Snapshot(wyze: seq<string>, switchbot: Option<seq<Record>>)

  /** `refresh_devices`: list both vendors and assemble the snapshot written to the
      cache. A SwitchBot login or listing failure aborts the refresh. */
  method RefreshDevices(world: World) returns (r: Result<Snapshot, Exception>)
    ensures r.Success? <==> world.switchBotToken != "" && DeviceRecords(world.switchBotDevices).Success?
    ensures r.Failure? ==> r.error.Raised? || r.error.KeyError?
    ensures r.Success? ==> |r.value.wyze| == |world.wyze|
    ensures r.Success? ==> forall i :: 0 <= i < |world.wyze| ==> r.value.wyze[i] == world.wyze[i].nickname
    ensures r.Success? ==>
      (r.value.switchbot ==
        if DeviceRecords(world.switchBotDevices).value == [] then None
        else Some(DeviceRecords(world.switchBotDevices).value))
  {
    var rw := ListWyzeNicknames(world.wyze);
    var client := Connect(world.switchBotToken, world.switchBotDevices);
    if client.Failure? {
      return Failure(client.error);
    }
    var server := GetDevices(client.value.response);
    if server.Failure? {
      return Failure(server.error);
    }
    var rs := ListSwitchBotDevices(server.value);
    return Success(Snapshot(rw, rs));
  }

  /** `--list` as written. The uncached branch (`cache` None) is reached only when the
      start-up refresh reported failure, since a successful refresh loads the cache it
      wrote; that branch fetches into `rw`/`rs` but reads `wyze_devices`, which only the
      cached branch assigns, and so raises NameError. With a cache it shows the cached
      lists, and a None SwitchBot listing cannot be iterated. */
  function ListDevicesAsWritten(cache: Option<Snapshot>): (r: Result<Snapshot, Exception>)
    ensures cache.None? ==> r == Failure(NameError("wyze_devices"))
    ensures cache.Some? ==> (r.Success? <==> cache.value.switchbot.Some?)
    ensures r.Success? ==> cache == Some(r.value)
  {
    match cache
    case None => Failure(NameError("wyze_devices"))
    case Some(s) => if s.switchbot.None? then Failure(TypeError) else Success(s)
  }

  /** `--list` as intended: the cached lists when there is a cache, otherwise the lists
      just fetched from both vendors. */
  function ListDevices(cache: Option<Snapshot>, live: Snapshot): (r: Result<Snapshot, Exception>)
    ensures r.Failure? ==> r.error == TypeError
    ensures cache.Some? ==> r == ListDevicesAsWritten(cache)
    ensures cache.None? ==> (r.Success? <==> live.switchbot.Some?) && (r.Success? ==> r.value == live)
  {
    var shown := if cache.Some? then cache.value else live;
    if shown.switchbot.None? then Failure(TypeError) else Success(shown)
  }

  // ---------------------------------------------------------------------------
  // Worked cases

  /** Vendor choice is by substring while device lookup is exact: "Lamp" is claimed by
      the Wyze plug "Office Lamp", whose exact lookup then fails, although a SwitchBot
      device is named exactly "Lamp". */
  lemma SubstringChoiceShadowsExactSwitchBotName()
    ensures
      var rw := ["Office Lamp"];
      var rs := Some([Record("Lamp", "ID1", "Plug")]);
      var world := World([WyzePlug("Office Lamp", "MAC1", "WLPP1", false)], "token",
        DeviceLists([Entry("Lamp", "ID1", Some("Plug"), None)], []));
      && WhichService("Lamp", rw, rs) == Success(Some(WyzeService))
      && CliDispatchAsWritten("--on", "Lamp", rw, rs, world) == Failure(Raised("Named device not found on Wyze account."))
  {
  }

  /** `--toggle "Office Lamp"` for a Wyze plug that is on: the command line as written
      raises NameError on `turn_off`; as intended it turns that one plug off. */
  lemma ToggleCommandCase()
    ensures
      var world := World([WyzePlug("Office Lamp", "MAC1", "WLPP1", true)], "token", DeviceLists([], []));
      && CliDispatchAsWritten("--toggle", "Office Lamp", ["Office Lamp"], Some([]), world)
           == Failure(NameError("turn_off"))
      && CliDispatch("--toggle", "Office Lamp", ["Office Lamp"], Some([]), world)
           == Success([WyzeTurnOff("MAC1", "WLPP1")])
  {
  }

  /** The message `{"name": "Office Lamp", "command": "on"}` for a Wyze plug: the handler
      as written raises TypeError; as intended it turns that one plug on. */
  lemma DaemonOnMessageCase()
    ensures
      var plug := WyzePlug("Office Lamp", "MAC1", "WLPP1", false);
      var world := World([plug], "token", DeviceLists([], []));
      var p := Payload(Some("Office Lamp"), Some("on"));
      && DaemonDispatchAsWritten(p) == Failure(TypeError)
      && DaemonDispatch(p, ["Office Lamp"], None, world) == Success([WyzeTurnOn("MAC1", "WLPP1")])
  {
  }
}
