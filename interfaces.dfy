/**
  The interface object of both modules. `variant` says which module's error
  policy it follows and `wireless` whether it is a `WirelessInterface`; the
  object controls one device of `host` through the name in `iface`.
*/
module Interfaces {
  import opened Outcomes
  import opened Text
  import opened Parse
  import opened Link
  import opened Query
  import opened Steps

  /** Each flag attribute says whether the flag list holds that flag. */
  predicate FlagsAgree(flags: seq<string>, noarp: bool, multicast: bool, allmulti: bool, promisc: bool) {
    noarp == (FlagName(Noarp) in flags)
    && multicast == (FlagName(Multicast) in flags)
    && allmulti == (FlagName(Allmulticast) in flags)
    && promisc == (FlagName(Promisc) in flags)
  }

  lemma AppendAssoc<T>(a: seq<T>, b: seq<T>, c: seq<T>)
    ensures (a + b) + c == a + (b + c)
  {
  }

  /** What `__init__` reads: the recorded attributes and the four flag attributes. */
  datatype Record = Record(snapshot: Snapshot, noarp: bool, multicast: bool, allmulti: bool, promisc: bool) {
    predicate Agrees() {
      FlagsAgree(snapshot.flags, noarp, multicast, allmulti, promisc)
    }
  }

  class Interface {
    const host: Host
    const variant: Variant
    const wireless: bool
    var iface: string
    var name: string
    var alias: Option<string>
    var hwaddr: Option<string>
    var permaddr: Option<string>
    var state: Option<string>
    var deviceFlags: seq<string>
    var noarp: bool
    var multicast: bool
    var allmulti: bool
    var promisc: bool
    var mode: Option<string>
    var channel: Option<int>
    /** What the configured logger has received. */
    var log: seq<LogEntry>

    /**
      The flag attributes recorded at creation agree with the recorded flag
      list: each says whether the list holds that flag. No operation after
      `__init__` updates the flag attributes or the flag list. (The recorded
      name is not tied to `iface`: `__name__(set_name)` renames without
      recording.)
    */
    ghost predicate Valid()
      reads this
    {
      FlagsAgree(deviceFlags, noarp, multicast, allmulti, promisc)
    }

    /** The object was created for `iface` on `host` and has logged nothing yet. */
    predicate Opened(host: Host, iface: string, variant: Variant, wireless: bool)
      reads this
    {
      this.host == host && this.iface == iface && this.variant == variant
      && this.wireless == wireless && log == []
    }

    /** The attributes `__init__` records from its queries. */
    function Recorded(): Snapshot
      reads this
    {
      Snapshot(alias, hwaddr, permaddr, state, deviceFlags, mode, channel)
    }

    /** The object before `__init__` has read anything. */
    constructor Blank(host: Host, iface: string, variant: Variant, wireless: bool)
      ensures this.host == host && this.iface == iface
      ensures this.variant == variant && this.wireless == wireless
      ensures log == []
    {
      this.host := host;
      this.variant := variant;
      this.wireless := wireless;
      this.iface := iface;
      name := iface;
      alias := None;
      hwaddr := None;
      permaddr := None;
      state := None;
      deviceFlags := [];
      noarp := false;
      multicast := false;
      allmulti := false;
      promisc := false;
      mode := None;
      channel := None;
      log := [];
    }

    /**
      `__init__` of either module: record the name, then run the queries in
      order, raising the first failure. A wireless object also records its
      mode and channel.
    */
    static method Bind(host: Host, iface: string, variant: Variant, wireless: bool) returns (r: Result<Interface>)
      ensures r.Err? ==> SnapshotOf(host.tools, host.dev, iface, wireless) == Err(r.error)
      ensures r.Ok? ==> SnapshotOf(host.tools, host.dev, iface, wireless) == Ok(r.value.Recorded())
      ensures r.Ok? ==> fresh(r.value) && r.value.Valid() && r.value.Opened(host, iface, variant, wireless)
      ensures r.Ok? ==> r.value.name == iface
    {
      var i := new Interface.Blank(host, iface, variant, wireless);
      var record :- i.ReadRecord();
      i.Install(record);
      r := Ok(i);
    }

    /** Records what `__init__` read. */
    method Install(record: Record)
      requires record.Agrees()
      modifies this`name, this`alias, this`hwaddr, this`permaddr, this`state, this`deviceFlags
      modifies this`noarp, this`multicast, this`allmulti, this`promisc, this`mode, this`channel
      ensures Recorded() == record.snapshot && Valid() && name == iface
    {
      InstallReadings(record.snapshot);
      InstallFlags(record);
    }

    /** Records the name and the readings other than the flags. */
    method InstallReadings(snap: Snapshot)
      modifies this`name, this`alias, this`hwaddr, this`permaddr, this`state, this`mode, this`channel
      ensures name == iface && alias == snap.alias && hwaddr == snap.hwaddr && permaddr == snap.permaddr
      ensures state == snap.state && mode == snap.mode && channel == snap.channel
    {
      name := iface;
      alias := snap.alias;
      hwaddr := snap.hwaddr;
      permaddr := snap.permaddr;
      state := snap.state;
      mode := snap.mode;
      channel := snap.channel;
    }

    /** Records the flag list and the four flag attributes read from it. */
    method InstallFlags(record: Record)
      requires record.Agrees()
      modifies this`deviceFlags, this`noarp, this`multicast, this`allmulti, this`promisc
      ensures deviceFlags == record.snapshot.flags
      ensures FlagsAgree(deviceFlags, noarp, multicast, allmulti, promisc)
    {
      deviceFlags := record.snapshot.flags;
      noarp := record.noarp;
      multicast := record.multicast;
      allmulti := record.allmulti;
      promisc := record.promisc;
    }

    /**
      The queries of `__init__`, in order: the four flag queries answer from
      the flag list just read.
    */
    method ReadRecord() returns (r: Result<Record>)
      ensures r.Err? ==> SnapshotOf(host.tools, host.dev, iface, wireless) == Err(r.error)
      ensures r.Ok? ==> SnapshotOf(host.tools, host.dev, iface, wireless) == Ok(r.value.snapshot)
      ensures r.Ok? ==> r.value.Agrees()
    {
      var alias :- ReadAlias();
      var hwaddr :- ReadHwaddr();
      var permaddr :- ReadPermaddr();
      var state :- ReadState();
      var flags :- ReadFlags();
      // The flag queries read the same flag list again, so they succeed.
      var noarp := ReadFlag(Noarp);
      var multicast := ReadFlag(Multicast);
      var allmulti := ReadFlag(Allmulticast);
      var promisc := ReadFlag(Promisc);
      var mode: Option<string> := None;
      var channel: Option<int> := None;
      if wireless {
        mode :- ReadMode();
        channel :- ReadChannel();
      }
      HasFlagOf(host.tools, host.dev, iface, Noarp);
      HasFlagOf(host.tools, host.dev, iface, Multicast);
      HasFlagOf(host.tools, host.dev, iface, Allmulticast);
      HasFlagOf(host.tools, host.dev, iface, Promisc);
      SnapshotRead(host.tools, host.dev, iface, wireless);
      r := Ok(Record(Snapshot(alias, hwaddr, permaddr, state, flags, mode, channel),
                     noarp.value, multicast.value, allmulti.value, promisc.value));
    }

    /** `ip link show <iface>`, split into tokens. */
    method RunShow() returns (r: Result<seq<string>>)
      ensures r == ShowParts(host.tools, host.dev, iface)
    {
      var out :- ShowOf(host.tools, host.dev, iface);
      r := Ok(Tokens(out));
    }

    /** `iw dev <iface> info`, split into tokens. */
    method RunInfo() returns (r: Result<seq<string>>)
      ensures r == InfoParts(host.tools, host.dev, iface)
    {
      var out :- InfoOf(host.tools, host.dev, iface);
      r := Ok(Tokens(out));
    }

    /** `__alias__()`. */
    method ReadAlias() returns (r: Result<Option<string>>)
      ensures r == AliasOf(host.tools, host.dev, iface)
    {
      var parts :- RunShow();
      r := ScanMarker(parts, AliasMarker);
    }

    /** `__hwaddr__()`. */
    method ReadHwaddr() returns (r: Result<Option<string>>)
      ensures r == HwaddrOf(host.tools, host.dev, iface)
    {
      var parts :- RunShow();
      r := ScanMarker(parts, EtherMarker);
    }

    /** `__permaddr__()`. */
    method ReadPermaddr() returns (r: Result<Option<string>>)
      ensures r == PermaddrOf(host.tools, host.dev, iface)
    {
      var parts :- RunShow();
      r := ScanMarker(parts, PermMarker);
    }

    /** `__state__()`. */
    method ReadState() returns (r: Result<Option<string>>)
      ensures r == StateOf(host.tools, host.dev, iface)
    {
      var parts :- RunShow();
      r := ScanState(parts);
    }

    /** `__flags__()`. */
    method ReadFlags() returns (r: Result<seq<string>>)
      ensures r == FlagsOf(host.tools, host.dev, iface)
    {
      var parts :- RunShow();
      r := ParseFlags(parts);
    }

    /** `__noarp__()`, `__multicast__()`, `__allmulti__()` or `__promisc__()`. */
    method ReadFlag(k: FlagKind) returns (r: Result<bool>)
      ensures r == HasFlag(host.tools, host.dev, iface, k)
    {
      var flags :- ReadFlags();
      var hasFlag := false;
      if FlagName(k) in flags {
        hasFlag := true;
      }
      r := Ok(hasFlag);
    }

    /** `__mode__()`. */
    method ReadMode() returns (r: Result<Option<string>>)
      requires wireless
      ensures r == ModeOf(host.tools, host.dev, iface)
    {
      var parts :- RunInfo();
      r := ScanMode(parts);
    }

    /** `__channel__()`. */
    method ReadChannel() returns (r: Result<Option<int>>)
      requires wireless
      ensures r == ChannelOf(host.tools, host.dev, iface)
    {
      var parts :- RunInfo();
      r := ScanChannel(parts);
    }

    /** Runs an optional write command, raising as the module does when it exits non-zero. */
    method Write(cmd: Option<Command>) returns (r: Result<()>)
      modifies host
      ensures var w := old(WriteStep(variant, host.tools, host.dev, iface, cmd));
        (w.Err? ==> r == Err(w.error) && host.dev == old(host.dev))
        && (w.Ok? ==> r == Ok(()) && host.dev == w.value)
    {
      if cmd.Some? {
        var ok := host.Run(iface, cmd.value);
        if !ok {
          return Err(CommandFailure(variant));
        }
      }
      r := Ok(());
    }

    /** `__name__(set_name)`: rename the device first when a name is given. */
    method QueryName(setName: Option<string>) returns (r: Result<string>)
      modifies this`iface, host
      ensures var w := old(WriteStep(variant, host.tools, host.dev, iface,
                            if setName.Some? then Some(Command.SetName(setName.value)) else None));
        (w.Err? ==> r == Err(w.error) && iface == old(iface) && host.dev == old(host.dev))
        && (w.Ok? ==>
              host.dev == w.value && r == Ok(iface)
              && iface == if setName.Some? then setName.value else old(iface))
    {
      if setName.Some? {
        var done :- Write(Some(Command.SetName(setName.value)));
        iface := setName.value;
      }
      r := Ok(iface);
    }

    /** `__alias__(set_alias)`. */
    method QueryAlias(setAlias: Option<string>) returns (r: Result<Option<string>>)
      modifies host
      ensures var w := old(WriteStep(variant, host.tools, host.dev, iface,
                            if setAlias.Some? then Some(Command.SetAlias(setAlias.value)) else None));
        (w.Err? ==> r == Err(w.error) && host.dev == old(host.dev))
        && (w.Ok? ==> host.dev == w.value && r == AliasOf(host.tools, w.value, iface))
    {
      var done :- Write(if setAlias.Some? then Some(Command.SetAlias(setAlias.value)) else None);
      r := ReadAlias();
    }

    /** `__hwaddr__(set_hwaddr)`. */
    method QueryHwaddr(setHwaddr: Option<string>) returns (r: Result<Option<string>>)
      modifies host
      ensures var w := old(WriteStep(variant, host.tools, host.dev, iface,
                            if setHwaddr.Some? then Some(SetAddress(setHwaddr.value)) else None));
        (w.Err? ==> r == Err(w.error) && host.dev == old(host.dev))
        && (w.Ok? ==> host.dev == w.value && r == HwaddrOf(host.tools, w.value, iface))
    {
      var done :- Write(if setHwaddr.Some? then Some(SetAddress(setHwaddr.value)) else None);
      r := ReadHwaddr();
    }

    /** `__state__(set_state)`. */
    method QueryState(setState: Option<string>) returns (r: Result<Option<string>>)
      modifies host
      ensures var w := old(WriteStep(variant, host.tools, host.dev, iface,
                            if setState.Some? then Some(SetLinkState(setState.value)) else None));
        (w.Err? ==> r == Err(w.error) && host.dev == old(host.dev))
        && (w.Ok? ==> host.dev == w.value && r == StateOf(host.tools, w.value, iface))
    {
      var done :- Write(if setState.Some? then Some(SetLinkState(setState.value)) else None);
      r := ReadState();
    }

    /** `__noarp__(set_flag)` and its three siblings. */
    method QueryFlag(k: FlagKind, setFlag: PyValue) returns (r: Result<bool>)
      modifies host
      ensures var w := old(WriteStep(variant, host.tools, host.dev, iface, ToggleCommand(k, setFlag)));
        (w.Err? ==> r == Err(w.error) && host.dev == old(host.dev))
        && (w.Ok? ==> host.dev == w.value && r == HasFlag(host.tools, w.value, iface, k))
    {
      var done :- Write(ToggleCommand(k, setFlag));
      r := ReadFlag(k);
    }

    /** `__mode__(set_mode)`. */
    method QueryMode(setMode: Option<string>) returns (r: Result<Option<string>>)
      requires wireless
      modifies host
      ensures var w := old(WriteStep(variant, host.tools, host.dev, iface,
                            if setMode.Some? then Some(SetType(setMode.value)) else None));
        (w.Err? ==> r == Err(w.error) && host.dev == old(host.dev))
        && (w.Ok? ==> host.dev == w.value && r == ModeOf(host.tools, w.value, iface))
    {
      var done :- Write(if setMode.Some? then Some(SetType(setMode.value)) else None);
      r := ReadMode();
    }

    /** `__channel__(set_channel)`: the channel is written in decimal. */
    method QueryChannel(setChannel: Option<int>) returns (r: Result<Option<int>>)
      requires wireless
      modifies host
      ensures var w := old(WriteStep(variant, host.tools, host.dev, iface,
                            if setChannel.Some? then Some(Command.SetChannel(Str(setChannel.value))) else None));
        (w.Err? ==> r == Err(w.error) && host.dev == old(host.dev))
        && (w.Ok? ==> host.dev == w.value && r == ChannelOf(host.tools, w.value, iface))
    {
      var done :- Write(if setChannel.Some? then Some(Command.SetChannel(Str(setChannel.value))) else None);
      r := ReadChannel();
    }

    /**
      `set_name(name)`, on every object of the raising module and on wireless
      objects of the handling module. The new name is recorded once the
      rename succeeds, even when the raising module then reports a rename to
      the name `iface` held before as a silent failure.
    */
    method SetName(newName: string) returns (r: Result<string>)
      requires variant.Raising? || wireless
      modifies this`iface, this`name, host
      ensures var w := old(WriteStep(variant, host.tools, host.dev, iface, Some(Command.SetName(newName))));
        (w.Err? ==> r == Err(w.error) && iface == old(iface) && name == old(name) && host.dev == old(host.dev))
        && (w.Ok? ==>
              iface == newName && name == newName && host.dev == w.value
              && r == SetterResult(variant, Ok(old(iface)), newName, NameAttr))
    {
      var cur: Result<string> := Ok(iface);
      if variant.Raising? {
        cur := QueryName(None);
      }
      var now :- QueryName(Some(newName));
      name := now;
      r := SetterResult(variant, cur, now, NameAttr);
    }

    /** `set_alias(alias)` of the raising module: write, re-read and record the alias. */
    method SetAlias(newAlias: string) returns (r: Result<Option<string>>)
      requires variant.Raising?
      modifies this`alias, host
      ensures var w := old(WriteStep(variant, host.tools, host.dev, iface, Some(Command.SetAlias(newAlias))));
        (w.Err? ==> r == Err(w.error) && alias == old(alias) && host.dev == old(host.dev))
        && (w.Ok? ==>
              host.dev == w.value && r == AliasOf(host.tools, w.value, iface)
              && alias == if r.Ok? then r.value else old(alias))
    {
      var now :- QueryAlias(Some(newAlias));
      alias := now;
      r := Ok(now);
    }

    /**
      `set_hwaddr(hwaddr)`: write the address, re-read and record it. The
      raising module first reads the address and reports an unchanged one as
      a silent failure.
    */
    method SetHwaddr(address: string) returns (r: Result<Option<string>>)
      requires variant.Raising? || wireless
      modifies this`hwaddr, host
      ensures var cur := old(HwaddrOf(host.tools, host.dev, iface));
              var w := old(WriteStep(variant, host.tools, host.dev, iface, Some(SetAddress(address))));
        if variant.Raising? && cur.Err? then
          r == cur && hwaddr == old(hwaddr) && host.dev == old(host.dev)
        else if w.Err? then
          r == Err(w.error) && hwaddr == old(hwaddr) && host.dev == old(host.dev)
        else
          host.dev == w.value &&
          match HwaddrOf(host.tools, w.value, iface)
          case Err(e) => r == Err(e) && hwaddr == old(hwaddr)
          case Ok(now) => hwaddr == now && r == SetterResult(variant, cur, now, HwaddrAttr)
    {
      var cur: Result<Option<string>> := Ok(None);
      if variant.Raising? {
        cur := ReadHwaddr();
        if cur.Err? {
          return cur;
        }
      }
      var now :- QueryHwaddr(Some(address));
      hwaddr := now;
      r := SetterResult(variant, cur, now, HwaddrAttr);
    }

    /**
      `set_state(state)`: write the state, re-read and record it. The raising
      module first reads the state and reports an unchanged one as a silent
      failure.
    */
    method SetState(newState: string) returns (r: Result<Option<string>>)
      requires variant.Raising? || wireless
      modifies this`state, host
      ensures var cur := old(StateOf(host.tools, host.dev, iface));
              var w := old(WriteStep(variant, host.tools, host.dev, iface, Some(SetLinkState(newState))));
        if variant.Raising? && cur.Err? then
          r == cur && state == old(state) && host.dev == old(host.dev)
        else if w.Err? then
          r == Err(w.error) && state == old(state) && host.dev == old(host.dev)
        else
          host.dev == w.value &&
          match StateOf(host.tools, w.value, iface)
          case Err(e) => r == Err(e) && state == old(state)
          case Ok(now) => state == now && r == SetterResult(variant, cur, now, StateAttr)
    {
      var cur: Result<Option<string>> := Ok(None);
      if variant.Raising? {
        cur := ReadState();
        if cur.Err? {
          return cur;
        }
      }
      var now :- QueryState(Some(newState));
      state := now;
      r := SetterResult(variant, cur, now, StateAttr);
    }

    /**
      `set_mode(mode)` of a wireless object: write the mode, re-read and
      record it. The raising module first reads the mode and reports an
      unchanged one as a silent failure.
    */
    method SetMode(newMode: string) returns (r: Result<Option<string>>)
      requires wireless
      modifies this`mode, host
      ensures var cur := old(ModeOf(host.tools, host.dev, iface));
              var w := old(WriteStep(variant, host.tools, host.dev, iface, Some(SetType(newMode))));
        if variant.Raising? && cur.Err? then
          r == cur && mode == old(mode) && host.dev == old(host.dev)
        else if w.Err? then
          r == Err(w.error) && mode == old(mode) && host.dev == old(host.dev)
        else
          host.dev == w.value &&
          match ModeOf(host.tools, w.value, iface)
          case Err(e) => r == Err(e) && mode == old(mode)
          case Ok(now) => mode == now && r == SetterResult(variant, cur, now, ModeAttr)
    {
      var cur: Result<Option<string>> := Ok(None);
      if variant.Raising? {
        cur := ReadMode();
        if cur.Err? {
          return cur;
        }
      }
      var now :- QueryMode(Some(newMode));
      mode := now;
      r := SetterResult(variant, cur, now, ModeAttr);
    }

    /**
      `set_channel(channel)` of a wireless object: write the channel, re-read
      and record it. The raising module first reads the channel and reports
      an unchanged one as a silent failure.
    */
    method SetChannel(newChannel: int) returns (r: Result<Option<int>>)
      requires wireless
      modifies this`channel, host
      ensures var cur := old(ChannelOf(host.tools, host.dev, iface));
              var w := old(WriteStep(variant, host.tools, host.dev, iface, Some(Command.SetChannel(Str(newChannel)))));
        if variant.Raising? && cur.Err? then
          r == cur && channel == old(channel) && host.dev == old(host.dev)
        else if w.Err? then
          r == Err(w.error) && channel == old(channel) && host.dev == old(host.dev)
        else
          host.dev == w.value &&
          match ChannelOf(host.tools, w.value, iface)
          case Err(e) => r == Err(e) && channel == old(channel)
          case Ok(now) => channel == now && r == SetterResult(variant, cur, now, ChannelAttr)
    {
      var cur: Result<Option<int>> := Ok(None);
      if variant.Raising? {
        cur := ReadChannel();
        if cur.Err? {
          return cur;
        }
      }
      var now :- QueryChannel(Some(newChannel));
      channel := now;
      r := SetterResult(variant, cur, now, ChannelAttr);
    }

    /**
      `__error_handler__(msg)` of the handling module: log the reason if a
      logger is configured, then raise it under strict handling or return.
    */
    method ErrorHandler(reason: Reason) returns (r: Result<()>)
      requires variant.Handling?
      modifies this`log
      ensures log == old(log) + HandlerLog(variant.strict, variant.logger, reason)
      ensures r == if variant.strict then Err(Raised(reason)) else Ok(())
    {
      log := log + HandlerLog(variant.strict, variant.logger, reason);
      if variant.strict {
        return Err(Raised(reason));
      }
      r := Ok(());
    }

    /** The body shared by `up()` and `down()`; `state` stays unbound when no write is made. */
    method Bring(goal: string) returns (r: Result<bool>)
      requires variant.Handling?
      modifies this`log, host
      ensures var s := old(BringStep(variant.strict, variant.logger, host.tools, host.dev, iface, goal));
        r == s.result && host.dev == s.dev && log == old(log) + s.logged
    {
      var before :- ReadState();
      var state: Option<Option<string>> := None;
      if before != Some(goal) {
        var after :- QueryState(Some(goal));
        state := Some(after);
      } else {
        var handled :- ErrorHandler(AlreadyInState(goal));
      }
      if state.None? {
        return Err(UnboundLocal("state"));
      }
      if state.value != Some(goal) {
        var handled :- ErrorHandler(StateNotReached(goal, state.value));
        return Ok(false);
      }
      r := Ok(true);
    }

    /** `up()` of the handling module. */
    method Up() returns (r: Result<bool>)
      requires variant.Handling?
      modifies this`log, host
      ensures var s := old(BringStep(variant.strict, variant.logger, host.tools, host.dev, iface, "up"));
        r == s.result && host.dev == s.dev && log == old(log) + s.logged
    {
      r := Bring("up");
    }

    /** `down()` of the handling module. */
    method Down() returns (r: Result<bool>)
      requires variant.Handling?
      modifies this`log, host
      ensures var s := old(BringStep(variant.strict, variant.logger, host.tools, host.dev, iface, "down"));
        r == s.result && host.dev == s.dev && log == old(log) + s.logged
    {
      r := Bring("down");
    }

    /** `set_device_flag(flag, setting)` of either module. */
    method SetDeviceFlag(flag: string, setting: PyValue) returns (r: Result<bool>)
      modifies this`log, host
      ensures var s := old(SetFlagStep(variant, host.tools, host.dev, iface, flag, setting));
        r == s.result && host.dev == s.dev && log == old(log) + s.logged
    {
      ghost var log0, pre: seq<LogEntry> := log, [];
      if !Truthy(setting) {
        if variant.Raising? {
          return Err(AttributeError("__error_handler__"));
        }
        var handled :- ErrorHandler(InvalidSetting);
        pre := HandlerLog(false, variant.logger, InvalidSetting);
      }
      assert log == log0 + pre;
      ghost var d := host.dev;
      r := Dispatch(flag, setting);
      AppendAssoc(log0, pre, DispatchStep(variant, host.tools, d, iface, flag, setting).logged);
    }

    /** The flag dispatch of `set_device_flag`, on the lower-cased flag name. */
    method Dispatch(flag: string, setting: PyValue) returns (r: Result<bool>)
      modifies this`log, host
      ensures var s := old(DispatchStep(variant, host.tools, host.dev, iface, flag, setting));
        r == s.result && host.dev == s.dev && log == old(log) + s.logged
    {
      var key := Lower(flag);
      var k: FlagKind;
      if key == "noarp" {
        k := Noarp;
      } else if key == "multicast" {
        k := Multicast;
      } else if key == "allmulti" {
        return Err(AttributeError("__allmulti___"));
      } else if key == "promisc" {
        k := Promisc;
      } else {
        if variant.Raising? {
          return Err(UnsupportedFlag(flag));
        }
        var handled :- ErrorHandler(InvalidFlag(flag));
        return Ok(false);
      }
      r := CheckFlag(flag, k, setting);
    }

    /** The flag query `set_device_flag` dispatches to, and the check of its answer. */
    method CheckFlag(flag: string, k: FlagKind, setting: PyValue) returns (r: Result<bool>)
      modifies this`log, host
      ensures var s := old(FlagCheckStep(variant, host.tools, host.dev, iface, flag, k, setting));
        r == s.result && host.dev == s.dev && log == old(log) + s.logged
    {
      var flagSet :- QueryFlag(k, setting);
      if !flagSet {
        if variant.Raising? {
          return Err(AttributeSetSilentFail(FlagAttr(flag)));
        }
        // The device is as the flag query left it, so this re-read succeeds.
        var current := ReadFlags();
        var handled :- ErrorHandler(FlagNotSet(flag, current.value));
        return Ok(false);
      }
      r := Ok(true);
    }
  }
}
