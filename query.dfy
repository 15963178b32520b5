/**
  The read side of an interface object: what each query method returns for a
  given state of the device. `target` is the name the object uses in its
  commands (its `iface` attribute).
*/
module Query {
  import opened Outcomes
  import opened Text
  import opened Parse
  import opened Link

  /** The tokens of `ip link show <target>`. */
  function ShowParts(tools: Tools, d: Device, target: string): Result<seq<string>> {
    var out :- ShowOf(tools, d, target);
    Ok(Tokens(out))
  }

  /** The tokens of `iw dev <target> info`. */
  function InfoParts(tools: Tools, d: Device, target: string): Result<seq<string>> {
    var out :- InfoOf(tools, d, target);
    Ok(Tokens(out))
  }

  /** What `__alias__` reads. */
  function AliasOf(tools: Tools, d: Device, target: string): Result<Option<string>> {
    var parts :- ShowParts(tools, d, target);
    AfterLast(parts, AliasMarker)
  }

  /** What `__hwaddr__` reads. */
  function HwaddrOf(tools: Tools, d: Device, target: string): Result<Option<string>> {
    var parts :- ShowParts(tools, d, target);
    AfterLast(parts, EtherMarker)
  }

  /** What `__permaddr__` reads. */
  function PermaddrOf(tools: Tools, d: Device, target: string): Result<Option<string>> {
    var parts :- ShowParts(tools, d, target);
    AfterLast(parts, PermMarker)
  }

  /** What `__state__` reads. */
  function StateOf(tools: Tools, d: Device, target: string): Result<Option<string>> {
    var parts :- ShowParts(tools, d, target);
    StateAfter(parts)
  }

  /** What `__flags__` reads. */
  function FlagsOf(tools: Tools, d: Device, target: string): Result<seq<string>> {
    var parts :- ShowParts(tools, d, target);
    ParseFlags(parts)
  }

  /** What `__noarp__`, `__multicast__`, `__allmulti__` and `__promisc__` read. */
  function HasFlag(tools: Tools, d: Device, target: string, k: FlagKind): Result<bool> {
    var flags :- FlagsOf(tools, d, target);
    Ok(FlagName(k) in flags)
  }

  /** What `__mode__` reads. */
  function ModeOf(tools: Tools, d: Device, target: string): Result<Option<string>> {
    var parts :- InfoParts(tools, d, target);
    ModeAfter(parts)
  }

  /** What `__channel__` reads. */
  function ChannelOf(tools: Tools, d: Device, target: string): Result<Option<int>> {
    var parts :- InfoParts(tools, d, target);
    ChannelAfter(parts)
  }

  /** A flag query answers from the flag list `__flags__` reads. */
  lemma HasFlagOf(tools: Tools, d: Device, target: string, k: FlagKind)
    requires FlagsOf(tools, d, target).Ok?
    ensures HasFlag(tools, d, target, k) == Ok(FlagName(k) in FlagsOf(tools, d, target).value)
  {
  }

  /** Every query of a device under a name it does not have fails as its command does. */
  lemma UnknownTarget(tools: Tools, d: Device, target: string)
    requires d.name != target
    ensures AliasOf(tools, d, target) == Err(CalledProcessError) && HwaddrOf(tools, d, target) == Err(CalledProcessError)
    ensures PermaddrOf(tools, d, target) == Err(CalledProcessError) && StateOf(tools, d, target) == Err(CalledProcessError)
    ensures FlagsOf(tools, d, target) == Err(CalledProcessError)
    ensures forall k :: HasFlag(tools, d, target, k) == Err(CalledProcessError)
    ensures ModeOf(tools, d, target) == Err(CalledProcessError) && ChannelOf(tools, d, target) == Err(CalledProcessError)
  {
  }

  /**
    The readings of a well-formed device under its own name are its fields:
    the alias and the permanent address with the newline that ends their
    lines, the address, the lower-cased state and the flags (an empty flag
    list reads back as one empty flag).
  */
  lemma ShowReadings(tools: Tools, d: Device)
    requires Prints(tools)
    requires ShowWf(d)
    ensures AliasOf(tools, d, d.name) == Ok(Lined(d.alias))
    ensures HwaddrOf(tools, d, d.name) == Ok(Some(d.ether))
    ensures PermaddrOf(tools, d, d.name) == Ok(Lined(d.permaddr))
    ensures StateOf(tools, d, d.name) == Ok(Some(Lower(d.state)))
    ensures FlagsOf(tools, d, d.name) == Ok(if d.flags == [] then [""] else d.flags)
  {
    ShowAlias(d);
    ShowEther(d);
    ShowPermaddr(d);
    ShowState(d);
    ShowFlags(d);
  }

  /** A flag reads as set exactly when the device holds it. */
  lemma FlagReading(tools: Tools, d: Device, k: FlagKind)
    requires Prints(tools)
    requires ShowWf(d)
    ensures HasFlag(tools, d, d.name, k) == Ok(FlagName(k) in d.flags)
  {
    ShowReadings(tools, d);
  }

  /** The mode and channel of a well-formed wireless device read back as its radio settings. */
  lemma InfoReadings(tools: Tools, d: Device)
    requires Prints(tools)
    requires d.radio.Some? && InfoWf(d, d.radio.value)
    ensures ModeOf(tools, d, d.name) == Ok(Some(d.radio.value.mode))
    ensures ChannelOf(tools, d, d.name) == Ok(d.radio.value.channel)
  {
    InfoMode(d, d.radio.value);
    InfoChannel(d, d.radio.value);
  }

  /** A wired device has no `iw` information, so its mode and channel queries fail. */
  lemma WiredInfo(tools: Tools, d: Device, target: string)
    requires Prints(tools)
    requires d.radio.None?
    ensures ModeOf(tools, d, target) == Err(CalledProcessError) && ChannelOf(tools, d, target) == Err(CalledProcessError)
  {
  }

  /** An address the kernel applies is what `__hwaddr__` reads afterwards. */
  lemma AddressReadsBack(tools: Tools, d: Device, address: string)
    requires Prints(tools)
    requires ShowWf(d) && Word(address)
    ensures HwaddrOf(tools, d.(ether := address), d.name) == Ok(Some(address))
  {
    ShowReadings(tools, d.(ether := address));
  }

  /** A state the kernel applies is what `__state__` reads afterwards, lower-cased. */
  lemma StateReadsBack(tools: Tools, d: Device, state: string)
    requires Prints(tools)
    requires ShowWf(d) && Word(state)
    ensures StateOf(tools, d.(state := state), d.name) == Ok(Some(Lower(state)))
  {
    ShowReadings(tools, d.(state := state));
  }

  /**
    An alias the kernel applies is what `__alias__` reads afterwards, with the
    newline that ends the alias line still attached.
  */
  lemma AliasReadsBack(tools: Tools, d: Device, alias: string)
    requires Prints(tools)
    requires ShowWf(d) && Word(alias)
    ensures AliasOf(tools, d.(alias := Some(alias)), d.name) == Ok(Some(alias + "\n"))
  {
    ShowReadings(tools, d.(alias := Some(alias)));
  }

  /** A radio setting the kernel applies is what `__mode__` and `__channel__` read afterwards. */
  lemma RadioReadsBack(tools: Tools, d: Device, r: Radio)
    requires Prints(tools)
    requires InfoWf(d, r)
    ensures ModeOf(tools, d.(radio := Some(r)), d.name) == Ok(Some(r.mode))
    ensures ChannelOf(tools, d.(radio := Some(r)), d.name) == Ok(r.channel)
  {
    InfoReadings(tools, d.(radio := Some(r)));
  }

  /** The attribute values an interface object records when it is created. */
  datatype Snapshot = Snapshot(
    alias: Option<string>,
    hwaddr: Option<string>,
    permaddr: Option<string>,
    state: Option<string>,
    flags: seq<string>,
    mode: Option<string>,
    channel: Option<int>)

  /**
    The queries `__init__` runs, in order, stopping at the first that raises;
    a wireless object then reads its mode and channel. The four flag queries
    read the same flag list as `__flags__`, so they add no failure of their own.
  */
  function SnapshotOf(tools: Tools, d: Device, target: string, wireless: bool): Result<Snapshot> {
    var alias :- AliasOf(tools, d, target);
    var hwaddr :- HwaddrOf(tools, d, target);
    var permaddr :- PermaddrOf(tools, d, target);
    var state :- StateOf(tools, d, target);
    var flags :- FlagsOf(tools, d, target);
    if !wireless then Ok(Snapshot(alias, hwaddr, permaddr, state, flags, None, None))
    else
      var mode :- ModeOf(tools, d, target);
      var channel :- ChannelOf(tools, d, target);
      Ok(Snapshot(alias, hwaddr, permaddr, state, flags, mode, channel))
  }

  /** When every query succeeds the snapshot holds their answers. */
  lemma SnapshotRead(tools: Tools, d: Device, target: string, wireless: bool)
    requires AliasOf(tools, d, target).Ok? && HwaddrOf(tools, d, target).Ok? && PermaddrOf(tools, d, target).Ok?
    requires StateOf(tools, d, target).Ok? && FlagsOf(tools, d, target).Ok?
    requires wireless ==> ModeOf(tools, d, target).Ok? && ChannelOf(tools, d, target).Ok?
    ensures SnapshotOf(tools, d, target, wireless) == Ok(Snapshot(
      AliasOf(tools, d, target).value, HwaddrOf(tools, d, target).value, PermaddrOf(tools, d, target).value,
      StateOf(tools, d, target).value, FlagsOf(tools, d, target).value,
      if wireless then ModeOf(tools, d, target).value else None,
      if wireless then ChannelOf(tools, d, target).value else None))
  {
  }

  /**
    Binding an object to a well-formed device by its own name succeeds and
    records the device's fields, the alias and the permanent address with
    the newline that ends their lines.
  */
  lemma BindReadsDevice(tools: Tools, d: Device, wireless: bool)
    requires Prints(tools)
    requires ShowWf(d)
    requires wireless ==> d.radio.Some? && InfoWf(d, d.radio.value)
    ensures SnapshotOf(tools, d, d.name, wireless) == Ok(Snapshot(
      Lined(d.alias), Some(d.ether), Lined(d.permaddr), Some(Lower(d.state)),
      if d.flags == [] then [""] else d.flags,
      if wireless then Some(d.radio.value.mode) else None,
      if wireless then d.radio.value.channel else None))
  {
    ShowReadings(tools, d);
    if wireless {
      InfoReadings(tools, d);
    }
  }

  /** Binding a wireless object to a wired device fails at the mode query. */
  lemma BindWirelessToWired(tools: Tools, d: Device)
    requires Prints(tools)
    requires ShowWf(d) && d.radio.None?
    ensures SnapshotOf(tools, d, d.name, true) == Err(CalledProcessError)
  {
    ShowReadings(tools, d);
  }
}
