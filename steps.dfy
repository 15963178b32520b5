/**
  The multi-step operations of an interface object as functions of the
  device state: what they return, the device afterwards and what they log.
  The two modules differ only in their error policy, captured by `Variant`.
*/
module Steps {
  import opened Outcomes
  import opened Text
  import opened Link
  import opened Query

  /** Which of the two interface modules an object comes from. */
  datatype Variant =
    | Raising                              // linuxnetworkinterfaces.py: failures raise
    | Handling(strict: bool, logger: bool) // networkinterfaces.py: failures go to `__error_handler__`

  /** What a write command that exits non-zero raises. */
  function CommandFailure(v: Variant): (f: Failure)
    ensures f == SystemCallError <==> v.Raising?
    ensures f == CalledProcessError <==> v.Handling?
  {
    if v.Raising? then SystemCallError else CalledProcessError
  }

  datatype LogLevel = LogWarning | LogError

  /** A line sent to the logger. */
  datatype LogEntry = LogEntry(level: LogLevel, reason: Reason)

  /**
    What `__error_handler__` logs: one entry when a logger is configured, at
    error level under strict handling and at warning level otherwise.
  */
  function HandlerLog(strict: bool, logger: bool, reason: Reason): (r: seq<LogEntry>)
    ensures |r| == (if logger then 1 else 0)
    ensures forall e :: e in r ==> e.reason == reason && (e.level == LogError <==> strict)
  {
    if logger then [LogEntry(if strict then LogError else LogWarning, reason)] else []
  }

  /** A value a caller passes as a flag setting. */
  datatype PyValue = PyNone | PyBool(b: bool) | PyInt(i: int) | PyStr(s: string)

  /** Python truthiness, as `not setting` tests it. */
  predicate Truthy(v: PyValue) {
    match v
    case PyNone => false
    case PyBool(b) => b
    case PyInt(i) => i != 0
    case PyStr(s) => s != ""
  }

  /** `v == True`: only `True` itself and the integer 1 compare equal to it. */
  predicate EqualsTrue(v: PyValue) {
    v == PyBool(true) || v == PyInt(1)
  }

  /** The `on`/`off` word a flag query derives from its setting. */
  function OnOff(v: PyValue): (r: string)
    ensures r == "on" <==> EqualsTrue(v)
    ensures r == "off" <==> !EqualsTrue(v)
  {
    if EqualsTrue(v) then "on" else "off"
  }

  /**
    The option token the flag write passes: every flag command except the
    `promisc` one carries a stray closing bracket after the word.
  */
  function ToggleOption(k: FlagKind, v: PyValue): (r: string)
    ensures k == Promisc ==> r == OnOff(v)
    ensures k != Promisc ==> r == OnOff(v) + "]"
  {
    if k == Promisc then OnOff(v) else OnOff(v) + "]"
  }

  /** The write a flag query issues: none when the setting is `None`. */
  function ToggleCommand(k: FlagKind, setting: PyValue): Option<Command> {
    if setting.PyNone? then None else Some(Toggle(k, ToggleOption(k, setting)))
  }

  /** The device after an optional write, or the failure the write raises. */
  function WriteStep(v: Variant, tools: Tools, d: Device, target: string, cmd: Option<Command>): (r: Result<Device>)
    ensures cmd.None? ==> r == Ok(d)
    ensures r.Err? ==> r.error == CommandFailure(v)
    ensures cmd.Some? ==> (r.Ok? <==> Effect(tools, d, target, cmd.value).Some?)
    ensures cmd.Some? && r.Ok? ==> r.value == Effect(tools, d, target, cmd.value).value
  {
    match cmd
    case None => Ok(d)
    case Some(c) =>
      match Effect(tools, d, target, c)
      case None => Err(CommandFailure(v))
      case Some(d1) => Ok(d1)
  }

  /**
    The outcome of a multi-step operation: its result, the device afterwards
    and what it logged.
  */
  datatype Step<+T> = Step(result: Result<T>, dev: Device, logged: seq<LogEntry>)

  /**
    What a setter returns once the write and the re-read have succeeded: the
    raising module reports a value equal to the one read before the write as
    a silent failure.
  */
  function SetterResult<T(==)>(v: Variant, cur: Result<T>, now: T, attr: Attribute): (r: Result<T>)
    requires v.Raising? ==> cur.Ok?
    ensures r.Ok? ==> r.value == now
    ensures r.Err? ==> r.error == AttributeSetSilentFail(attr)
    ensures r.Err? <==> v.Raising? && now == cur.value
  {
    if v.Raising? && now == cur.value then Err(AttributeSetSilentFail(attr)) else Ok(now)
  }

  /** The flag a lower-cased flag argument of `set_device_flag` selects. */
  function FlagFor(key: string): (r: Option<FlagKind>)
    ensures r.Some? <==> key in {"noarp", "multicast", "allmulti", "promisc"}
  {
    if key == "noarp" then Some(Noarp)
    else if key == "multicast" then Some(Multicast)
    else if key == "allmulti" then Some(Allmulticast)
    else if key == "promisc" then Some(Promisc)
    else None
  }

  /**
    `up()` and `down()` of the handling module, bringing the device to state
    `goal`. The state is read; if it differs from the goal the state is
    written and read again. A device already in the goal state goes to the
    error handler and then, under permissive handling, the comparison reads a
    local that was never assigned. A state that misses the goal after the
    write goes to the error handler and yields false.
  */
  function BringStep(strict: bool, logger: bool, tools: Tools, d: Device, target: string, goal: string): Step<bool> {
    match StateOf(tools, d, target)
    case Err(e) => Step(Err(e), d, [])
    case Ok(s0) =>
      if s0 == Some(goal) then
        var reason := AlreadyInState(goal);
        Step(if strict then Err(Raised(reason)) else Err(UnboundLocal("state")), d, HandlerLog(strict, logger, reason))
      else
        match WriteStep(Handling(strict, logger), tools, d, target, Some(SetLinkState(goal)))
        case Err(e) => Step(Err(e), d, [])
        case Ok(d1) =>
          match StateOf(tools, d1, target)
          case Err(e) => Step(Err(e), d1, [])
          case Ok(s1) =>
            if s1 == Some(goal) then Step(Ok(true), d1, [])
            else
              var reason := StateNotReached(goal, s1);
              Step(if strict then Err(Raised(reason)) else Ok(false), d1, HandlerLog(strict, logger, reason))
  }

  /**
    `set_device_flag(flag, setting)`. A falsy setting goes to the error
    handler, which the raising module does not have. The lower-cased flag
    selects a flag query, which writes the setting unless it is `None` and
    reports whether the flag is then listed; `allmulti` names a query that
    does not exist, and an unknown flag raises (raising module) or goes to
    the error handler. A flag not listed afterwards is a silent failure
    (raising module) or goes to the error handler with the current flags.
  */
  function SetFlagStep(v: Variant, tools: Tools, d: Device, target: string, flag: string, setting: PyValue): Step<bool> {
    if !Truthy(setting) && v.Raising? then Step(Err(AttributeError("__error_handler__")), d, [])
    else if !Truthy(setting) && v.strict then Step(Err(Raised(InvalidSetting)), d, HandlerLog(true, v.logger, InvalidSetting))
    else
      var pre := if Truthy(setting) then [] else HandlerLog(false, v.logger, InvalidSetting);
      var s := DispatchStep(v, tools, d, target, flag, setting);
      Step(s.result, s.dev, pre + s.logged)
  }

  /**
    The flag dispatch of `set_device_flag`: `allmulti` names a query that
    does not exist, and an unknown flag raises (raising module) or goes to
    the error handler.
  */
  function DispatchStep(v: Variant, tools: Tools, d: Device, target: string, flag: string, setting: PyValue): Step<bool> {
    match FlagFor(Lower(flag))
    case None =>
      if v.Raising? then Step(Err(UnsupportedFlag(flag)), d, [])
      else
        var reason := InvalidFlag(flag);
        Step(if v.strict then Err(Raised(reason)) else Ok(false), d, HandlerLog(v.strict, v.logger, reason))
    case Some(k) =>
      if k == Allmulticast then Step(Err(AttributeError("__allmulti___")), d, [])
      else FlagCheckStep(v, tools, d, target, flag, k, setting)
  }

  /**
    The part of `set_device_flag` after the flag is recognised: the flag
    query writes the setting unless it is `None` and reads the flag list; a
    flag not listed afterwards is a silent failure (raising module) or goes to
    the error handler with the current flags.
  */
  function FlagCheckStep(v: Variant, tools: Tools, d: Device, target: string, flag: string, k: FlagKind, setting: PyValue): Step<bool> {
    match WriteStep(v, tools, d, target, ToggleCommand(k, setting))
    case Err(e) => Step(Err(e), d, [])
    case Ok(d1) =>
      match FlagsOf(tools, d1, target)
      case Err(e) => Step(Err(e), d1, [])
      case Ok(flags) =>
        if FlagName(k) in flags then Step(Ok(true), d1, [])
        else if v.Raising? then Step(Err(AttributeSetSilentFail(FlagAttr(flag))), d1, [])
        else
          var reason := FlagNotSet(flag, flags);
          Step(if v.strict then Err(Raised(reason)) else Ok(false), d1, HandlerLog(v.strict, v.logger, reason))
  }

  /**
    Only `True` and 1 switch a flag on: the string "on" compares unequal to
    `True` and is sent as "off".
  */
  lemma OnOnlyForTrue(v: PyValue)
    ensures OnOff(v) == "on" <==> v == PyBool(true) || v == PyInt(1)
    ensures OnOff(PyStr("on")) == "off"
  {
  }

  /** The bracketed flag writes never pass a bare `on` or `off` word. */
  lemma BracketedOption(k: FlagKind, v: PyValue)
    requires k != Promisc
    ensures ToggleOption(k, v) != "on" && ToggleOption(k, v) != "off"
    ensures ToggleOption(k, v)[|ToggleOption(k, v)| - 1] == ']'
  {
    var w := OnOff(v);
    assert |ToggleOption(k, v)| == |w| + 1 && ToggleOption(k, v)[|w|] == ']';
    assert w == "on" || w == "off";
  }

  /**
    The flag words `ip` prints select their own query, ignoring case, except
    `ALLMULTICAST`, which `set_device_flag` does not recognise (it expects
    `allmulti`).
  */
  lemma FlagForNames()
    ensures FlagFor(Lower(FlagName(Noarp))) == Some(Noarp)
    ensures FlagFor(Lower(FlagName(Multicast))) == Some(Multicast)
    ensures FlagFor(Lower(FlagName(Promisc))) == Some(Promisc)
    ensures FlagFor(Lower(FlagName(Allmulticast))) == None
  {
    LowerNoarp();
    LowerMulticast();
    LowerPromisc();
    AllmulticastUnknown();
  }

  lemma LowerNoarp() ensures Lower("NOARP") == "noarp" { }
  lemma LowerMulticast() ensures Lower("MULTICAST") == "multicast" { }
  lemma LowerPromisc() ensures Lower("PROMISC") == "promisc" { }

  /** The lower-cased `ALLMULTICAST` is longer than every name `FlagFor` knows. */
  lemma AllmulticastUnknown()
    ensures FlagFor(Lower("ALLMULTICAST")) == None
  {
    assert |Lower("ALLMULTICAST")| == 12;
  }

  /**
    The flag argument is matched without regard to case: two spellings that
    differ only in the case of their letters select the same flag, or none.
  */
  lemma FlagForIgnoresCase(a: string, b: string)
    requires |a| == |b| && forall i :: 0 <= i < |a| ==> LowerChar(a[i]) == LowerChar(b[i])
    ensures FlagFor(Lower(a)) == FlagFor(Lower(b))
  {
    LowerCaseless(a, b);
  }

  /**
    `up()`/`down()` report success exactly when the state read first differs
    from the goal, the state write succeeds and the state read afterwards is
    the goal.
  */
  lemma BringSucceeds(strict: bool, logger: bool, tools: Tools, d: Device, target: string, goal: string)
    ensures BringStep(strict, logger, tools, d, target, goal).result == Ok(true) <==>
      StateOf(tools, d, target).Ok? && StateOf(tools, d, target).value != Some(goal)
      && Effect(tools, d, target, SetLinkState(goal)).Some?
      && StateOf(tools, Effect(tools, d, target, SetLinkState(goal)).value, target) == Ok(Some(goal))
  {
  }

  /**
    A device already in the goal state is left alone; strict handling raises
    and permissive handling fails on the unassigned local.
  */
  lemma BringAlreadyThere(strict: bool, logger: bool, tools: Tools, d: Device, target: string, goal: string)
    requires StateOf(tools, d, target) == Ok(Some(goal))
    ensures BringStep(strict, logger, tools, d, target, goal).dev == d
    ensures BringStep(strict, logger, tools, d, target, goal).result ==
      if strict then Err(Raised(AlreadyInState(goal))) else Err(UnboundLocal("state"))
  {
  }

  /**
    The error policy of `up()`/`down()`: strict handling never returns false,
    permissive handling never raises from the handler, at most one line is
    logged and none without a logger. The device changes only by the state
    write.
  */
  lemma BringPolicy(strict: bool, logger: bool, tools: Tools, d: Device, target: string, goal: string)
    ensures strict ==> BringStep(strict, logger, tools, d, target, goal).result != Ok(false)
    ensures !strict ==> !BringStep(strict, logger, tools, d, target, goal).result.IsRaised()
    ensures |BringStep(strict, logger, tools, d, target, goal).logged| <= (if logger then 1 else 0)
    ensures BringStep(strict, logger, tools, d, target, goal).dev == d
      || Some(BringStep(strict, logger, tools, d, target, goal).dev) == Effect(tools, d, target, SetLinkState(goal))
  {
  }

  /**
    On a device not yet in the goal state, whose kernel applies the state
    write and prints the new state in any case that lower-cases to the goal,
    `up()`/`down()` succeed silently.
  */
  lemma BringReachesGoal(strict: bool, logger: bool, tools: Tools, d: Device, goal: string, printed: string)
    requires Prints(tools)
    requires ShowWf(d) && Word(printed) && Lower(printed) == goal
    requires Lower(d.state) != goal
    requires Effect(tools, d, d.name, SetLinkState(goal)) == Some(d.(state := printed))
    ensures BringStep(strict, logger, tools, d, d.name, goal) == Step(Ok(true), d.(state := printed), [])
  {
    ShowReadings(tools, d);
    ShowReadings(tools, d.(state := printed));
  }

  /**
    On a device already in the goal state, `up()`/`down()` write nothing:
    strict handling raises and permissive handling fails on the unassigned
    local.
  */
  lemma BringFromGoal(strict: bool, logger: bool, tools: Tools, d: Device, goal: string)
    requires Prints(tools)
    requires ShowWf(d) && Lower(d.state) == goal
    ensures BringStep(strict, logger, tools, d, d.name, goal).dev == d
    ensures BringStep(strict, logger, tools, d, d.name, goal).result ==
      if strict then Err(Raised(AlreadyInState(goal))) else Err(UnboundLocal("state"))
  {
    ShowReadings(tools, d);
  }

  /**
    `set_device_flag` reports success exactly when the setting passes the
    validity check (or the handler lets it through), the flag is one of the
    three reachable queries, the optional write succeeds and the flag is then
    listed.
  */
  lemma SetFlagSucceeds(v: Variant, tools: Tools, d: Device, target: string, flag: string, setting: PyValue)
    ensures SetFlagStep(v, tools, d, target, flag, setting).result == Ok(true) <==>
      (Truthy(setting) || (v.Handling? && !v.strict))
      && FlagFor(Lower(flag)).Some? && FlagFor(Lower(flag)).value != Allmulticast
      && WriteStep(v, tools, d, target, ToggleCommand(FlagFor(Lower(flag)).value, setting)).Ok?
      && HasFlag(tools, WriteStep(v, tools, d, target, ToggleCommand(FlagFor(Lower(flag)).value, setting)).value, target, FlagFor(Lower(flag)).value) == Ok(true)
  {
  }

  /**
    A truthy setting of a recognised flag, written by a kernel that leaves
    the flag listed, succeeds silently in both modules.
  */
  lemma SetFlagApplied(v: Variant, tools: Tools, d: Device, flag: string, k: FlagKind, setting: PyValue, d1: Device)
    requires Prints(tools)
    requires Truthy(setting)
    requires FlagFor(Lower(flag)) == Some(k) && k != Allmulticast
    requires Effect(tools, d, d.name, Toggle(k, ToggleOption(k, setting))) == Some(d1)
    requires d1.name == d.name && ShowWf(d1) && FlagName(k) in d1.flags
    ensures SetFlagStep(v, tools, d, d.name, flag, setting) == Step(Ok(true), d1, [])
  {
    FlagReading(tools, d1, k);
    HasFlagOf(tools, d1, d.name, k);
  }

  /**
    Switching ARP handling off is what sets NOARP, so `set_device_flag("noarp",
    True)` sends `arp on]`; a kernel that obeys the word clears NOARP, and the
    call then reports failure in both modules.
  */
  lemma NoarpOnFails(v: Variant, tools: Tools, d: Device, flag: string, d1: Device)
    requires Prints(tools)
    requires Lower(flag) == "noarp"
    requires Effect(tools, d, d.name, Toggle(Noarp, "on]")) == Some(d1)
    requires d1.name == d.name && ShowWf(d1) && FlagName(Noarp) !in d1.flags
    ensures SetFlagStep(v, tools, d, d.name, flag, PyBool(true)).dev == d1
    ensures v.Raising? ==> SetFlagStep(v, tools, d, d.name, flag, PyBool(true)).result == Err(AttributeSetSilentFail(FlagAttr(flag)))
    ensures v.Handling? && !v.strict ==> SetFlagStep(v, tools, d, d.name, flag, PyBool(true)).result == Ok(false)
    ensures v.Handling? && v.strict ==> SetFlagStep(v, tools, d, d.name, flag, PyBool(true)).result.Err?
  {
    assert ToggleOption(Noarp, PyBool(true)) == "on]";
    FlagReading(tools, d1, Noarp);
    HasFlagOf(tools, d1, d.name, Noarp);
  }

  /** `allmulti` never succeeds and never touches the device. */
  lemma SetFlagAllmulti(v: Variant, tools: Tools, d: Device, target: string, flag: string, setting: PyValue)
    requires Lower(flag) == "allmulti"
    ensures SetFlagStep(v, tools, d, target, flag, setting).dev == d
    ensures SetFlagStep(v, tools, d, target, flag, setting).result.Err?
  {
  }

  /**
    The error policy of `set_device_flag`: only permissive handling returns
    false, it never raises from the handler, the raising module logs nothing,
    and the device changes only by the selected flag write.
  */
  lemma SetFlagPolicy(v: Variant, tools: Tools, d: Device, target: string, flag: string, setting: PyValue)
    ensures SetFlagStep(v, tools, d, target, flag, setting).result == Ok(false) ==> v.Handling? && !v.strict
    ensures v.Handling? && !v.strict ==> !SetFlagStep(v, tools, d, target, flag, setting).result.IsRaised()
    ensures |SetFlagStep(v, tools, d, target, flag, setting).logged| <= (if v.Raising? || !v.logger then 0 else 2)
    ensures SetFlagStep(v, tools, d, target, flag, setting).dev == d
      || (FlagFor(Lower(flag)).Some? && ToggleCommand(FlagFor(Lower(flag)).value, setting).Some?
          && Some(SetFlagStep(v, tools, d, target, flag, setting).dev)
             == Effect(tools, d, target, ToggleCommand(FlagFor(Lower(flag)).value, setting).value))
  {
    DispatchPolicy(v, tools, d, target, flag, setting);
  }

  /** The error policy of the flag dispatch, with at most one logged line. */
  lemma DispatchPolicy(v: Variant, tools: Tools, d: Device, target: string, flag: string, setting: PyValue)
    ensures DispatchStep(v, tools, d, target, flag, setting).result == Ok(false) ==> v.Handling? && !v.strict
    ensures v.Handling? && !v.strict ==> !DispatchStep(v, tools, d, target, flag, setting).result.IsRaised()
    ensures |DispatchStep(v, tools, d, target, flag, setting).logged| <= (if v.Raising? || !v.logger then 0 else 1)
    ensures DispatchStep(v, tools, d, target, flag, setting).dev == d
      || (FlagFor(Lower(flag)).Some? && ToggleCommand(FlagFor(Lower(flag)).value, setting).Some?
          && Some(DispatchStep(v, tools, d, target, flag, setting).dev)
             == Effect(tools, d, target, ToggleCommand(FlagFor(Lower(flag)).value, setting).value))
  {
    var key := FlagFor(Lower(flag));
    if key.Some? && key.value != Allmulticast {
      FlagCheckPolicy(v, tools, d, target, flag, key.value, setting);
    }
  }

  /** The error policy of the flag write and check, with at most one logged line. */
  lemma FlagCheckPolicy(v: Variant, tools: Tools, d: Device, target: string, flag: string, k: FlagKind, setting: PyValue)
    ensures FlagCheckStep(v, tools, d, target, flag, k, setting).result == Ok(false) ==> v.Handling? && !v.strict
    ensures v.Handling? && !v.strict ==> !FlagCheckStep(v, tools, d, target, flag, k, setting).result.IsRaised()
    ensures |FlagCheckStep(v, tools, d, target, flag, k, setting).logged| <= (if v.Raising? || !v.logger then 0 else 1)
    ensures FlagCheckStep(v, tools, d, target, flag, k, setting).dev == d
      || (ToggleCommand(k, setting).Some?
          && Some(FlagCheckStep(v, tools, d, target, flag, k, setting).dev) == Effect(tools, d, target, ToggleCommand(k, setting).value))
  {
  }

  /**
    Under permissive handling, switching a flag off and succeeding at it is
    reported as a failure, since the flag is no longer listed.
  */
  lemma ClearingReportsFalse(logger: bool, tools: Tools, d: Device, target: string, flag: string)
    requires FlagFor(Lower(flag)).Some? && FlagFor(Lower(flag)).value != Allmulticast
    requires Effect(tools, d, target, Toggle(FlagFor(Lower(flag)).value, ToggleOption(FlagFor(Lower(flag)).value, PyBool(false)))).Some?
    requires HasFlag(tools, Effect(tools, d, target, Toggle(FlagFor(Lower(flag)).value, ToggleOption(FlagFor(Lower(flag)).value, PyBool(false)))).value, target, FlagFor(Lower(flag)).value) == Ok(false)
    ensures SetFlagStep(Handling(false, logger), tools, d, target, flag, PyBool(false)).result == Ok(false)
  {
  }
}
