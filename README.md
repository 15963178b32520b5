# Network interface objects, modelled in Dafny

This project models the two Python modules that represent one Linux network
interface as an object: `linuxnetworkinterfaces.py` and `networkinterfaces.py`.
An object is bound to a device by name. It reads the device's attributes by
running `ip link show <dev>` and `iw dev <dev> info`, splitting the output on
single spaces and scanning the tokens. It changes the device with `ip link set …`
and `iw dev … set …`, then re-reads the attribute it changed.

The two modules share almost all of their code and differ in how they treat
failure:

- `linuxnetworkinterfaces.py` (the *raising* module) wraps a failed write
  command in `SystemCallError`. It reports a setter that left the attribute
  unchanged as `AttributeSetSilentFailError`.
- `networkinterfaces.py` (the *handling* module) lets a failed command's
  `CalledProcessError` escape. It sends other anomalies to
  `__error_handler__`, which logs the message when a logger is configured. It
  then raises under strict error handling, or returns under permissive
  handling.

The model is one class, `Interfaces.Interface`. Its constant `variant` says
which module's policy the object follows (`Steps.Variant`: `Raising`, or
`Handling(strict, logger)`). Its constant `wireless` says whether it is a
`WirelessInterface`. Methods that exist only in one module or on one subclass
require the matching `variant` or `wireless`: the setters, `up`/`down`,
`__error_handler__`, and the `__mode__`/`__channel__` queries.

## Structure

- `outcomes.dfy`, module `Outcomes`: `Option`, the exceptions as `Failure`
  values, and `Result`, which supports `:-`. An exception becomes an `Err`, and
  the state changes made before the `raise` are kept.
- `text.dfy`, module `Text`: the Python string operations the code relies on.
  These are `in` on strings, `split`, `join`, `strip`, `lower` and `str`/`int`
  on integers. The module proves the facts the parsers need, for example that
  `split` undoes `join` and that `int(str(n)) == n`.
- `parse.dfy`, module `Parse`: the token scans, each as a specification
  function plus the loop the source runs (`ScanMarker`, `ScanMode`,
  `ScanChannel`). Each loop is proved equal to its function. `ScanState`
  has no loop of its own: it runs `ScanMarker` for `state` and lower-cases
  the value found. That is what the source's loop, which lower-cases each
  match, returns.
- `link.dfy`, module `Link`: the device as the kernel holds it, and the text
  the two tools print for it. It proves that every parser reads back the
  field it targets. It also holds the `Host` whose device the object drives.
  The kernel's reaction to a write (`Tools.run`) is an arbitrary function
  passed in, so the properties hold whatever the kernel accepts, refuses or
  changes. The tools' output (`Tools.show`, `Tools.info`) is also passed in.
  The round-trip lemmas assume `Prints(tools)`: the tools print in the
  modelled format, which keeps each tool's line structure:
  - In `ip link show`, every line ends in a newline, which stays on the
    line's last token after `split(" ")`. Each continuation line starts with
    four spaces, which split into three empty tokens.
  - In `iw dev … info`, each continuation line starts with a tab. The
    previous line's newline and that tab stay glued to the next keyword as
    `"\n\t"` (for example `"\n\ttype"`). The modelled text stops at the
    channel number, with no newline after it.
- `query.dfy`, module `Query`: what each read query returns for a device, and
  what `__init__` records.
- `steps.dfy`, module `Steps`: the multi-step operations as functions of the
  device. They give the result, the device afterwards and the logged lines
  (`up`/`down`, `set_device_flag`, the flag writes, the setter verdict). The
  lemmas about them state each module's error policy.
- `interfaces.dfy`, module `Interfaces`: the class. Every method is proved
  against the `Query` or `Steps` function that specifies it.

## Behaviour of the source kept as written

These behaviours of the code are modelled as written, although some are
evidently unintended. The lemmas named state each one:

- `set_device_flag("allmulti", …)` calls `self.__allmulti___`, with three
  trailing underscores. That attribute does not exist, so the call raises
  `AttributeError` in both modules without touching the device
  (`Steps.SetFlagAllmulti`).
- The raising module has no `__error_handler__`. A falsy setting in its
  `set_device_flag` therefore raises `AttributeError`. An unknown flag raises
  `Exception("Unsupported flag …")`.
- In `up()`/`down()`, a device already in the goal state goes to the error
  handler. Under permissive handling the comparison that follows then reads
  the never-assigned local `state`, so the call raises `UnboundLocalError`
  instead of returning (`Steps.BringAlreadyThere`).
- The flag writes pass `on` only for `True` (or `1`). The string `"on"` sends
  `off`, and the normalised `sval` is computed but never used
  (`Steps.OnOnlyForTrue`).
- The `arp`, `multicast` and `allmulticast` writes carry a stray `]` after the
  word. The kernel is free to reject such a write (`Steps.BracketedOption`).
- `set_device_flag` reports whether the flag is listed after the write, not
  whether the write took effect. Clearing a flag therefore reports failure
  (`Steps.ClearingReportsFalse`).
- `set_device_flag` matches `allmulti`, not the `ALLMULTICAST` that `ip`
  prints (`Steps.FlagForNames`).
- `__noarp__(True)` sends `arp on]`. Turning ARP on is what clears NOARP, so
  on a kernel that obeys the word, `set_device_flag("noarp", True)` reports
  failure in both modules (`Steps.NoarpOnFails`).
- `__alias__` and `__permaddr__` take the token after their marker from
  output split on single spaces. The alias and the permanent address each
  end a line, so the value comes back with the line's newline attached.
  `set_alias("x")` therefore records `"x\n"` (`Link.ShowAlias`,
  `Link.ShowPermaddr`, `Query.AliasReadsBack`).
- `__mode__` takes the one token after the token ending in `type`. `iw`
  prints some interface types with a space, such as `mesh point`. For those
  the next token is only `mesh`, which holds no line break, so unpacking its
  split raises `ValueError` (`Link.SpacedModeFails`). This is why the mode
  round-trip, `Link.InfoMode`, requires a mode without a space.
- Permissive handling does not silence failed commands. A failed write still
  raises `CalledProcessError` in the handling module, and so does every
  failed read in both modules (`Steps.CommandFailure`, `Steps.BringPolicy`,
  `Steps.SetFlagPolicy`).

## Model

| member | source | states |
|---|---|---|
| `Text.Find` | linuxnetworkinterfaces.py:307 | `w in s` finds the leftmost occurrence, and none exists when it reports none |
| `Text.ContainsChar` | linuxnetworkinterfaces.py:64 | a one-character needle is contained exactly when the character occurs |
| `Text.Split` | linuxnetworkinterfaces.py:64 | `split` always yields at least one piece |
| `Text.JoinSplit` | linuxnetworkinterfaces.py:125 | joining the pieces of a split with its separator gives back the string |
| `Text.SplitJoin` | linuxnetworkinterfaces.py:64 | splitting on one character undoes joining with it when no part contains it |
| `Text.StripFrame` | linuxnetworkinterfaces.py:125 | `strip("<>")` removes exactly a frame of bracket characters around an unbracketed middle |
| `Text.Lower` | linuxnetworkinterfaces.py:117 | `lower()` keeps the length, leaves no upper-case letter and maps each letter to its lower-case code |
| `Text.LowerIdempotent` | linuxnetworkinterfaces.py:192 | lower-casing twice equals lower-casing once |
| `Text.ParseIntStr` | linuxnetworkinterfaces.py:319-328 | `int(str(n)) == n` for every integer, so a channel written in decimal reads back unchanged |
| `Parse.LastIndex` | linuxnetworkinterfaces.py:67-70 | the index found holds the marker, no later token does, and none is found only when the marker is absent |
| `Parse.AfterLastAbsent` | linuxnetworkinterfaces.py:64-71 | the marker scan yields `None` exactly when the marker is absent |
| `Parse.AfterLastFails` | linuxnetworkinterfaces.py:69 | the marker scan raises `IndexError` exactly when the marker is the final token |
| `Parse.AfterLastAt` | linuxnetworkinterfaces.py:67-70 | the last occurrence of the marker decides the scan's value |
| `Parse.AfterLastFound` | linuxnetworkinterfaces.py:67-70 | a value the scan yields is the token after the last occurrence of the marker |
| `Parse.ScanMarker` | linuxnetworkinterfaces.py:64-71 | the alias/address/permaddr loop returns the token after the last marker, or `IndexError` for a final marker |
| `Parse.ScanState` | linuxnetworkinterfaces.py:112-119 | the state loop returns the lower-cased token after the last `state`, free of upper-case letters |
| `Parse.ParseFlags` | linuxnetworkinterfaces.py:124-126 | the flag parse raises `IndexError` exactly when the output has fewer than three tokens |
| `Parse.FlagsRejoin` | linuxnetworkinterfaces.py:125 | the flags joined with commas give the third token without its brackets, and no flag contains a comma |
| `Parse.FirstContaining` | linuxnetworkinterfaces.py:306-310 | the index found contains the needle and no earlier token does |
| `Parse.FirstContainingAt` | linuxnetworkinterfaces.py:306-310 | the first token containing the needle decides the scan |
| `Parse.SplitLine` | linuxnetworkinterfaces.py:309 | the token after `type` splits on `"\n\t"` into the mode and the next keyword |
| `Parse.ScanMode` | linuxnetworkinterfaces.py:303-312 | the mode loop stops at the first token containing `type` and unpacks the next one; an unpacking mismatch is `ValueError` |
| `Parse.ScanChannel` | linuxnetworkinterfaces.py:323-331 | the channel loop stops at the first token containing `channel` and applies `int()` to the next one |
| `Link.ShowAlias` | linuxnetworkinterfaces.py:64-71 | on well-formed `ip link show` output the alias scan reads back the device's alias with its line's newline attached, or `None` without an alias |
| `Link.ShowEther` | linuxnetworkinterfaces.py:82-89 | the address scan reads back the device's address |
| `Link.ShowPermaddr` | linuxnetworkinterfaces.py:95-102 | the permanent-address scan reads back the permanent address with the link line's newline attached, or `None` |
| `Link.ShowState` | linuxnetworkinterfaces.py:112-119 | the state scan reads back the device's state, lower-cased |
| `Link.ShowFlags` | linuxnetworkinterfaces.py:124-126 | the flag parse reads back the device's flags (`[""]` for none) |
| `Link.BracketedFlags` | linuxnetworkinterfaces.py:125 | stripping the brackets from a printed flag list and splitting on commas gives the list back |
| `Link.InfoMode` | linuxnetworkinterfaces.py:303-312 | on well-formed `iw` output the mode scan reads back a space-free interface type |
| `Link.SpacedModeFails` | linuxnetworkinterfaces.py:303-312 | an interface type printed with a space, such as `mesh point`, makes the mode scan raise `ValueError` |
| `Link.InfoChannel` | linuxnetworkinterfaces.py:323-331 | the channel scan reads back the channel, or `None` when untuned |
| `Link.Host.Run` | linuxnetworkinterfaces.py:49-51 | a write command changes the device as the kernel decides, and a non-zero exit leaves it unchanged |
| `Query.HasFlagOf` | linuxnetworkinterfaces.py:137-140 | a flag query answers whether the flag list holds that flag's name, the definition written out; `Query.FlagReading` carries the read-back |
| `Query.UnknownTarget` | linuxnetworkinterfaces.py:64 | every query of a name the device does not have raises `CalledProcessError` |
| `Query.ShowReadings` | linuxnetworkinterfaces.py:27-35 | the show-based queries of a device read back its address, state (lower-cased) and flags exactly, and its alias and permaddr with a trailing newline |
| `Query.FlagReading` | linuxnetworkinterfaces.py:36-39 | each flag attribute reads true exactly when the device holds the flag |
| `Query.InfoReadings` | linuxnetworkinterfaces.py:291-292 | the mode and channel of a wireless device read back as its radio settings |
| `Query.WiredInfo` | linuxnetworkinterfaces.py:303 | the mode and channel queries of a device without a radio raise `CalledProcessError` |
| `Query.AddressReadsBack` | linuxnetworkinterfaces.py:73-89 | an address the kernel applies is what `__hwaddr__` reads afterwards |
| `Query.StateReadsBack` | linuxnetworkinterfaces.py:104-119 | a state the kernel applies reads back lower-cased |
| `Query.AliasReadsBack` | linuxnetworkinterfaces.py:55-71 | an alias `a` the kernel applies reads back afterwards as `a` followed by a newline |
| `Query.RadioReadsBack` | linuxnetworkinterfaces.py:294-331 | a mode and channel the kernel applies are what `__mode__` and `__channel__` read afterwards |
| `Query.SnapshotRead` | linuxnetworkinterfaces.py:26-39 | when every query of `__init__` succeeds, the object records their answers, the definition written out; `Query.BindReadsDevice` carries what a real device yields |
| `Query.BindReadsDevice` | linuxnetworkinterfaces.py:21-39 | binding to a well-formed device by its own name succeeds and records the device's fields, the alias and permaddr with a trailing newline |
| `Query.BindWirelessToWired` | linuxnetworkinterfaces.py:281-292 | a wireless object bound to a device without a radio fails at the mode query |
| `Steps.CommandFailure` | linuxnetworkinterfaces.py:48-51 | a failed write raises `SystemCallError` in the raising module and `CalledProcessError` in the handling one |
| `Steps.HandlerLog` | networkinterfaces.py:46-56 | the handler logs one line exactly when a logger is set, at error level exactly under strict handling |
| `Steps.OnOff` | linuxnetworkinterfaces.py:132 | the option word is `on` exactly when the setting equals `True` |
| `Steps.ToggleOption` | linuxnetworkinterfaces.py:134 | the flag writes other than `promisc` append `]` to the option word |
| `Steps.WriteStep` | linuxnetworkinterfaces.py:133-136 | no command leaves the device; a command succeeds exactly when the kernel applies it, and otherwise raises the module's failure |
| `Steps.SetterResult` | linuxnetworkinterfaces.py:242-246 | the setter returns the re-read value, and fails silently exactly in the raising module when that value equals the earlier one |
| `Steps.FlagFor` | linuxnetworkinterfaces.py:192-201 | exactly the four lower-cased names select a flag query |
| `Steps.OnOnlyForTrue` | linuxnetworkinterfaces.py:132 | only `True` and `1` send `on`; the string `"on"` sends `off` |
| `Steps.BracketedOption` | linuxnetworkinterfaces.py:134 | the bracketed flag writes never pass a bare `on` or `off` |
| `Steps.FlagForNames` | linuxnetworkinterfaces.py:192-199 | `NOARP`, `MULTICAST` and `PROMISC` select their own query, and `ALLMULTICAST` selects none |
| `Steps.FlagForIgnoresCase` | linuxnetworkinterfaces.py:192-199 | two flag arguments that differ only in letter case select the same flag query, or none |
| `Text.LowerCaseless` | linuxnetworkinterfaces.py:192 | strings equal up to the case of their letters lower-case to the same string |
| `Steps.BringSucceeds` | networkinterfaces.py:173-189 | `up()` returns `True` exactly when the state differs first, the write succeeds and the state then equals the goal |
| `Steps.BringAlreadyThere` | networkinterfaces.py:178-186 | a device in the goal state raises the handler's exception (strict) or `UnboundLocalError` (permissive) |
| `Steps.BringPolicy` | networkinterfaces.py:173-207 | strict handling never returns `False`, permissive handling never raises from the handler, at most one line is logged, and only the state write changes the device |
| `Steps.BringReachesGoal` | networkinterfaces.py:191-207 | on a device not in the goal state whose kernel applies the write, `down()`/`up()` return `True` and log nothing |
| `Steps.BringFromGoal` | networkinterfaces.py:196-203 | on a device in the goal state nothing is written, and the call raises per the handling mode |
| `Steps.SetFlagSucceeds` | networkinterfaces.py:210-237 | `set_device_flag` returns `True` exactly when the setting passes, the flag is reachable, the write succeeds and the flag is then listed |
| `Steps.SetFlagApplied` | linuxnetworkinterfaces.py:183-210 | a truthy setting of a recognised flag that the kernel leaves listed succeeds silently in both modules |
| `Steps.SetFlagAllmulti` | networkinterfaces.py:223-224 | `allmulti` never succeeds and never touches the device |
| `Steps.SetFlagPolicy` | networkinterfaces.py:210-237 | only permissive handling returns `False`, it never raises from the handler, at most two lines are logged, and only the selected flag write changes the device |
| `Steps.DispatchPolicy` | networkinterfaces.py:218-229 | the flag dispatch logs at most one line and changes the device only by the flag write |
| `Steps.FlagCheckPolicy` | networkinterfaces.py:231-234 | the check after the flag write logs at most one line and changes the device only by that write |
| `Steps.ClearingReportsFalse` | networkinterfaces.py:231-234 | under permissive handling, successfully clearing a flag reports `False` |
| `Steps.NoarpOnFails` | linuxnetworkinterfaces.py:128-140 | `set_device_flag("noarp", True)` sends `arp on]`; when the kernel then drops NOARP, it fails silently (raising), returns `False` (permissive) or raises (strict), with the device as the kernel left it |
| `Interfaces.Interface.Bind` | linuxnetworkinterfaces.py:21-39 | `__init__` fails with the first failing query, or records `iface` as the name and exactly the snapshot of the device, and the flag attributes agree with the flag list |
| `Interfaces.Interface.Install` | linuxnetworkinterfaces.py:26-39 | recording what `__init__` read sets the name to `iface` and the attributes to the snapshot |
| `Interfaces.Interface.ReadRecord` | networkinterfaces.py:26-39 | the queries of `__init__` fail as the snapshot does, or yield it with agreeing flag attributes |
| `Interfaces.Interface.RunShow` | linuxnetworkinterfaces.py:64 | `ip link show` output split on spaces, or `CalledProcessError` |
| `Interfaces.Interface.RunInfo` | linuxnetworkinterfaces.py:303 | `iw dev … info` output split on spaces, or `CalledProcessError` |
| `Interfaces.Interface.ReadAlias` | linuxnetworkinterfaces.py:64-71 | `__alias__()` returns what `Query.AliasOf` specifies |
| `Interfaces.Interface.ReadHwaddr` | linuxnetworkinterfaces.py:82-89 | `__hwaddr__()` returns what `Query.HwaddrOf` specifies |
| `Interfaces.Interface.ReadPermaddr` | linuxnetworkinterfaces.py:95-102 | `__permaddr__()` returns what `Query.PermaddrOf` specifies |
| `Interfaces.Interface.ReadState` | linuxnetworkinterfaces.py:112-119 | `__state__()` returns what `Query.StateOf` specifies |
| `Interfaces.Interface.ReadFlags` | linuxnetworkinterfaces.py:124-126 | `__flags__()` returns what `Query.FlagsOf` specifies |
| `Interfaces.Interface.ReadFlag` | linuxnetworkinterfaces.py:137-140 | a flag query without a setting returns whether the flag is listed |
| `Interfaces.Interface.ReadMode` | linuxnetworkinterfaces.py:303-312 | `__mode__()` returns what `Query.ModeOf` specifies |
| `Interfaces.Interface.ReadChannel` | linuxnetworkinterfaces.py:323-331 | `__channel__()` returns what `Query.ChannelOf` specifies |
| `Interfaces.Interface.Write` | networkinterfaces.py:61-62 | a write leaves the device unchanged and raises on failure, or applies the kernel's change |
| `Interfaces.Interface.QueryName` | linuxnetworkinterfaces.py:44-53 | `__name__(set_name)` renames the device and then `iface`, and returns `iface` |
| `Interfaces.Interface.QueryAlias` | linuxnetworkinterfaces.py:55-71 | `__alias__(set_alias)` writes, then re-reads from the changed device |
| `Interfaces.Interface.QueryHwaddr` | linuxnetworkinterfaces.py:73-89 | `__hwaddr__(set_hwaddr)` writes, then re-reads from the changed device |
| `Interfaces.Interface.QueryState` | linuxnetworkinterfaces.py:104-119 | `__state__(set_state)` writes, then re-reads from the changed device |
| `Interfaces.Interface.QueryFlag` | linuxnetworkinterfaces.py:128-140 | a flag query writes the setting unless it is `None`, then reports whether the flag is listed |
| `Interfaces.Interface.QueryMode` | linuxnetworkinterfaces.py:294-312 | `__mode__(set_mode)` writes the type, then re-reads |
| `Interfaces.Interface.QueryChannel` | linuxnetworkinterfaces.py:314-331 | `__channel__(set_channel)` writes the channel in decimal, then re-reads |
| `Interfaces.Interface.SetName` | linuxnetworkinterfaces.py:224-231 | a failed rename raises and changes neither `iface` nor `name`; a successful one sets both to the new name, and the raising module then reports a rename to the name `iface` held before as a silent failure |
| `Interfaces.Interface.SetAlias` | linuxnetworkinterfaces.py:233-237 | writes the alias and records the value read back |
| `Interfaces.Interface.SetHwaddr` | linuxnetworkinterfaces.py:239-246 | writes the address, records the value read back, and in the raising module reports an unchanged address |
| `Interfaces.Interface.SetState` | linuxnetworkinterfaces.py:248-255 | writes the state, records the value read back, and in the raising module reports an unchanged state |
| `Interfaces.Interface.SetMode` | linuxnetworkinterfaces.py:338-345 | writes the mode, records the value read back, and in the raising module reports an unchanged mode |
| `Interfaces.Interface.SetChannel` | linuxnetworkinterfaces.py:347-354 | writes the channel, records the value read back, and in the raising module reports an unchanged channel |
| `Interfaces.Interface.ErrorHandler` | networkinterfaces.py:46-56 | logs the reason if a logger is set, then raises under strict handling or returns |
| `Interfaces.Interface.Bring` | networkinterfaces.py:173-189 | the shared body of `up()`/`down()` behaves as `Steps.BringStep` |
| `Interfaces.Interface.Up` | networkinterfaces.py:173-189 | `up()` brings the device to `up` as `Steps.BringStep` specifies |
| `Interfaces.Interface.Down` | networkinterfaces.py:191-207 | `down()` brings the device to `down` as `Steps.BringStep` specifies |
| `Interfaces.Interface.SetDeviceFlag` | networkinterfaces.py:210-237 | `set_device_flag` behaves as `Steps.SetFlagStep` in result, device and log, in either module |
| `Interfaces.Interface.Dispatch` | networkinterfaces.py:218-229 | the flag dispatch behaves as `Steps.DispatchStep` |
| `Interfaces.Interface.CheckFlag` | networkinterfaces.py:231-237 | the flag write and check behave as `Steps.FlagCheckStep` |

The handling module's versions of the same operations are modelled by the
same members with `variant` set to `Handling`. Their lines are:

- the queries: `networkinterfaces.py:58-171` and `276-307`;
- the setters: `networkinterfaces.py:326-354`;
- `__init__`: `networkinterfaces.py:21-44` and `263-274`.

## Left out

- Running processes: `subprocess` calls are replaced by the `Host` device and
  the `Tools` functions. The exact argument vectors are kept only as the
  `Link.Command` a write carries. Splitting a command line on spaces, so that
  a value with a space becomes several arguments, is not modelled.
- The output format of `ip` and `iw` keeps the tools' lines, with their
  newlines and indents, but only the fields the parsers consult. Real output
  carries more, such as `mtu`, `qdisc`, `qlen`, `altname`, `wiphy` and
  `txpower`. Only the round-trip lemmas depend on the format, through
  `Prints`.
- `start_management` and `stop_management`, and the `manager` and
  `manager_backend` fields: they delegate to the `NetworkManager` backend,
  which is not part of this model.
- `get_supported_channels`: its body is `pass`.
- The `debug`, `iface_type` and `default_mode` attributes: nothing reads them.
- Log message texts: a logged line keeps its level and a structured
  `Reason`, not the formatted string. Exception messages are dropped the
  same way.
- The unused local `sval` in `set_device_flag`.
- `lib/exceptions.py` and `setup.py`: the exception classes are names in
  `Outcomes.Failure`, and packaging is out of scope.
- `Text.Lower` lower-cases only ASCII letters, while Python's `lower()` is
  Unicode-aware. `Text.ParseInt` accepts ASCII digits with an optional sign
  and the surrounding whitespace Python strips. It does not accept Python's
  digit-group underscores or non-ASCII digits.
- `Steps.PyValue` covers `None`, booleans, integers and strings. Other
  argument types, such as floats, are not modelled.
- `Interfaces.Interface.SetName`, `SetHwaddr`, `SetState`, `SetMode`,
  `SetChannel`, `SetAlias`, `Up`, `Down`, `ErrorHandler`, `ReadMode`,
  `ReadChannel`, `QueryMode` and `QueryChannel` require the module or
  subclass that defines them. Calling them on another object raises
  `AttributeError` in Python, which the model does not represent.
- Aliasing between objects: two objects bound to the same `Host` share its
  device, but no lemma relates their recorded attributes.
