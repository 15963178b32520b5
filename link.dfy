/**
  The environment the interface code runs against: one network device as the
  kernel holds it, the text `ip link show` and `iw dev ... info` print for it,
  and the commands that change it. The kernel's reaction to a command is an
  arbitrary function, so every property proved about the interface code holds
  whatever the kernel accepts, refuses or coerces.
*/
module Link {
  import opened Outcomes
  import opened Text
  import opened Parse

  /** Wireless state of a device: its interface type and its channel, if tuned. */
  datatype Radio = Radio(mode: string, channel: Option<int>)

  /** A network device as the kernel holds it. */
  datatype Device = Device(
    ifindex: nat,
    name: string,
    flags: seq<string>,
    state: string,
    ether: string,
    permaddr: Option<string>,
    alias: Option<string>,
    radio: Option<Radio>)

  /** The four device flags the interface code can toggle. */
  datatype FlagKind = Noarp | Multicast | Allmulticast | Promisc

  /** How the flag is spelled in the flag list of `ip link show`. */
  function FlagName(k: FlagKind): string {
    match k
    case Noarp => "NOARP"
    case Multicast => "MULTICAST"
    case Allmulticast => "ALLMULTICAST"
    case Promisc => "PROMISC"
  }

  /** The write commands the interface code issues, by their arguments. */
  datatype Command =
    | SetName(name: string)                    // ip link set <dev> name <name>
    | SetAlias(alias: string)                  // ip link set <dev> alias <alias>
    | SetAddress(address: string)              // ip link set <dev> address <address>
    | SetLinkState(state: string)              // ip link set <dev> <state>
    | Toggle(flag: FlagKind, option: string)   // ip link set <dev> arp|multicast|allmulticast|promisc <option>
    | SetType(mode: string)                    // iw dev <dev> set type <mode>
    | SetChannel(channel: string)              // iw dev <dev> set channel <channel>

  /**
    The space-separated tokens of `ip link show <dev>`, reduced to the fields
    the parsers consult but with the tool's line structure: every line ends in
    a newline, which stays glued to the line's last token, and a continuation
    line is indented by four spaces, which split into three empty tokens. The
    first line ends after `mode DEFAULT`; the second holds the link address,
    the broadcast address and the permanent address; the alias, if any, has a
    line of its own.
  */
  function ShowTokens(d: Device): seq<string> {
    [Str(d.ifindex) + ":", d.name + ":", "<" + Join(d.flags, ",") + ">", StateMarker, d.state, "mode", "DEFAULT\n"]
    + Indent + [EtherMarker, d.ether, "brd"]
    + (match d.permaddr case None => [Broadcast + "\n"] case Some(p) => [Broadcast, PermMarker, p + "\n"])
    + (match d.alias case None => [] case Some(a) => Indent + [AliasMarker, a + "\n"])
  }

  /** The four-space indent of a continuation line, as `split(" ")` sees it. */
  const Indent: seq<string> := ["", "", ""]

  /** The broadcast address of an Ethernet link. */
  const Broadcast: string := "ff:ff:ff:ff:ff:ff"

  /** A value printed at the end of its line is read with the line's newline attached. */
  function Lined(v: Option<string>): Option<string> {
    match v
    case None => None
    case Some(s) => Some(s + "\n")
  }

  function ShowText(d: Device): string {
    Join(ShowTokens(d), " ")
  }

  /** The space-separated tokens of `iw dev <dev> info`, reduced to those the parsers consult. */
  function InfoTokens(d: Device, r: Radio): seq<string> {
    ["Interface", d.name + "\n\tifindex", Str(d.ifindex) + "\n\taddr",
     d.ether + "\n\ttype", r.mode + "\n\twiphy"]
    + (match r.channel case None => ["0"] case Some(c) => ["0\n\tchannel", Str(c)])
  }

  function InfoText(d: Device, r: Radio): string {
    Join(InfoTokens(d, r), " ")
  }

  predicate IsMarker(t: string) {
    t in {AliasMarker, EtherMarker, PermMarker, StateMarker}
  }

  /** A value `ip link show` prints as one token that is not a marker word. */
  predicate Word(t: string) {
    |t| > 0 && ' ' !in t && !IsMarker(t)
  }

  predicate FlagWord(f: string) {
    |f| > 0 && ' ' !in f && ',' !in f && '<' !in f && '>' !in f
  }

  /** The device's fields print as the single tokens the parsers expect. */
  predicate ShowWf(d: Device) {
    ' ' !in d.name
    && (forall k :: 0 <= k < |d.flags| ==> FlagWord(d.flags[k]))
    && Word(d.state) && Word(d.ether)
    && (d.permaddr.Some? ==> Word(d.permaddr.value))
    && (d.alias.Some? ==> Word(d.alias.value))
  }

  lemma NoSpaceInNumber(n: int)
    ensures ' ' !in Str(n) && 'y' !in Str(n) && 'c' !in Str(n) && 'h' !in Str(n)
  {
  }

  lemma SuffixNotMarker(t: string, c: char)
    requires |t| > 0 && t[|t| - 1] == c && (c == ':' || c == '>' || c == '\n')
    ensures !IsMarker(t)
  {
  }

  /** A token that ends its line is never a marker word. */
  lemma LinedNotMarker(v: string)
    ensures !IsMarker(v + "\n")
  {
    SuffixNotMarker(v + "\n", '\n');
  }

  /** Every token of `ip link show` is free of spaces. */
  lemma ShowTokensFree(d: Device)
    requires ShowWf(d)
    ensures forall k :: 0 <= k < |ShowTokens(d)| ==> ' ' !in ShowTokens(d)[k]
  {
    NoSpaceInNumber(d.ifindex);
    JoinFree(d.flags, ",", ' ');
  }

  /** Splitting the printed output on spaces recovers its tokens. */
  lemma ShowTokenized(d: Device)
    requires ShowWf(d)
    ensures Tokens(ShowText(d)) == ShowTokens(d)
  {
    ShowTokensFree(d);
    SplitJoin(ShowTokens(d), ' ');
  }

  /** `state` and `link/ether` stand at 3 and 10, each followed by its value and not repeated. */
  lemma ShowLineMarkers(d: Device)
    requires ShowWf(d)
    ensures var t := ShowTokens(d);
      && |t| >= 14 && t[3] == StateMarker && t[10] == EtherMarker && t[4] == d.state && t[11] == d.ether
      && (forall j :: 3 < j < |t| ==> t[j] != StateMarker)
      && (forall j :: 10 < j < |t| ==> t[j] != EtherMarker)
  {
    LinedNotMarker("DEFAULT");
    LinedNotMarker(Broadcast);
    LinedValues(d);
  }

  /** `permaddr` stands at 14, followed by the permanent address, when the device has one. */
  lemma ShowPermMarker(d: Device)
    requires ShowWf(d)
    ensures var t := ShowTokens(d);
      && (d.permaddr.Some? ==> |t| >= 16 && t[14] == PermMarker && t[15] == d.permaddr.value + "\n"
                                && forall j :: 14 < j < |t| ==> t[j] != PermMarker)
      && (d.permaddr.None? ==> PermMarker !in t)
  {
    ShowHeadNotMarkers(d);
    LinedNotMarker("DEFAULT");
    LinedNotMarker(Broadcast);
    LinedValues(d);
  }

  /** `alias` is second to last, followed by the alias, when the device has one. */
  lemma ShowAliasMarker(d: Device)
    requires ShowWf(d)
    ensures var t := ShowTokens(d);
      && (d.alias.Some? ==> |t| >= 2 && t[|t| - 2] == AliasMarker && t[|t| - 1] == d.alias.value + "\n"
                             && t[|t| - 1] != AliasMarker)
      && (d.alias.None? ==> AliasMarker !in t)
  {
    ShowHeadNotMarkers(d);
    LinedNotMarker("DEFAULT");
    LinedNotMarker(Broadcast);
    LinedValues(d);
  }

  /** The first three tokens are never marker words. */
  lemma ShowHeadNotMarkers(d: Device)
    ensures !IsMarker(ShowTokens(d)[0]) && !IsMarker(ShowTokens(d)[1]) && !IsMarker(ShowTokens(d)[2])
  {
    var t := ShowTokens(d);
    SuffixNotMarker(t[0], ':');
    SuffixNotMarker(t[1], ':');
    SuffixNotMarker(t[2], '>');
  }

  /** The values that end a line are not marker words. */
  lemma LinedValues(d: Device)
    ensures d.permaddr.Some? ==> !IsMarker(d.permaddr.value + "\n")
    ensures d.alias.Some? ==> !IsMarker(d.alias.value + "\n")
  {
    if d.permaddr.Some? {
      LinedNotMarker(d.permaddr.value);
    }
    if d.alias.Some? {
      LinedNotMarker(d.alias.value);
    }
  }

  /**
    `__alias__` on well-formed output reads back the device's alias with the
    newline that ends its line.
  */
  lemma ShowAlias(d: Device)
    requires ShowWf(d)
    ensures AfterLast(Tokens(ShowText(d)), AliasMarker) == Ok(Lined(d.alias))
  {
    ShowTokenized(d);
    ShowAliasMarker(d);
    var t := ShowTokens(d);
    if d.alias.Some? {
      AfterLastAt(t, AliasMarker, |t| - 2);
    } else {
      AfterLastAbsent(t, AliasMarker);
    }
  }

  /** `__hwaddr__` on well-formed output reads back the device's address. */
  lemma ShowEther(d: Device)
    requires ShowWf(d)
    ensures AfterLast(Tokens(ShowText(d)), EtherMarker) == Ok(Some(d.ether))
  {
    ShowTokenized(d);
    ShowLineMarkers(d);
    AfterLastAt(ShowTokens(d), EtherMarker, 10);
  }

  /**
    `__permaddr__` on well-formed output reads back the permanent address,
    which ends the link line, with its newline.
  */
  lemma ShowPermaddr(d: Device)
    requires ShowWf(d)
    ensures AfterLast(Tokens(ShowText(d)), PermMarker) == Ok(Lined(d.permaddr))
  {
    ShowTokenized(d);
    ShowPermMarker(d);
    var t := ShowTokens(d);
    if d.permaddr.Some? {
      AfterLastAt(t, PermMarker, 14);
    } else {
      AfterLastAbsent(t, PermMarker);
    }
  }

  /** `__state__` on well-formed output reads back the state, lower-cased. */
  lemma ShowState(d: Device)
    requires ShowWf(d)
    ensures StateAfter(Tokens(ShowText(d))) == Ok(Some(Lower(d.state)))
  {
    ShowTokenized(d);
    ShowLineMarkers(d);
    AfterLastAt(ShowTokens(d), StateMarker, 3);
  }

  /**
    `__flags__` on well-formed output reads back the device's flags; an empty
    flag list reads back as one empty string, as Python's split of "" does.
  */
  lemma ShowFlags(d: Device)
    requires ShowWf(d)
    ensures ParseFlags(Tokens(ShowText(d))) == Ok(if d.flags == [] then [""] else d.flags)
  {
    ShowTokenized(d);
    var t := ShowTokens(d);
    assert |t| >= 3 && t[2] == "<" + Join(d.flags, ",") + ">";
    BracketedFlags(d.flags);
    assert ParseFlags(t) == Ok(Split(Strip(t[2], FlagBrackets), ","));
  }

  /** Stripping the brackets from a printed flag list and splitting it gives back the list. */
  lemma BracketedFlags(flags: seq<string>)
    requires forall k :: 0 <= k < |flags| ==> FlagWord(flags[k])
    ensures Split(Strip("<" + Join(flags, ",") + ">", FlagBrackets), ",") == if flags == [] then [""] else flags
  {
    FlagListUnframed(flags);
    if flags != [] {
      SplitJoin(flags, ',');
    } else {
      NoCharNoSplit("", ',');
    }
  }

  /** The brackets around a printed flag list strip off to leave exactly the joined flags. */
  lemma FlagListUnframed(flags: seq<string>)
    requires forall k :: 0 <= k < |flags| ==> FlagWord(flags[k])
    ensures Strip("<" + Join(flags, ",") + ">", FlagBrackets) == Join(flags, ",")
  {
    if flags != [] {
      JoinedFlagsEnds(flags);
    }
    Unbracket(Join(flags, ","));
  }

  /** Stripping the angle brackets around a text that neither starts nor ends with one. */
  lemma Unbracket(t: string)
    requires |t| > 0 ==> t[0] !in FlagBrackets && t[|t| - 1] !in FlagBrackets
    ensures Strip("<" + t + ">", FlagBrackets) == t
  {
    BracketsFrame();
    StripFrame("<", t, ">", FlagBrackets);
  }

  /** A joined flag list neither starts nor ends with a bracket. */
  lemma JoinedFlagsEnds(flags: seq<string>)
    requires flags != []
    requires forall k :: 0 <= k < |flags| ==> FlagWord(flags[k])
    ensures var s := Join(flags, ","); |s| > 0 && s[0] !in FlagBrackets && s[|s| - 1] !in FlagBrackets
  {
  }

  lemma BracketsFrame()
    ensures forall k :: 0 <= k < |"<"| ==> "<"[k] in FlagBrackets
    ensures forall k :: 0 <= k < |">"| ==> ">"[k] in FlagBrackets
  {
  }

  /** The device's fields print as the `iw` tokens the parsers expect. */
  predicate InfoWf(d: Device, r: Radio) {
    ' ' !in d.name && ' ' !in d.ether && ' ' !in r.mode
    && !Contains(d.name, TypeNeedle) && !Contains(d.name, ChannelNeedle)
    && !Contains(d.ether, TypeNeedle) && !Contains(d.ether, ChannelNeedle)
    && !Contains(r.mode, ChannelNeedle) && !Contains(r.mode, LineBreak)
  }

  lemma InfoTokenized(d: Device, r: Radio)
    requires InfoWf(d, r)
    ensures Tokens(InfoText(d, r)) == InfoTokens(d, r)
  {
    NoSpaceInNumber(d.ifindex);
    if r.channel.Some? {
      NoSpaceInNumber(r.channel.value);
    }
    SplitJoin(InfoTokens(d, r), ' ');
  }

  /** A line of `iw` output glued to the next line's keyword, which lacks `w[k]`. */
  lemma LineFree(x: string, rest: string, w: string, k: nat)
    requires !Contains(x, w)
    requires |rest| > 0 && rest[0] !in w
    requires k < |w| && w[k] !in rest
    ensures !Contains(x + rest, w)
  {
    MissingChar(rest, w, k);
    ConcatFree(x, rest, w);
  }

  lemma InterfaceWordFree()
    ensures !Contains("Interface", TypeNeedle) && !Contains("Interface", ChannelNeedle)
  {
    MissingChar("Interface", TypeNeedle, 1);
    MissingChar("Interface", ChannelNeedle, 1);
  }

  lemma IndexLineFree(n: nat)
    ensures !Contains(Str(n) + "\n\taddr", TypeNeedle) && !Contains(Str(n) + "\n\taddr", ChannelNeedle)
  {
    NoSpaceInNumber(n);
    MissingChar(Str(n) + "\n\taddr", TypeNeedle, 1);
    MissingChar(Str(n) + "\n\taddr", ChannelNeedle, 0);
  }

  /** Which of the first four `iw` tokens contain `type`. */
  lemma InfoTypeTokens(d: Device, r: Radio)
    requires InfoWf(d, r)
    ensures !Contains(InfoTokens(d, r)[0], TypeNeedle)
    ensures !Contains(InfoTokens(d, r)[1], TypeNeedle)
    ensures !Contains(InfoTokens(d, r)[2], TypeNeedle)
    ensures Contains(InfoTokens(d, r)[3], TypeNeedle)
  {
    var t := InfoTokens(d, r);
    assert t[0] == "Interface" && t[1] == d.name + "\n\tifindex" && t[2] == Str(d.ifindex) + "\n\taddr";
    assert t[3] == (d.ether + "\n\t") + TypeNeedle;
    HeadLinesTypeFree(d.name, d.ifindex);
    ContainsSuffix(d.ether + "\n\t", TypeNeedle);
  }

  lemma HeadLinesTypeFree(name: string, index: nat)
    requires !Contains(name, TypeNeedle)
    ensures !Contains("Interface", TypeNeedle)
    ensures !Contains(name + "\n\tifindex", TypeNeedle)
    ensures !Contains(Str(index) + "\n\taddr", TypeNeedle)
  {
    InterfaceWordFree();
    LineFree(name, "\n\tifindex", TypeNeedle, 1);
    IndexLineFree(index);
  }

  lemma FourthContains(t: seq<string>, w: string)
    requires |t| > 3
    requires !Contains(t[0], w) && !Contains(t[1], w) && !Contains(t[2], w) && Contains(t[3], w)
    ensures FirstContaining(t, w, 0) == Some(3)
  {
  }

  /** The first token containing `type` is the one ending the address line. */
  lemma InfoTypeToken(d: Device, r: Radio)
    requires InfoWf(d, r)
    ensures FirstContaining(InfoTokens(d, r), TypeNeedle, 0) == Some(3)
  {
    InfoTypeTokens(d, r);
    FourthContains(InfoTokens(d, r), TypeNeedle);
  }

  /** `__mode__` on well-formed output reads back the interface type. */
  lemma InfoMode(d: Device, r: Radio)
    requires InfoWf(d, r)
    ensures ModeAfter(Tokens(InfoText(d, r))) == Ok(Some(r.mode))
  {
    InfoTokenized(d, r);
    InfoModeTokens(d, r);
  }

  lemma InfoModeTokens(d: Device, r: Radio)
    requires InfoWf(d, r)
    ensures ModeAfter(InfoTokens(d, r)) == Ok(Some(r.mode))
  {
    InfoTypeToken(d, r);
    ModeLine(r.mode);
    assert InfoTokens(d, r)[4] == r.mode + "\n\twiphy";
  }

  /** The token after the type keyword splits into the mode and the next line's keyword. */
  lemma ModeLine(mode: string)
    requires !Contains(mode, LineBreak)
    ensures Split(mode + "\n\twiphy", LineBreak) == [mode, "wiphy"]
  {
    assert mode + "\n\twiphy" == mode + LineBreak + "wiphy";
    SplitLine(mode, "wiphy");
  }

  /**
    An interface type `iw` prints with a space in it, such as `mesh point`,
    spreads over two tokens. The token after the one ending in `type` is then
    only the first word, which holds no line break, so `__mode__` raises
    `ValueError` when it unpacks the split.
  */
  lemma SpacedModeFails(d: Device, r: Radio, word: string, rest: string)
    requires InfoWf(d, r.(mode := word)) && InfoWf(d, r.(mode := rest))
    ensures ModeAfter(Tokens(InfoText(d, r.(mode := word + " " + rest)))) == Err(ValueError)
  {
    var u := SpacedTokens(d, r, word, rest);
    SpacedJoin(d, r, word, rest);
    SpacedTokensFree(d, r, word, rest);
    SplitJoin(u, ' ');
    SpacedModeTokens(d, r, word, rest);
  }

  /** The `iw` tokens when the interface type is `word` and `rest` separated by a space. */
  function SpacedTokens(d: Device, r: Radio, word: string, rest: string): seq<string> {
    var t := InfoTokens(d, r.(mode := word));
    t[..4] + [word, rest + "\n\twiphy"] + t[5..]
  }

  lemma SpacedJoin(d: Device, r: Radio, word: string, rest: string)
    ensures InfoText(d, r.(mode := word + " " + rest)) == Join(SpacedTokens(d, r, word, rest), " ")
  {
    var t := InfoTokens(d, r.(mode := word));
    var s := InfoTokens(d, r.(mode := word + " " + rest));
    assert s[..4] == t[..4] && s[5..] == t[5..];
    assert s[4] == word + " " + (rest + "\n\twiphy");
    assert s == t[..4] + [word + " " + (rest + "\n\twiphy")] + t[5..];
    JoinSpliced(t[..4], word, rest + "\n\twiphy", t[5..], " ");
  }

  lemma SpacedTokensFree(d: Device, r: Radio, word: string, rest: string)
    requires InfoWf(d, r.(mode := word)) && InfoWf(d, r.(mode := rest))
    ensures var u := SpacedTokens(d, r, word, rest); |u| > 0 && forall k :: 0 <= k < |u| ==> ' ' !in u[k]
  {
    NoSpaceInNumber(d.ifindex);
    if r.channel.Some? {
      NoSpaceInNumber(r.channel.value);
    }
  }

  lemma SpacedModeTokens(d: Device, r: Radio, word: string, rest: string)
    requires InfoWf(d, r.(mode := word))
    ensures ModeAfter(SpacedTokens(d, r, word, rest)) == Err(ValueError)
  {
    var u := SpacedTokens(d, r, word, rest);
    InfoTypeTokens(d, r.(mode := word));
    FourthContains(u, TypeNeedle);
    assert u[4] == word;
  }

  /** No token before the one announcing the channel mentions `channel`. */
  lemma InfoHeadNoChannel(d: Device, r: Radio)
    requires InfoWf(d, r)
    ensures forall j :: 0 <= j < 5 ==> !Contains(InfoTokens(d, r)[j], ChannelNeedle)
  {
    var t := InfoTokens(d, r);
    assert t[0] == "Interface" && t[1] == d.name + "\n\tifindex" && t[2] == Str(d.ifindex) + "\n\taddr";
    assert t[3] == d.ether + "\n\ttype" && t[4] == r.mode + "\n\twiphy";
    HeadLinesChannelFree(d.name, d.ifindex, d.ether, r.mode);
  }

  lemma HeadLinesChannelFree(name: string, index: nat, ether: string, mode: string)
    requires !Contains(name, ChannelNeedle) && !Contains(ether, ChannelNeedle) && !Contains(mode, ChannelNeedle)
    ensures !Contains("Interface", ChannelNeedle)
    ensures !Contains(name + "\n\tifindex", ChannelNeedle)
    ensures !Contains(Str(index) + "\n\taddr", ChannelNeedle)
    ensures !Contains(ether + "\n\ttype", ChannelNeedle)
    ensures !Contains(mode + "\n\twiphy", ChannelNeedle)
  {
    InterfaceWordFree();
    LineFree(name, "\n\tifindex", ChannelNeedle, 0);
    IndexLineFree(index);
    LineFree(ether, "\n\ttype", ChannelNeedle, 0);
    LineFree(mode, "\n\twiphy", ChannelNeedle, 0);
  }

  /** `__channel__` on well-formed output reads back the channel, or nothing when untuned. */
  lemma InfoChannel(d: Device, r: Radio)
    requires InfoWf(d, r)
    ensures ChannelAfter(Tokens(InfoText(d, r))) == Ok(r.channel)
  {
    InfoTokenized(d, r);
    InfoHeadNoChannel(d, r);
    var t := InfoTokens(d, r);
    if r.channel.Some? {
      assert t[5] == "0\n\t" + ChannelNeedle;
      ContainsSuffix("0\n\t", ChannelNeedle);
      FirstContainingAt(t, ChannelNeedle, 5);
      ParseIntStr(r.channel.value);
    } else {
      MissingChar(t[5], ChannelNeedle, 0);
      assert FirstContaining(t, ChannelNeedle, 0).None?;
    }
  }

  /**
    The system tools an interface object drives: `run` decides how a write
    command changes a device or that it exits non-zero (`None`); `show` and
    `info` are what `ip link show` and `iw dev <dev> info` print for a device,
    `info` being `None` for a device without a radio.
  */
  datatype Tools = Tools(
    run: (Device, Command) -> Option<Device>,
    show: Device -> string,
    info: Device -> Option<string>)

  /** What `iw dev <dev> info` prints in the format modelled above. */
  function InfoOutput(d: Device): Option<string> {
    if d.radio.Some? then Some(InfoText(d, d.radio.value)) else None
  }

  /** Tools that print in the formats modelled above. */
  ghost predicate Prints(tools: Tools) {
    forall d :: tools.show(d) == ShowText(d) && tools.info(d) == InfoOutput(d)
  }

  /** The output of `ip link show <target>`; the command fails for an unknown device. */
  function ShowOf(tools: Tools, d: Device, target: string): Result<string> {
    if d.name == target then Ok(tools.show(d)) else Err(CalledProcessError)
  }

  /** The output of `iw dev <target> info`; the command fails for an unknown or wired device. */
  function InfoOf(tools: Tools, d: Device, target: string): Result<string> {
    if d.name == target && tools.info(d).Some? then Ok(tools.info(d).value) else Err(CalledProcessError)
  }

  /** The device after running `cmd` on `target`, or `None` for a non-zero exit. */
  function Effect(tools: Tools, d: Device, target: string, cmd: Command): Option<Device> {
    if d.name == target then tools.run(d, cmd) else None
  }

  /** The host operating system, holding the one device an interface object is bound to. */
  class Host {
    var dev: Device
    const tools: Tools

    constructor (dev: Device, tools: Tools)
      ensures this.dev == dev && this.tools == tools
    {
      this.dev := dev;
      this.tools := tools;
    }

    /** Runs a write command; `ok` is a zero exit status. */
    method Run(target: string, cmd: Command) returns (ok: bool)
      modifies this
      ensures ok == old(Effect(tools, dev, target, cmd)).Some?
      ensures dev == if ok then old(Effect(tools, dev, target, cmd)).value else old(dev)
    {
      var next := Effect(tools, dev, target, cmd);
      ok := next.Some?;
      if ok {
        dev := next.value;
      }
    }
  }
}
