/**
  The parsers applied to the output of `ip link show <dev>` and
  `iw dev <dev> info`. The output is split on single spaces; each scan then
  walks the token list the way the interface code does.
*/
module Parse {
  import opened Outcomes
  import opened Text

  const AliasMarker: string := "alias"
  const EtherMarker: string := "link/ether"
  const PermMarker: string := "permaddr"
  const StateMarker: string := "state"
  const TypeNeedle: string := "type"
  const ChannelNeedle: string := "channel"
  /** What separates the mode word from the next line of `iw` output. */
  const LineBreak: string := "\n\t"
  const FlagBrackets: set<char> := {'<', '>'}

  /** `out.split(" ")`. */
  function Tokens(out: string): seq<string> {
    Split(out, " ")
  }

  /** The index of the last token equal to `marker`. */
  function LastIndex(parts: seq<string>, marker: string): (r: Option<nat>)
    ensures r.Some? ==> r.value < |parts| && parts[r.value] == marker
    ensures r.Some? ==> forall j :: r.value < j < |parts| ==> parts[j] != marker
    ensures r.None? ==> marker !in parts
  {
    if |parts| == 0 then None
    else if parts[|parts| - 1] == marker then Some(|parts| - 1)
    else LastIndex(parts[..|parts| - 1], marker)
  }

  /**
    What the marker scan yields: the token after the last exact occurrence of
    `marker`, nothing when it does not occur, and an index error when the
    marker is the final token.
  */
  function AfterLast(parts: seq<string>, marker: string): Result<Option<string>> {
    if |parts| > 0 && parts[|parts| - 1] == marker then Err(IndexError)
    else match LastIndex(parts, marker)
      case None => Ok(None)
      case Some(i) => Ok(Some(parts[i + 1]))
  }

  /** The marker scan finds nothing exactly when the marker is absent. */
  lemma AfterLastAbsent(parts: seq<string>, marker: string)
    ensures AfterLast(parts, marker) == Ok(None) <==> marker !in parts
  {
  }

  /** The marker scan fails exactly when the marker is the final token. */
  lemma AfterLastFails(parts: seq<string>, marker: string)
    ensures AfterLast(parts, marker).Err? <==> |parts| > 0 && parts[|parts| - 1] == marker
  {
  }

  /** An occurrence with no later occurrence decides the scan. */
  lemma AfterLastAt(parts: seq<string>, marker: string, i: nat)
    requires i + 1 < |parts| && parts[i] == marker
    requires forall j :: i < j < |parts| ==> parts[j] != marker
    ensures AfterLast(parts, marker) == Ok(Some(parts[i + 1]))
  {
  }

  /** A value found by the scan follows the last occurrence of the marker. */
  lemma AfterLastFound(parts: seq<string>, marker: string) returns (i: nat)
    requires AfterLast(parts, marker).Ok? && AfterLast(parts, marker).value.Some?
    ensures i + 1 < |parts| && parts[i] == marker
    ensures forall j :: i < j < |parts| ==> parts[j] != marker
    ensures AfterLast(parts, marker).value.value == parts[i + 1]
  {
    i := LastIndex(parts, marker).value;
  }

  /**
    The scan loop behind `__alias__`, `__hwaddr__`, `__permaddr__` and
    `__state__`: walk every token keeping the one after each match.
  */
  method ScanMarker(parts: seq<string>, marker: string) returns (r: Result<Option<string>>)
    ensures r == AfterLast(parts, marker)
  {
    var found: Option<string> := None;
    var index := 0;
    while index < |parts|
      invariant 0 <= index <= |parts|
      invariant forall j :: 0 <= j < index && parts[j] == marker ==> j + 1 < |parts|
      invariant LastIndex(parts[..index], marker).None? ==> found == None
      invariant LastIndex(parts[..index], marker).Some? ==>
        LastIndex(parts[..index], marker).value + 1 < |parts| &&
        found == Some(parts[LastIndex(parts[..index], marker).value + 1])
    {
      if parts[index] == marker {
        if index + 1 >= |parts| {
          return Err(IndexError);
        }
        found := Some(parts[index + 1]);
      }
      assert parts[..index + 1][..index] == parts[..index];
      index := index + 1;
    }
    assert parts[..index] == parts;
    return Ok(found);
  }

  /** `__state__` lower-cases the token after the last `state` marker. */
  function StateAfter(parts: seq<string>): Result<Option<string>> {
    match AfterLast(parts, StateMarker)
    case Ok(Some(v)) => Ok(Some(Lower(v)))
    case other => other
  }

  method ScanState(parts: seq<string>) returns (r: Result<Option<string>>)
    ensures r == StateAfter(parts)
    ensures r.Ok? && r.value.Some? ==> forall i :: 0 <= i < |r.value.value| ==> !IsUpper(r.value.value[i])
  {
    r := ScanMarker(parts, StateMarker);
    if r.Ok? && r.value.Some? {
      r := Ok(Some(Lower(r.value.value)));
    }
  }

  lemma SplitOnCharFree(s: string, c: char)
    ensures forall k :: 0 <= k < |Split(s, [c])| ==> c !in Split(s, [c])[k]
  {
    SplitPiecesFree(s, [c]);
    forall k | 0 <= k < |Split(s, [c])|
      ensures c !in Split(s, [c])[k]
    {
      ContainsChar(Split(s, [c])[k], c);
    }
  }

  /** `__flags__`: the third token with its angle brackets stripped, split on commas. */
  function ParseFlags(parts: seq<string>): (r: Result<seq<string>>)
    ensures r.Err? <==> |parts| < 3
    ensures r.Err? ==> r.error == IndexError
  {
    if |parts| < 3 then Err(IndexError)
    else Ok(Split(Strip(parts[2], FlagBrackets), ","))
  }

  /**
    The flags `__flags__` reads, joined back with commas, give the bracketed
    text without its brackets, and no flag contains a comma.
  */
  lemma FlagsRejoin(parts: seq<string>)
    requires |parts| >= 3
    ensures |ParseFlags(parts).value| >= 1
    ensures Join(ParseFlags(parts).value, ",") == Strip(parts[2], FlagBrackets)
    ensures forall k :: 0 <= k < |ParseFlags(parts).value| ==> ',' !in ParseFlags(parts).value[k]
  {
    var inner := Strip(parts[2], FlagBrackets);
    JoinSplit(inner, ",");
    SplitOnCharFree(inner, ',');
  }

  /** The index of the first token at or after `from` that contains `w`. */
  function FirstContaining(parts: seq<string>, w: string, from: nat): (r: Option<nat>)
    decreases |parts| - from
    ensures r.Some? ==> from <= r.value < |parts| && Contains(parts[r.value], w)
    ensures r.Some? ==> forall j :: from <= j < r.value ==> !Contains(parts[j], w)
    ensures r.None? ==> forall j :: from <= j < |parts| ==> !Contains(parts[j], w)
  {
    if from >= |parts| then None
    else if Contains(parts[from], w) then Some(from)
    else FirstContaining(parts, w, from + 1)
  }

  lemma FirstContainingAt(parts: seq<string>, w: string, i: nat)
    requires i < |parts| && Contains(parts[i], w)
    requires forall j :: 0 <= j < i ==> !Contains(parts[j], w)
    ensures FirstContaining(parts, w, 0) == Some(i)
  {
  }

  /**
    What `__mode__` yields: for the first token containing `type`, the next
    token must split on a line break into exactly two pieces, and the first
    piece is the mode.
  */
  function ModeAfter(parts: seq<string>): Result<Option<string>> {
    match FirstContaining(parts, TypeNeedle, 0)
    case None => Ok(None)
    case Some(i) =>
      if i + 1 >= |parts| then Err(IndexError)
      else
        var halves := Split(parts[i + 1], LineBreak);
        if |halves| != 2 then Err(ValueError) else Ok(Some(halves[0]))
  }

  /**
    A word followed by a line break and a line without line feeds splits into
    exactly the word and that line.
  */
  lemma SplitLine(x: string, y: string)
    requires !Contains(x, LineBreak) && '\n' !in y
    ensures Split(x + LineBreak + y, LineBreak) == [x, y]
  {
    var s := x + LineBreak + y;
    assert s[|x|..|x| + 2] == LineBreak;
    assert OccursAt(s, LineBreak, |x|);
    forall j: nat | j < |x|
      ensures !OccursAt(s, LineBreak, j)
    {
      if j + 2 <= |x| {
        assert s[j..j + 2] == x[j..j + 2];
        assert !OccursAt(x, LineBreak, j);
      } else {
        assert s[j..j + 2][1] == '\n';
      }
    }
    assert Find(s, LineBreak, 0) == Some(|x|);
    assert s[..|x|] == x && s[|x| + 2..] == y;
    MissingChar(y, LineBreak, 0);
  }

  /** The scan loop of `__mode__`, which stops at the first match. */
  method ScanMode(parts: seq<string>) returns (r: Result<Option<string>>)
    ensures r == ModeAfter(parts)
  {
    var mode: Option<string> := None;
    var index := 0;
    while index < |parts|
      invariant 0 <= index <= |parts|
      invariant forall j :: 0 <= j < index ==> !Contains(parts[j], TypeNeedle)
      invariant mode == None
    {
      if Contains(parts[index], TypeNeedle) {
        if index + 1 >= |parts| {
          FirstContainingAt(parts, TypeNeedle, index);
          return Err(IndexError);
        }
        var halves := Split(parts[index + 1], LineBreak);
        if |halves| != 2 {
          FirstContainingAt(parts, TypeNeedle, index);
          return Err(ValueError);
        }
        mode := Some(halves[0]);
        FirstContainingAt(parts, TypeNeedle, index);
        assert ModeAfter(parts) == Ok(mode);
        break;
      }
      index := index + 1;
    }
    return Ok(mode);
  }

  /**
    What `__channel__` yields: `int()` of the token after the first token
    containing `channel`.
  */
  function ChannelAfter(parts: seq<string>): Result<Option<int>> {
    match FirstContaining(parts, ChannelNeedle, 0)
    case None => Ok(None)
    case Some(i) =>
      if i + 1 >= |parts| then Err(IndexError)
      else match ParseInt(parts[i + 1])
        case None => Err(ValueError)
        case Some(n) => Ok(Some(n))
  }

  /** The scan loop of `__channel__`, which stops at the first match. */
  method ScanChannel(parts: seq<string>) returns (r: Result<Option<int>>)
    ensures r == ChannelAfter(parts)
  {
    var channel: Option<int> := None;
    var index := 0;
    while index < |parts|
      invariant 0 <= index <= |parts|
      invariant forall j :: 0 <= j < index ==> !Contains(parts[j], ChannelNeedle)
      invariant channel == None
    {
      if Contains(parts[index], ChannelNeedle) {
        FirstContainingAt(parts, ChannelNeedle, index);
        if index + 1 >= |parts| {
          return Err(IndexError);
        }
        var n := ParseInt(parts[index + 1]);
        if n.None? {
          return Err(ValueError);
        }
        channel := Some(n.value);
        break;
      }
      index := index + 1;
    }
    return Ok(channel);
  }
}
