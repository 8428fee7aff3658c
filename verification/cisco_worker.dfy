/** The switch worker. It drives the command line of a Cisco switch over a
    serial line: each command is written, and whatever text the switch prints
    back is read as the answer. The line itself is abstracted to a `Device`,
    a function from the commands sent so far and the new command to the
    answer text (or `None` when the transport raises). The worker keeps the
    log of commands it has written, and a log of the `(port, vlan)` requests
    made of `assign_port_to_vlan`, which is how the handlers' switch effects
    are observed. */
module Switch {
  import opened Common
  import BoxStore
  import ScreenStore

  // ---------------------------------------------------------------------
  // Commands

  /** The commands the worker writes. `Text` gives the line put on the wire. */
  datatype Command =
    | EnableCmd
    | Secret(password: string)
    | Blank
    | ConfigureCmd
    | EndCmd
    | ShowVlan(vlan: string)
    | CreateVlanCmd(vlan: string, name: Option<string>)
    | Interface(port: string)
    | AccessMode
    | AccessVlan(vlan: string)
    | NoShutdown
    | ShowSwitchport(port: string)
    | ShowStatus(port: string)
    | ShowAllStatus
    | ShowVlanBrief

  function Text(c: Command): string {
    match c
    case EnableCmd => "enable"
    case Secret(pw) => pw
    case Blank => ""
    case ConfigureCmd => "configure terminal"
    case EndCmd => "end"
    case ShowVlan(v) => "show vlan id " + v
    case CreateVlanCmd(v, name) => if Truthy(name) then "vlan " + v + "\nname " + name.value else "vlan " + v
    case Interface(p) => "interface " + p
    case AccessMode => "switchport mode access"
    case AccessVlan(v) => "switchport access vlan " + v
    case NoShutdown => "no shutdown"
    case ShowSwitchport(p) => "show interfaces " + p + " switchport"
    case ShowStatus(p) => "show interfaces " + p + " status"
    case ShowAllStatus => "show interfaces status"
    case ShowVlanBrief => "show vlan brief"
  }

  const ConfigIndicator: string := "(config)"

  /** What the switch answers to `cmd` after the commands `history`; `None` is
      a transport error. */
  type Device = (seq<Command>, Command) -> Option<string>

  /** One request to put a port into an access VLAN. */
  datatype PortCall = PortCall(port: string, vlan: string)

  datatype LinkState = Active | Inactive | Unknown

  /** A port report; duplex, speed and media type are always empty in the
      source and are not carried. */
  datatype PortInfo = PortInfo(port: string, status: LinkState, vlan: Option<string>)

  datatype VlanInfo = VlanInfo(id: string, name: string)

  datatype SwitchInfo = SwitchInfo(connected: bool, ports: seq<PortInfo>, vlans: seq<VlanInfo>)

  /** The commands one operation writes and its outcome. */
  datatype Run<T> = Run(sent: seq<Command>, out: Reply<T>)

  /** How far the way into configuration mode got. */
  datatype Prompt = Refused | Ready(entered: bool)

  /** The port configuration block, in the order it is written. */
  function PortSetup(p: string, v: string): seq<Command> {
    [Interface(p), AccessMode, AccessVlan(v), NoShutdown, EndCmd]
  }

  function EnableCmds(password: Option<string>): set<Command> {
    if Truthy(password) then {EnableCmd, Secret(password.value), Blank} else {EnableCmd, Blank}
  }

  function ConfigCmds(): set<Command> {
    {Blank, EnableCmd, ConfigureCmd}
  }

  function CreateVlanCmds(v: string, name: Option<string>): set<Command> {
    ConfigCmds() + {ShowVlan(v), CreateVlanCmd(v, name), EndCmd}
  }

  function AssignPortCmds(p: string, v: string): set<Command> {
    CreateVlanCmds(v, None) + {Interface(p), AccessMode, AccessVlan(v), NoShutdown}
  }

  // ---------------------------------------------------------------------
  // Command logs

  /** `after` is `before` followed only by commands from `allowed`. */
  ghost predicate Extends(before: seq<Command>, after: seq<Command>, allowed: set<Command>) {
    |before| <= |after| && after[..|before|] == before &&
    forall k :: |before| <= k < |after| ==> after[k] in allowed
  }

  lemma ExtendsTrans(a: seq<Command>, b: seq<Command>, c: seq<Command>, s: set<Command>)
    requires Extends(a, b, s) && Extends(b, c, s)
    ensures Extends(a, c, s)
  {
    assert c[..|a|] == c[..|b|][..|a|];
  }

  lemma ExtendsWider(a: seq<Command>, b: seq<Command>, s: set<Command>, t: set<Command>)
    requires Extends(a, b, s) && s <= t
    ensures Extends(a, b, t)
  {
  }

  lemma ExtendsStep(a: seq<Command>, b: seq<Command>, c: seq<Command>, x: Command, s: set<Command>)
    requires Extends(a, b, s) && c == b + [x] && x in s
    ensures Extends(a, c, s)
  {
    assert c[..|a|] == b[..|a|];
  }

  /** Leaving configuration mode writes at most "end" and an empty line. */
  lemma ExtendsExit(b: seq<Command>, c: seq<Command>, s: set<Command>)
    requires c == b || c == b + [EndCmd] || c == b + [EndCmd, Blank]
    requires EndCmd in s && Blank in s
    ensures Extends(b, c, s)
  {
    assert c[..|b|] == b;
  }

  /** The port block followed by the empty line that leaving configuration mode adds. */
  function PortBlock(p: string, v: string): seq<Command> {
    PortSetup(p, v) + [Blank]
  }

  /** Any beginning of the port block extends a log with port-assignment commands;
      the whole block, with or without the empty line, ends the log. */
  lemma BlockExtends(a: seq<Command>, b: seq<Command>, p: string, v: string)
    requires |a| <= |b| <= |a| + |PortBlock(p, v)|
    requires b == a + PortBlock(p, v)[..|b| - |a|]
    ensures Extends(a, b, AssignPortCmds(p, v))
    ensures b == a + PortSetup(p, v) ==> EndsWith(b, PortSetup(p, v))
    ensures b == a + PortBlock(p, v) ==> EndsWith(b, PortSetup(p, v) + [Blank])
  {
    assert b[..|a|] == a;
    forall k | |a| <= k < |b| ensures b[k] in AssignPortCmds(p, v) {
      assert b[k] == PortBlock(p, v)[k - |a|];
    }
  }

  predicate EndsWith(h: seq<Command>, tail: seq<Command>) {
    |tail| <= |h| && h[|h| - |tail|..] == tail
  }

  /** The device's answer, as a call that may raise. */
  function Answer(dev: Device, h: seq<Command>, cmd: Command): Reply<string> {
    match dev(h, cmd)
    case Some(t) => Ok(t)
    case None => Raised(LinkError)
  }

  /** The text answered to `cmd` after `h` (empty if it raised). */
  function Heard(dev: Device, h: seq<Command>, cmd: Command): string {
    match Answer(dev, h, cmd)
    case Ok(t) => t
    case Raised(_) => ""
  }

  /** The text answered to the `k`-th command of a log. */
  function ReplyText(dev: Device, h: seq<Command>, k: int): string
    requires 0 <= k < |h|
  {
    Heard(dev, h[..k], h[k])
  }

  /** Later commands do not change what earlier commands were answered. */
  lemma ReplyTextStable(dev: Device, h: seq<Command>, h': seq<Command>, k: int)
    requires 0 <= k < |h| <= |h'| && h'[..|h|] == h
    ensures ReplyText(dev, h', k) == ReplyText(dev, h, k)
  {
    assert h'[..k] == h[..k];
  }

  // ---------------------------------------------------------------------
  // Reading answers

  /** `vlan_exists`: the answer does not contain the case-sensitive "not found" message. */
  predicate VlanPresent(t: string, v: string) {
    !Contains(t, "VLAN " + v + " not found") && !Contains(t, "VLAN" + v + " not found")
  }

  /** The check fails exactly when one of the two messages occurs somewhere in the answer. */
  lemma VlanPresentIff(t: string, v: string)
    ensures !VlanPresent(t, v) <==> exists i: nat :: OccursAt(t, "VLAN " + v + " not found", i) || OccursAt(t, "VLAN" + v + " not found", i)
  {
    ContainsIff(t, "VLAN " + v + " not found");
    ContainsIff(t, "VLAN" + v + " not found");
  }

  /** A string none of whose characters is the first character of `t` does not contain `t`. */
  lemma {:induction false} MissingFirstChar(s: string, t: string)
    requires |t| > 0
    requires forall i :: 0 <= i < |s| ==> s[i] != t[0]
    ensures !Contains(s, t)
    decreases |s|
  {
    if |t| <= |s| {
      assert s[..|t|][0] == s[0];
      if |s| > 0 {
        MissingFirstChar(s[1..], t);
      }
    }
  }

  /** The check is case-sensitive: a lower-cased answer never reads as
      "absent", not even the lower-cased "not found" message itself. */
  lemma VlanCheckCaseSensitive(t: string, v: string)
    ensures VlanPresent(Lower(t), v)
  {
    var low := Lower(t);
    assert forall i :: 0 <= i < |low| ==> low[i] != 'V';
    assert ("VLAN " + v + " not found")[0] == 'V';
    assert ("VLAN" + v + " not found")[0] == 'V';
    MissingFirstChar(low, "VLAN " + v + " not found");
    MissingFirstChar(low, "VLAN" + v + " not found");
  }

  /** The switch's own message, wherever it sits in the answer, reads as "absent". */
  lemma VlanCheckFindsMessage(v: string, before: string, after: string)
    ensures !VlanPresent(before + ("VLAN " + v + " not found") + after, v)
  {
    ContainsInfix(before, "VLAN " + v + " not found", after);
  }

  predicate PasswordPrompt(t: string) {
    Contains(t, "Password:") || Contains(Lower(t), "password:")
  }

  predicate InConfigPrompt(t: string) {
    Contains(Lower(t), "config") || Contains(Lower(t), ConfigIndicator)
  }

  predicate ReadsActive(t: string) {
    Contains(Lower(t), "connected") || Contains(Lower(t), "up")
  }

  predicate ReadsInactive(t: string) {
    Contains(Lower(t), "notconnect") || Contains(Lower(t), "down")
  }

  /** The status words of a lower-cased answer: active wins over inactive,
      and an answer with neither is unknown. */
  function ClassifyStatus(t: string): (s: LinkState)
    ensures s == Active <==> ReadsActive(t)
    ensures s == Inactive <==> !ReadsActive(t) && ReadsInactive(t)
    ensures s == Unknown <==> !ReadsActive(t) && !ReadsInactive(t)
  {
    var l := Lower(t);
    if Contains(l, "connected") || Contains(l, "up") then Active
    else if Contains(l, "notconnect") || Contains(l, "down") then Inactive
    else Unknown
  }

  /** Any answer carrying the "Duplex" column header reads as active, since
      "duplex" contains "up". */
  lemma DuplexHeaderReadsActive(t: string)
    requires Contains(t, "Duplex")
    ensures ClassifyStatus(t) == Active
  {
    ContainsIff(t, "Duplex");
    var i: nat :| OccursAt(t, "Duplex", i);
    assert t[i + 1] == 'u' && t[i + 2] == 'p' by {
      assert t[i..i + 6] == "Duplex";
      assert t[i + 1] == t[i..i + 6][1] && t[i + 2] == t[i..i + 6][2];
    }
    UpAt(Lower(t), i + 1);
  }

  /** A "u" followed by a "p" is an occurrence of "up". */
  lemma UpAt(l: string, j: nat)
    requires j + 2 <= |l| && l[j] == 'u' && l[j + 1] == 'p'
    ensures Contains(l, "up")
  {
    assert l[j..j + 2] == "up";
    assert OccursAt(l, "up", j);
    ContainsIff(l, "up");
  }

  /** The per-line status of `get_all_ports_status`: active or inactive, never unknown. */
  function LineStatus(line: string): (s: LinkState)
    ensures s != Unknown
    ensures s == Active <==> ClassifyStatus(line) == Active
  {
    var l := Lower(line);
    if Contains(l, "connected") || Contains(l, "up") then Active else Inactive
  }

  // The two fixed patterns of `get_port_vlan`, matched case-insensitively:
  // `Access Mode VLAN:\s*(\d+)` and `VLAN\s+(\d+)`.

  datatype Pattern = AccessModeVlan | VlanNumber

  function Keyword(p: Pattern): string {
    match p
    case AccessModeVlan => "access mode vlan:"
    case VlanNumber => "vlan"
  }

  /** Least number of whitespace characters between keyword and digits. */
  function MinSpaces(p: Pattern): nat {
    match p
    case AccessModeVlan => 0
    case VlanNumber => 1
  }

  /** End of the maximal run of digits starting at `j`. */
  function DigitRun(s: string, j: nat): (e: nat)
    requires j <= |s|
    ensures j <= e <= |s|
    ensures forall k :: j <= k < e ==> IsDigit(s[k])
    ensures e < |s| ==> !IsDigit(s[e])
    decreases |s| - j
  {
    if j < |s| && IsDigit(s[j]) then DigitRun(s, j + 1) else j
  }

  /** The captured digits of a match of `p` starting at index `i`, if one starts there. */
  function MatchAt(p: Pattern, s: string, i: nat): (r: Option<string>)
    requires i <= |s|
    ensures r.Some? ==> IsDigits(r.value)
  {
    var kw := Keyword(p);
    if i + |kw| <= |s| && Lower(s[i..i + |kw|]) == kw then
      var j := SkipSpace(s, i + |kw|);
      if j - (i + |kw|) >= MinSpaces(p) && j < |s| && IsDigit(s[j]) then
        var e := DigitRun(s, j);
        assert forall k :: 0 <= k < e - j ==> s[j..e][k] == s[j + k];
        Some(s[j..e])
      else None
    else None
  }

  /** `i` is the leftmost index where `p` matches. */
  ghost predicate FirstMatch(p: Pattern, s: string, i: int) {
    0 <= i <= |s| && MatchAt(p, s, i).Some? && forall k :: 0 <= k < i ==> MatchAt(p, s, k).None?
  }

  /** The leftmost index at or after `from` where `p` matches, or `|s| + 1` if none. */
  function FindFrom(p: Pattern, s: string, from: nat): (i: nat)
    requires from <= |s|
    ensures from <= i <= |s| + 1
    ensures i <= |s| ==> MatchAt(p, s, i).Some?
    ensures forall k :: from <= k < i && k <= |s| ==> MatchAt(p, s, k).None?
    decreases |s| - from
  {
    if MatchAt(p, s, from).Some? then from
    else if from == |s| then |s| + 1
    else FindFrom(p, s, from + 1)
  }

  /** `re.search`: the captured digits of the leftmost match. */
  function Search(p: Pattern, s: string): (r: Option<string>)
    ensures r.Some? ==> IsDigits(r.value)
  {
    var i := FindFrom(p, s, 0);
    if i <= |s| then MatchAt(p, s, i) else None
  }

  /** The search fails exactly when the pattern matches nowhere, and otherwise
      captures at the leftmost match. */
  lemma SearchLeftmost(p: Pattern, s: string)
    ensures Search(p, s).None? <==> forall i :: 0 <= i <= |s| ==> MatchAt(p, s, i).None?
    ensures forall i :: FirstMatch(p, s, i) ==> Search(p, s) == MatchAt(p, s, i)
  {
    var f := FindFrom(p, s, 0);
    forall i | FirstMatch(p, s, i) ensures i == f {
      assert f <= |s| ==> MatchAt(p, s, f).Some?;
    }
  }

  /** `get_port_vlan`'s reading: the "Access Mode VLAN:" digits if that pattern
      matches anywhere, else the digits after the first "VLAN" and whitespace. */
  function PortVlan(t: string): (r: Option<string>)
    ensures r.Some? ==> IsDigits(r.value)
  {
    var access := Search(AccessModeVlan, t);
    if access.Some? then access else Search(VlanNumber, t)
  }

  /** The reading finds nothing exactly when neither pattern matches anywhere; a
      matching access line wins, at its leftmost match; otherwise the VLAN line decides. */
  lemma PortVlanPrefersAccessLine(t: string)
    ensures PortVlan(t).None? <==> forall i :: 0 <= i <= |t| ==> MatchAt(AccessModeVlan, t, i).None? && MatchAt(VlanNumber, t, i).None?
    ensures forall i :: FirstMatch(AccessModeVlan, t, i) ==> PortVlan(t) == MatchAt(AccessModeVlan, t, i)
    ensures Search(AccessModeVlan, t).None? ==> PortVlan(t) == Search(VlanNumber, t)
  {
    SearchLeftmost(AccessModeVlan, t);
    SearchLeftmost(VlanNumber, t);
  }

  /** The VLAN `get_port_status` reports from its two switchport reports: the
      access-line digits of the second if it has them, else the first's reading. */
  function StatusVlan(first: string, second: string): (r: Option<string>)
    ensures r.Some? ==> IsDigits(r.value)
    ensures Search(AccessModeVlan, second).Some? ==> r == Search(AccessModeVlan, second)
    ensures Search(AccessModeVlan, second).None? ==> r == PortVlan(first)
  {
    var read := PortVlan(first);
    var vlan := if Truthy(read) then read else None;
    var access := Search(AccessModeVlan, second);
    if access.Some? then access else vlan
  }

  /** When the switch answers both switchport queries alike, the second
      reading adds nothing: the report is `get_port_vlan`'s reading. */
  lemma StatusVlanStable(t: string)
    ensures StatusVlan(t, t) == PortVlan(t)
  {
  }

  /** A switchport report whose access line reads "Access Mode VLAN: <v>" yields `v`. */
  lemma PortVlanReadsAccessLine(v: string, rest: string)
    requires IsDigits(v)
    requires rest == [] || !IsDigit(rest[0])
    ensures PortVlan("Access Mode VLAN: " + v + rest) == Some(v)
  {
    var head := "Access Mode VLAN:";
    var s := head + " " + v + rest;
    assert s == "Access Mode VLAN: " + v + rest;
    assert s[0..17] == head;
    assert Lower(head) == Keyword(AccessModeVlan);
    assert s[17] == ' ';
    assert s[18] == v[0];
    assert SkipSpace(s, 18) == 18;
    assert SkipSpace(s, 17) == 18;
    DigitsSpan(s, 18, v);
    assert s[18..18 + |v|] == v;
    assert MatchAt(AccessModeVlan, s, 0) == Some(v);
    assert FirstMatch(AccessModeVlan, s, 0);
    SearchLeftmost(AccessModeVlan, s);
  }

  lemma DigitsSpan(s: string, j: nat, v: string)
    requires IsDigits(v) && j + |v| <= |s| && s[j..j + |v|] == v
    requires j + |v| == |s| || !IsDigit(s[j + |v|])
    ensures DigitRun(s, j) == j + |v|
    decreases |v|
  {
    assert s[j] == v[0];
    if |v| > 1 {
      assert s[j + 1..j + 1 + |v[1..]|] == v[1..];
      DigitsSpan(s, j + 1, v[1..]);
    }
  }

  // ---------------------------------------------------------------------
  // Line filters

  /** A line of `show interfaces status` that describes a port. */
  predicate IsPortLine(line: string) {
    var ws := Words(line);
    |ws| >= 2 && (Contains(ws[0], "Gi") || Contains(ws[0], "Fa") || Contains(ws[0], "Te"))
  }

  function PortName(line: string): (r: string)
    requires IsPortLine(line)
    ensures IsWord(r)
    ensures Contains(r, "Gi") || Contains(r, "Fa") || Contains(r, "Te")
  {
    Words(line)[0]
  }

  /** The port lines, in the order they come. */
  function PortLines(lines: seq<string>): (r: seq<string>)
    ensures |r| <= |lines|
    ensures forall l :: l in r <==> l in lines && IsPortLine(l)
  {
    if lines == [] then []
    else
      assert lines == [lines[0]] + lines[1..];
      (if IsPortLine(lines[0]) then [lines[0]] else []) + PortLines(lines[1..])
  }

  /** A line of `show vlan brief` that describes a VLAN: a numeric id and a name. */
  predicate IsVlanLine(line: string) {
    var ws := Words(line);
    |ws| >= 2 && IsDigits(ws[0])
  }

  function VlanOf(line: string): VlanInfo
    requires IsVlanLine(line)
  {
    VlanInfo(Words(line)[0], Words(line)[1])
  }

  /** The VLANs of a `show vlan brief` answer, in the order they come. */
  function VlanEntries(lines: seq<string>): (r: seq<VlanInfo>)
    ensures |r| <= |lines|
    ensures forall k :: 0 <= k < |r| ==> IsDigits(r[k].id) && IsWord(r[k].name)
    ensures forall l :: l in lines && IsVlanLine(l) ==> VlanOf(l) in r
    ensures forall e :: e in r ==> exists l :: l in lines && IsVlanLine(l) && e == VlanOf(l)
  {
    if lines == [] then []
    else
      var init := lines[..|lines| - 1];
      var last := lines[|lines| - 1];
      assert lines == init + [last];
      VlanEntries(init) + (if IsVlanLine(last) then [VlanOf(last)] else [])
  }

  /** The VLAN list of `get_switch_info`, read line by line. */
  method ParseVlanBrief(text: string) returns (vlans: seq<VlanInfo>)
    ensures vlans == VlanEntries(SplitLines(text))
  {
    var lines := SplitLines(text);
    vlans := [];
    var i := 0;
    while i < |lines|
      invariant 0 <= i <= |lines|
      invariant vlans == VlanEntries(lines[..i])
    {
      assert lines[..i + 1][..i] == lines[..i];
      var parts := Words(lines[i]);
      if |parts| >= 2 && IsDigits(parts[0]) {
        var id := parts[0];
        var name := if |parts| > 1 then parts[1] else "VLAN" + id;
        vlans := vlans + [VlanInfo(id, name)];
      }
      i := i + 1;
    }
    assert lines[..i] == lines;
  }

  // ---------------------------------------------------------------------
  // Conversations, as functions of the device

  predicate Prompted(dev: Device, h: seq<Command>) {
    Answer(dev, h, EnableCmd).Ok? && PasswordPrompt(Answer(dev, h, EnableCmd).value)
  }

  /** The last command of `h` is `cmd` and its answer contains `pat`. */
  predicate LastReplyHas(dev: Device, h: seq<Command>, cmd: Command, pat: string) {
    |h| > 0 && h[|h| - 1] == cmd &&
    Answer(dev, h[..|h| - 1], cmd).Ok? && Contains(Answer(dev, h[..|h| - 1], cmd).value, pat)
  }

  predicate PasswordSent(run: Run<bool>, password: Option<string>) {
    Truthy(password) && |run.sent| > 1 && run.sent[1] == Secret(password.value)
  }

  /** `enable_mode`: "enable", the password if one is asked for and given, then
      an empty line whose prompt must show "#". */
  function Enable(dev: Device, h: seq<Command>, password: Option<string>): (run: Run<bool>)
    ensures |run.sent| >= 1 && run.sent[0] == EnableCmd
    ensures forall k :: 0 <= k < |run.sent| ==> run.sent[k] in EnableCmds(password)
    ensures Prompted(dev, h) && !Truthy(password) ==> run == Run([EnableCmd], Ok(false))
    ensures PasswordSent(run, password) <==> Prompted(dev, h) && Truthy(password)
    ensures run.out == Ok(true) ==> LastReplyHas(dev, h + run.sent, Blank, "#")
  {
    var first := Answer(dev, h, EnableCmd);
    if first.Raised? then Run([EnableCmd], Raised(first.fault))
    else if PasswordPrompt(first.value) && !Truthy(password) then Run([EnableCmd], Ok(false))
    else
      var pre := if PasswordPrompt(first.value) then [EnableCmd, Secret(password.value)] else [EnableCmd];
      var given := if PasswordPrompt(first.value) then Answer(dev, h + [EnableCmd], Secret(password.value)) else Ok("");
      if given.Raised? then Run(pre, Raised(given.fault))
      else
        var last := Answer(dev, h + pre, Blank);
        assert (h + (pre + [Blank]))[..|h + pre|] == h + pre;
        if last.Raised? then Run(pre + [Blank], Raised(last.fault))
        else Run(pre + [Blank], Ok(Contains(last.value, "#")))
  }

  /** `vlan_exists` as a function of the device. */
  function CheckVlan(dev: Device, h: seq<Command>, v: string): (r: Reply<bool>)
    ensures r.Raised? <==> Answer(dev, h, ShowVlan(v)).Raised?
    ensures r.Raised? ==> r.fault == Answer(dev, h, ShowVlan(v)).fault
    ensures r == Ok(false) <==>
      (Answer(dev, h, ShowVlan(v)).Ok? &&
       (Contains(Answer(dev, h, ShowVlan(v)).value, "VLAN " + v + " not found") ||
        Contains(Answer(dev, h, ShowVlan(v)).value, "VLAN" + v + " not found")))
  {
    match Answer(dev, h, ShowVlan(v))
    case Ok(t) => Ok(VlanPresent(t, v))
    case Raised(f) => Raised(f)
  }

  predicate VlanReported(dev: Device, h: seq<Command>, v: string) {
    CheckVlan(dev, h, v) == Ok(true)
  }

  /** The `j`-th command of `h` is a VLAN check the device answered positively. */
  predicate PositiveCheckAt(dev: Device, h: seq<Command>, j: int, v: string) {
    0 <= j < |h| && h[j] == ShowVlan(v) && VlanReported(dev, h[..j], v)
  }

  /** Every interface command written since `from` follows a positive VLAN check written since `from`. */
  ghost predicate Guarded(dev: Device, h: seq<Command>, from: int, p: string, v: string) {
    forall k :: 0 <= from <= k < |h| && h[k] == Interface(p) ==>
      exists j :: from <= j < k && PositiveCheckAt(dev, h, j, v)
  }

  /** After a `create_vlan` run ending in a positive check, whatever follows is guarded. */
  lemma GuardedAfterCheck(dev: Device, h0: seq<Command>, h: seq<Command>, h': seq<Command>, p: string, v: string)
    requires Extends(h0, h, CreateVlanCmds(v, None)) && |h0| < |h|
    requires |h| <= |h'| && h'[..|h|] == h
    requires PositiveCheckAt(dev, h, |h| - 1, v)
    ensures Guarded(dev, h', |h0|, p, v)
  {
    var j := |h| - 1;
    assert h'[..j] == h[..j];
    assert PositiveCheckAt(dev, h', j, v);
    forall k | |h0| <= k < |h| ensures h'[k] != Interface(p) {
      assert h'[k] == h[k];
    }
  }

  /** A `create_vlan` run writes no interface command. */
  lemma GuardedVacuous(dev: Device, h0: seq<Command>, h: seq<Command>, p: string, v: string)
    requires Extends(h0, h, CreateVlanCmds(v, None))
    ensures Guarded(dev, h, |h0|, p, v)
  {
  }

  /** Commands that are not interface commands keep a log guarded. */
  lemma GuardedGrow(dev: Device, h: seq<Command>, h': seq<Command>, from: int, p: string, v: string)
    requires Guarded(dev, h, from, p, v)
    requires |h| <= |h'| && h'[..|h|] == h
    requires forall k :: |h| <= k < |h'| ==> h'[k] != Interface(p)
    ensures Guarded(dev, h', from, p, v)
  {
    forall k | 0 <= from <= k < |h'| && h'[k] == Interface(p)
      ensures exists j :: from <= j < k && PositiveCheckAt(dev, h', j, v)
    {
      assert h[k] == h'[k];
      var j :| from <= j < k && PositiveCheckAt(dev, h, j, v);
      assert h'[..j] == h[..j];
      assert PositiveCheckAt(dev, h', j, v);
    }
  }

  /** A device that keeps reporting a VLAN once it has reported it. */
  ghost predicate KeepsReporting(dev: Device, v: string) {
    forall h :: VlanReported(dev, h, v) ==> VlanReported(dev, h + [ShowVlan(v)], v)
  }

  // ---------------------------------------------------------------------
  // `create_vlan` and `assign_port_to_vlan`, as functions of the device

  /** The whole log after an operation, and its outcome. */
  datatype Trace<T> = Trace(log: seq<Command>, out: Reply<T>)

  /** Writing `cmds` one after another after `h`; the first that raises ends the run. */
  function SendAll(dev: Device, h: seq<Command>, cmds: seq<Command>): Trace<()>
    decreases |cmds|
  {
    if cmds == [] then Trace(h, Ok(()))
    else
      match Answer(dev, h, cmds[0])
      case Raised(f) => Trace(h + [cmds[0]], Raised(f))
      case Ok(_) => SendAll(dev, h + [cmds[0]], cmds[1..])
  }

  /** A run writes a beginning of its commands, at least one of them when
      there is one, and all of them when it completes. */
  lemma {:induction false} SendAllShape(dev: Device, h: seq<Command>, cmds: seq<Command>)
    ensures var t := SendAll(dev, h, cmds);
      |h| <= |t.log| <= |h| + |cmds| && t.log == h + cmds[..|t.log| - |h|]
    ensures |cmds| > 0 ==> |SendAll(dev, h, cmds).log| > |h|
    ensures SendAll(dev, h, cmds).out.Ok? ==> SendAll(dev, h, cmds).log == h + cmds
    decreases |cmds|
  {
    if cmds != [] && Answer(dev, h, cmds[0]).Ok? {
      var rest := SendAll(dev, h + [cmds[0]], cmds[1..]);
      SendAllShape(dev, h + [cmds[0]], cmds[1..]);
      assert h + cmds[..|rest.log| - |h|] == (h + [cmds[0]]) + cmds[1..][..|rest.log| - |h| - 1];
      assert h + cmds == (h + [cmds[0]]) + cmds[1..];
    } else if cmds != [] {
      assert cmds[..1] == [cmds[0]];
    }
  }

  /** The run completes exactly when every one of its commands is answered. */
  lemma {:induction false} SendAllOkIff(dev: Device, h: seq<Command>, cmds: seq<Command>)
    ensures SendAll(dev, h, cmds).out.Ok? <==> forall k :: 0 <= k < |cmds| ==> Answer(dev, h + cmds[..k], cmds[k]).Ok?
    decreases |cmds|
  {
    if cmds != [] {
      var c := cmds[0];
      var rest := cmds[1..];
      SendAllOkIff(dev, h + [c], rest);
      assert h + cmds[..0] == h;
      if SendAll(dev, h, cmds).out.Ok? {
        forall k | 0 <= k < |cmds| ensures Answer(dev, h + cmds[..k], cmds[k]).Ok? {
          if k > 0 {
            assert h + cmds[..k] == (h + [c]) + rest[..k - 1];
          }
        }
      } else if Answer(dev, h, c).Ok? {
        var j :| 0 <= j < |rest| && Answer(dev, (h + [c]) + rest[..j], rest[j]).Raised?;
        assert h + cmds[..j + 1] == (h + [c]) + rest[..j];
      }
    }
  }

  /** One step of a run: its first command, answered or not. */
  lemma SendAllStep(dev: Device, h: seq<Command>, cmds: seq<Command>)
    requires cmds != []
    ensures Answer(dev, h, cmds[0]).Raised? ==>
      SendAll(dev, h, cmds) == Trace(h + [cmds[0]], Raised(Answer(dev, h, cmds[0]).fault))
    ensures Answer(dev, h, cmds[0]).Ok? ==> SendAll(dev, h, cmds) == SendAll(dev, h + [cmds[0]], cmds[1..])
  {
  }

  /** `exit_config_mode`: "end", then an empty line. */
  function ExitRun(dev: Device, h: seq<Command>): (t: Trace<()>)
    ensures t.log == h + [EndCmd] || t.log == h + [EndCmd, Blank]
    ensures t.out.Ok? <==> Answer(dev, h, EndCmd).Ok? && Answer(dev, h + [EndCmd], Blank).Ok?
  {
    assert [EndCmd, Blank][1..] == [Blank] && [Blank][1..] == [];
    assert [EndCmd, Blank][..1] == [EndCmd] && [EndCmd, Blank][..2] == [EndCmd, Blank];
    SendAllShape(dev, h, [EndCmd, Blank]);
    SendAll(dev, h, [EndCmd, Blank])
  }

  /** The first half of entering configuration mode: an empty line, and
      privileged mode (without a password) unless that prompt shows "#". */
  function EnsureRun(dev: Device, h: seq<Command>): (t: Trace<bool>)
    ensures Extends(h, t.log, ConfigCmds()) && |t.log| > |h| && t.log[|h|] == Blank
    ensures |t.log| > |h| + 1 && t.log[|h| + 1] == EnableCmd <==>
      Answer(dev, h, Blank).Ok? && !Contains(Answer(dev, h, Blank).value, "#")
  {
    match Answer(dev, h, Blank)
    case Raised(f) => Trace(h + [Blank], Raised(f))
    case Ok(r) =>
      if Contains(r, "#") then Trace(h + [Blank], Ok(true))
      else
        var en := Enable(dev, h + [Blank], None);
        ExtendsBy(h, [Blank], ConfigCmds());
        ExtendsBy(h + [Blank], en.sent, ConfigCmds());
        ExtendsTrans(h, h + [Blank], h + [Blank] + en.sent, ConfigCmds());
        assert (h + [Blank] + en.sent)[|h| + 1] == en.sent[0];
        Trace(h + [Blank] + en.sent, en.out)
  }

  /** The second half: an empty line, then "configure terminal" unless that
      prompt shows configuration mode. `Ready(true)` says it was entered here. */
  function ProbeRun(dev: Device, h: seq<Command>): (t: Trace<Prompt>)
    ensures Extends(h, t.log, ConfigCmds()) && |t.log| > |h| && t.log[|h|] == Blank
    ensures t.out != Ok(Refused)
    ensures |t.log| > |h| + 1 <==> Answer(dev, h, Blank).Ok? && !Contains(Lower(Answer(dev, h, Blank).value), ConfigIndicator)
    ensures |t.log| > |h| + 1 ==> t.log == h + [Blank, ConfigureCmd]
    ensures t.out == Ok(Ready(true)) <==> |t.log| > |h| + 1 && Answer(dev, h + [Blank], ConfigureCmd).Ok?
  {
    match Answer(dev, h, Blank)
    case Raised(f) => Trace(h + [Blank], Raised(f))
    case Ok(r) =>
      if Contains(Lower(r), ConfigIndicator) then Trace(h + [Blank], Ok(Ready(false)))
      else
        assert h + [Blank] + [ConfigureCmd] == h + [Blank, ConfigureCmd];
        match Answer(dev, h + [Blank], ConfigureCmd)
        case Raised(f) => Trace(h + [Blank] + [ConfigureCmd], Raised(f))
        case Ok(_) => Trace(h + [Blank] + [ConfigureCmd], Ok(Ready(true)))
  }

  /** Entering configuration mode, as `create_vlan` and `assign_port_to_vlan`
      both do it: refused exactly when privileged mode is. */
  function EnterRun(dev: Device, h: seq<Command>): (t: Trace<Prompt>)
    ensures Extends(h, t.log, ConfigCmds()) && |t.log| > |h| && t.log[|h|] == Blank
    ensures t.out == Ok(Refused) <==> EnsureRun(dev, h).out == Ok(false)
    ensures t.out.Ok? && t.out.value.Ready? ==> EnsureRun(dev, h).out == Ok(true)
  {
    var en := EnsureRun(dev, h);
    match en.out
    case Raised(f) => Trace(en.log, Raised(f))
    case Ok(enabled) =>
      if !enabled then Trace(en.log, Ok(Refused))
      else
        var pr := ProbeRun(dev, en.log);
        ExtendsTrans(h, en.log, pr.log, ConfigCmds());
        assert pr.log[|h|] == pr.log[..|en.log|][|h|];
        pr
  }

  /** The run of a `create_vlan` attempt, and whether it had entered
      configuration mode. */
  datatype Attempt = Attempt(trace: Trace<bool>, inConfig: bool)

  /** The guarded part of `create_vlan`: reach the configuration prompt,
      write the creation command, leave configuration mode if it was entered
      here, and answer with a fresh check. */
  function CreateAttemptRun(dev: Device, h: seq<Command>, v: string, name: Option<string>): (a: Attempt)
    ensures Extends(h, a.trace.log, CreateVlanCmds(v, name)) && |a.trace.log| > |h| && a.trace.log[|h|] == Blank
    ensures a.inConfig ==> EnterRun(dev, h).out == Ok(Ready(true))
  {
    var e := EnterRun(dev, h);
    ExtendsWider(h, e.log, ConfigCmds(), CreateVlanCmds(v, name));
    match e.out
    case Raised(f) => Attempt(Trace(e.log, Raised(f)), false)
    case Ok(prompt) =>
      if prompt.Refused? then Attempt(Trace(e.log, Ok(false)), false)
      else
        var inConfig := prompt.entered;
        var l1 := e.log + [CreateVlanCmd(v, name)];
        ExtendsStep(h, e.log, l1, CreateVlanCmd(v, name), CreateVlanCmds(v, name));
        assert l1[|h|] == e.log[|h|];
        match Answer(dev, e.log, CreateVlanCmd(v, name))
        case Raised(f) => Attempt(Trace(l1, Raised(f)), inConfig)
        case Ok(_) =>
          var x := if inConfig then ExitRun(dev, l1) else Trace(l1, Ok(()));
          ExtendsExit(l1, x.log, CreateVlanCmds(v, name));
          ExtendsTrans(h, l1, x.log, CreateVlanCmds(v, name));
          assert x.log[|h|] == x.log[..|l1|][|h|];
          match x.out
          case Raised(f) => Attempt(Trace(x.log, Raised(f)), inConfig)
          case Ok(_) =>
            ExtendsStep(h, x.log, x.log + [ShowVlan(v)], ShowVlan(v), CreateVlanCmds(v, name));
            assert (x.log + [ShowVlan(v)])[|h|] == x.log[|h|];
            Attempt(Trace(x.log + [ShowVlan(v)], CheckVlan(dev, x.log, v)), inConfig)
  }

  /** `create_vlan` as a function of the device: a positive first check
      ends it; otherwise the attempt, whose errors are caught, leaving
      configuration mode if the attempt had entered it. */
  function CreateVlanRun(dev: Device, h: seq<Command>, v: string, name: Option<string>): (t: Trace<bool>)
    ensures Extends(h, t.log, CreateVlanCmds(v, name)) && |t.log| > |h| && t.log[|h|] == ShowVlan(v)
    ensures VlanReported(dev, h, v) ==> t == Trace(h + [ShowVlan(v)], Ok(true))
  {
    var l0 := h + [ShowVlan(v)];
    ExtendsStep(h, h, l0, ShowVlan(v), CreateVlanCmds(v, name));
    match CheckVlan(dev, h, v)
    case Raised(f) => Trace(l0, Raised(f))
    case Ok(present) =>
      if present then Trace(l0, Ok(true))
      else
        var a := CreateAttemptRun(dev, l0, v, name);
        ExtendsTrans(h, l0, a.trace.log, CreateVlanCmds(v, name));
        assert a.trace.log[|h|] == a.trace.log[..|l0|][|h|];
        if a.trace.out.Ok? then a.trace
        else if a.inConfig then
          var x := ExitRun(dev, a.trace.log);
          ExtendsExit(a.trace.log, x.log, CreateVlanCmds(v, name));
          ExtendsTrans(h, a.trace.log, x.log, CreateVlanCmds(v, name));
          assert x.log[|h|] == x.log[..|a.trace.log|][|h|];
          Trace(x.log, if x.out.Raised? then Raised(x.out.fault) else Ok(false))
        else Trace(a.trace.log, Ok(false))
  }

  /** The port block as `assign_port_to_vlan` writes it: closed by leaving
      configuration mode when it entered it, by "end" otherwise. */
  function PortCmds(p: string, v: string, inConfig: bool): seq<Command> {
    if inConfig then PortBlock(p, v) else PortSetup(p, v)
  }

  /** The rest of `assign_port_to_vlan` once the VLAN is known to exist:
      reach the configuration prompt, then write the port block. */
  function ConfigureRun(dev: Device, h: seq<Command>, p: string, v: string): (t: Trace<bool>)
    ensures Extends(h, t.log, AssignPortCmds(p, v))
  {
    var e := EnterRun(dev, h);
    ExtendsWider(h, e.log, ConfigCmds(), AssignPortCmds(p, v));
    match e.out
    case Raised(f) => Trace(e.log, Raised(f))
    case Ok(prompt) =>
      if prompt.Refused? then Trace(e.log, Ok(false))
      else
        var w := SendAll(dev, e.log, PortCmds(p, v, prompt.entered));
        SendAllShape(dev, e.log, PortCmds(p, v, prompt.entered));
        assert PortCmds(p, v, prompt.entered)[..|w.log| - |e.log|] == PortBlock(p, v)[..|w.log| - |e.log|];
        BlockExtends(e.log, w.log, p, v);
        ExtendsTrans(h, e.log, w.log, AssignPortCmds(p, v));
        Trace(w.log, if w.out.Raised? then Raised(w.out.fault) else Ok(true))
  }

  /** The guarded part of `assign_port_to_vlan`: make sure the VLAN exists,
      then configure the port. */
  function AssignAttemptRun(dev: Device, h: seq<Command>, p: string, v: string): (t: Trace<bool>)
    ensures Extends(h, t.log, AssignPortCmds(p, v))
  {
    var c := CreateVlanRun(dev, h, v, None);
    ExtendsWider(h, c.log, CreateVlanCmds(v, None), AssignPortCmds(p, v));
    if c.out != Ok(true) then c
    else
      var w := ConfigureRun(dev, c.log, p, v);
      ExtendsTrans(h, c.log, w.log, AssignPortCmds(p, v));
      w
  }

  /** `assign_port_to_vlan` as a function of the device: the attempt, and
      on any error a best-effort exit from configuration mode and false. */
  function AssignPortRun(dev: Device, h: seq<Command>, p: string, v: string): (t: Trace<bool>)
    ensures t.out.Ok?
    ensures Extends(h, t.log, AssignPortCmds(p, v))
  {
    var a := AssignAttemptRun(dev, h, p, v);
    if a.out.Ok? then a
    else
      var x := ExitRun(dev, a.log);
      ExtendsExit(a.log, x.log, AssignPortCmds(p, v));
      ExtendsTrans(h, a.log, x.log, AssignPortCmds(p, v));
      Trace(x.log, Ok(false))
  }

  /** A run whose commands are all allowed extends the log it follows. */
  lemma ExtendsBy(h: seq<Command>, sent: seq<Command>, allowed: set<Command>)
    requires forall k :: 0 <= k < |sent| ==> sent[k] in allowed
    ensures Extends(h, h + sent, allowed)
  {
    assert (h + sent)[..|h|] == h;
    forall k | |h| <= k < |h + sent| ensures (h + sent)[k] in allowed {
      assert (h + sent)[k] == sent[k - |h|];
    }
  }

  /** The attempt answers with its closing check when that check is reached
      and answered, and answers true only then. */
  lemma CreateAttemptLastCheck(dev: Device, h: seq<Command>, v: string, name: Option<string>)
    ensures var a := CreateAttemptRun(dev, h, v, name); var log := a.trace.log;
      (log[|log| - 1] == ShowVlan(v) ==>
        (a.trace.out.Ok? <==> CheckVlan(dev, log[..|log| - 1], v).Ok?) &&
        (a.trace.out.Ok? ==> a.trace.out == CheckVlan(dev, log[..|log| - 1], v))) &&
      (a.trace.out == Ok(true) ==> log[|log| - 1] == ShowVlan(v))
  {
    var e := EnterRun(dev, h);
    var log := CreateAttemptRun(dev, h, v, name).trace.log;
    if e.out.Ok? && e.out.value.Ready? && Answer(dev, e.log, CreateVlanCmd(v, name)).Ok? {
      var l1 := e.log + [CreateVlanCmd(v, name)];
      var x := if e.out.value.entered then ExitRun(dev, l1) else Trace(l1, Ok(()));
      if x.out.Ok? {
        assert log[..|log| - 1] == x.log;
      }
    } else {
      assert log[|log| - 1] in ConfigCmds() + {CreateVlanCmd(v, name)};
    }
  }

  /** `create_vlan` answers with its last VLAN check whenever it ends with one
      that the device answered, and answers true exactly when it ends with a
      positive check. */
  lemma CreateVlanAnswersLastCheck(dev: Device, h: seq<Command>, v: string, name: Option<string>)
    ensures var t := CreateVlanRun(dev, h, v, name);
      t.log[|t.log| - 1] == ShowVlan(v) && CheckVlan(dev, t.log[..|t.log| - 1], v).Ok? ==>
        t.out == CheckVlan(dev, t.log[..|t.log| - 1], v)
    ensures var t := CreateVlanRun(dev, h, v, name);
      t.out == Ok(true) <==> PositiveCheckAt(dev, t.log, |t.log| - 1, v)
  {
    if CheckVlan(dev, h, v) == Ok(false) {
      AbsentAnswersLastCheck(dev, h, v, name);
    } else {
      var l0 := h + [ShowVlan(v)];
      assert CreateVlanRun(dev, h, v, name).log == l0;
      assert l0[..|l0| - 1] == h;
    }
  }

  /** The case of `CreateVlanAnswersLastCheck` where the first check reads the VLAN as absent. */
  lemma AbsentAnswersLastCheck(dev: Device, h: seq<Command>, v: string, name: Option<string>)
    requires CheckVlan(dev, h, v) == Ok(false)
    ensures var t := CreateVlanRun(dev, h, v, name);
      t.log[|t.log| - 1] == ShowVlan(v) && CheckVlan(dev, t.log[..|t.log| - 1], v).Ok? ==>
        t.out == CheckVlan(dev, t.log[..|t.log| - 1], v)
    ensures var t := CreateVlanRun(dev, h, v, name);
      t.out == Ok(true) <==> PositiveCheckAt(dev, t.log, |t.log| - 1, v)
  {
    var l0 := h + [ShowVlan(v)];
    var a := CreateAttemptRun(dev, l0, v, name);
    var t := CreateVlanRun(dev, h, v, name);
    if a.trace.out.Ok? {
      assert t == a.trace;
      CreateAttemptLastCheck(dev, l0, v, name);
    } else if a.inConfig {
      var x := ExitRun(dev, a.trace.log);
      assert t.log == x.log && t.out != Ok(true);
      assert t.log[|t.log| - 1] in {EndCmd, Blank};
    } else {
      assert t == Trace(a.trace.log, Ok(false));
      CreateAttemptLastCheck(dev, l0, v, name);
    }
  }

  /** The creation command is written exactly when the first check reads the
      VLAN as absent and configuration mode is reached, and it is then the
      command right after that opening. */
  lemma CreateVlanWritesWhenAbsent(dev: Device, h: seq<Command>, v: string, name: Option<string>)
    ensures var t := CreateVlanRun(dev, h, v, name); var e := EnterRun(dev, h + [ShowVlan(v)]);
      CreateVlanCmd(v, name) in t.log[|h|..] <==> CheckVlan(dev, h, v) == Ok(false) && e.out.Ok? && e.out.value.Ready?
    ensures var t := CreateVlanRun(dev, h, v, name); var e := EnterRun(dev, h + [ShowVlan(v)]);
      CheckVlan(dev, h, v) == Ok(false) && e.out.Ok? && e.out.value.Ready? ==>
        |t.log| > |e.log| && t.log[..|e.log| + 1] == e.log + [CreateVlanCmd(v, name)]
  {
    var l0 := h + [ShowVlan(v)];
    var e := EnterRun(dev, l0);
    if CheckVlan(dev, h, v) == Ok(false) && e.out.Ok? && e.out.value.Ready? {
      WritesAfterOpening(dev, h, v, name);
    } else if CheckVlan(dev, h, v) == Ok(false) {
      assert CreateVlanRun(dev, h, v, name).log == e.log;
      ExtendsStep(h, h, l0, ShowVlan(v), ConfigCmds() + {ShowVlan(v)});
      ExtendsWider(l0, e.log, ConfigCmds(), ConfigCmds() + {ShowVlan(v)});
      ExtendsTrans(h, l0, e.log, ConfigCmds() + {ShowVlan(v)});
      NotWritten(h, e.log, ConfigCmds() + {ShowVlan(v)}, CreateVlanCmd(v, name));
    } else {
      assert CreateVlanRun(dev, h, v, name).log[|h|..] == [ShowVlan(v)];
    }
  }

  /** A command outside `allowed` is not among those a log extended by `allowed` gained. */
  lemma NotWritten(h: seq<Command>, log: seq<Command>, allowed: set<Command>, c: Command)
    requires Extends(h, log, allowed) && c !in allowed
    ensures c !in log[|h|..]
  {
    forall i | 0 <= i < |log| - |h| ensures log[|h|..][i] != c {
      assert log[|h|..][i] == log[|h| + i];
    }
  }

  /** The case of `CreateVlanWritesWhenAbsent` where configuration mode is reached. */
  lemma WritesAfterOpening(dev: Device, h: seq<Command>, v: string, name: Option<string>)
    requires CheckVlan(dev, h, v) == Ok(false)
    requires var e := EnterRun(dev, h + [ShowVlan(v)]); e.out.Ok? && e.out.value.Ready?
    ensures var t := CreateVlanRun(dev, h, v, name); var e := EnterRun(dev, h + [ShowVlan(v)]);
      |t.log| > |e.log| && t.log[..|e.log| + 1] == e.log + [CreateVlanCmd(v, name)] &&
      CreateVlanCmd(v, name) in t.log[|h|..]
  {
    var l0 := h + [ShowVlan(v)];
    var e := EnterRun(dev, l0);
    var a := CreateAttemptRun(dev, l0, v, name);
    var t := CreateVlanRun(dev, h, v, name);
    var l1 := e.log + [CreateVlanCmd(v, name)];
    AttemptWrites(dev, l0, v, name);
    if !a.trace.out.Ok? && a.inConfig {
      var x := ExitRun(dev, a.trace.log);
      assert t.log == x.log;
      assert t.log[..|l1|] == t.log[..|a.trace.log|][..|l1|];
    } else {
      assert t.log == a.trace.log;
    }
    assert t.log[|h|..][|l1| - 1 - |h|] == CreateVlanCmd(v, name);
  }

  /** An attempt that reaches the configuration prompt writes the creation
      command next. */
  lemma AttemptWrites(dev: Device, h: seq<Command>, v: string, name: Option<string>)
    requires var e := EnterRun(dev, h); e.out.Ok? && e.out.value.Ready?
    ensures var e := EnterRun(dev, h); var log := CreateAttemptRun(dev, h, v, name).trace.log;
      |log| > |e.log| && log[..|e.log| + 1] == e.log + [CreateVlanCmd(v, name)]
  {
    var e := EnterRun(dev, h);
    var l1 := e.log + [CreateVlanCmd(v, name)];
    var log := CreateAttemptRun(dev, h, v, name).trace.log;
    if Answer(dev, e.log, CreateVlanCmd(v, name)).Ok? {
      var x := if e.out.value.entered then ExitRun(dev, l1) else Trace(l1, Ok(()));
      if x.out.Ok? {
        assert log == x.log + [ShowVlan(v)];
        assert log[..|l1|] == x.log[..|l1|];
      } else {
        assert log == x.log;
      }
    }
  }

  /** Idempotence of `create_vlan`: on a device that keeps reporting a VLAN,
      a run that answered true leaves the switch where the next run writes
      nothing but its first check, and answers true. */
  lemma CreateVlanSettles(dev: Device, h: seq<Command>, v: string, name: Option<string>, name': Option<string>)
    requires KeepsReporting(dev, v)
    requires CreateVlanRun(dev, h, v, name).out == Ok(true)
    ensures var log := CreateVlanRun(dev, h, v, name).log;
      CreateVlanRun(dev, log, v, name') == Trace(log + [ShowVlan(v)], Ok(true))
  {
    var log := CreateVlanRun(dev, h, v, name).log;
    CreateVlanAnswersLastCheck(dev, h, v, name);
    assert log == log[..|log| - 1] + [ShowVlan(v)];
  }

  /** `assign_port_to_vlan` answers true exactly when the VLAN is there (or
      was made), configuration mode is reached, and every command of the port
      block is answered; the log then ends with the block. */
  lemma AssignPortSucceedsIff(dev: Device, h: seq<Command>, p: string, v: string)
    ensures var c := CreateVlanRun(dev, h, v, None); var e := EnterRun(dev, c.log);
      AssignPortRun(dev, h, p, v).out == Ok(true) <==>
        c.out == Ok(true) && e.out.Ok? && e.out.value.Ready? &&
        forall k :: 0 <= k < |PortCmds(p, v, e.out.value.entered)| ==>
          Answer(dev, e.log + PortCmds(p, v, e.out.value.entered)[..k], PortCmds(p, v, e.out.value.entered)[k]).Ok?
    ensures var c := CreateVlanRun(dev, h, v, None); var e := EnterRun(dev, c.log);
      AssignPortRun(dev, h, p, v).out == Ok(true) ==>
        e.out.Ok? && e.out.value.Ready? && AssignPortRun(dev, h, p, v).log == e.log + PortCmds(p, v, e.out.value.entered)
    ensures var log := AssignPortRun(dev, h, p, v).log;
      AssignPortRun(dev, h, p, v).out == Ok(true) ==> EndsWith(log, PortSetup(p, v)) || EndsWith(log, PortSetup(p, v) + [Blank])
  {
    var c := CreateVlanRun(dev, h, v, None);
    var e := EnterRun(dev, c.log);
    if c.out == Ok(true) && e.out.Ok? && e.out.value.Ready? {
      var cmds := PortCmds(p, v, e.out.value.entered);
      SendAllOkIff(dev, e.log, cmds);
      SendAllShape(dev, e.log, cmds);
      var log := e.log + cmds;
      assert log[|log| - |cmds|..] == cmds;
    }
  }

  /** Every interface command `assign_port_to_vlan` writes follows a positive
      check of the VLAN in the same run. */
  lemma AssignPortGuarded(dev: Device, h: seq<Command>, p: string, v: string)
    ensures Guarded(dev, AssignPortRun(dev, h, p, v).log, |h|, p, v)
  {
    var c := CreateVlanRun(dev, h, v, None);
    if c.out == Ok(true) {
      GuardedOnceCreated(dev, h, p, v);
    } else {
      GuardedVacuous(dev, h, c.log, p, v);
      if c.out.Raised? {
        var x := ExitRun(dev, c.log);
        assert AssignPortRun(dev, h, p, v).log == x.log;
        ExtendsExit(c.log, x.log, {EndCmd, Blank});
        GuardedGrow(dev, c.log, x.log, |h|, p, v);
      } else {
        assert AssignPortRun(dev, h, p, v).log == c.log;
      }
    }
  }

  /** The case of `AssignPortGuarded` where the VLAN check answered true. */
  lemma GuardedOnceCreated(dev: Device, h: seq<Command>, p: string, v: string)
    requires CreateVlanRun(dev, h, v, None).out == Ok(true)
    ensures Guarded(dev, AssignPortRun(dev, h, p, v).log, |h|, p, v)
  {
    var c := CreateVlanRun(dev, h, v, None);
    CreateVlanAnswersLastCheck(dev, h, v, None);
    var w := ConfigureRun(dev, c.log, p, v);
    assert AssignAttemptRun(dev, h, p, v) == w;
    var log := AssignPortRun(dev, h, p, v).log;
    if w.out.Raised? {
      var x := ExitRun(dev, w.log);
      assert log == x.log;
      assert log[..|c.log|] == x.log[..|w.log|][..|c.log|];
    }
    GuardedAfterCheck(dev, h, c.log, log, p, v);
  }

  // ---------------------------------------------------------------------
  // Reconciliation plan

  predicate SyncsScreen(s: ScreenStore.Screen) {
    s.portNumber != "" && Truthy(s.vlanNumber)
  }

  function ScreenCall(s: ScreenStore.Screen): PortCall
    requires s.vlanNumber.Some?
  {
    PortCall(s.portNumber, s.vlanNumber.value)
  }

  /** The port requests for the screens: those with a port and a VLAN, in table order. */
  function ScreenPlan(ss: seq<ScreenStore.Screen>): (r: seq<PortCall>)
    ensures |r| <= |ss|
    ensures forall i :: 0 <= i < |ss| && SyncsScreen(ss[i]) ==> ScreenCall(ss[i]) in r
    ensures forall c :: c in r ==> exists i :: 0 <= i < |ss| && SyncsScreen(ss[i]) && c == ScreenCall(ss[i])
  {
    if ss == [] then []
    else
      var init := ss[..|ss| - 1];
      var last := ss[|ss| - 1];
      assert forall i :: 0 <= i < |init| ==> init[i] == ss[i];
      ScreenPlan(init) + (if SyncsScreen(last) then [ScreenCall(last)] else [])
  }

  function BoxCall(b: BoxStore.Box, defaultVlan: string): PortCall {
    PortCall(b.portNumber, OrElse(b.vlanNumber, defaultVlan))
  }

  /** The port requests for the boxes: every box with a port, to its VLAN or the default. */
  function BoxPlan(bs: seq<BoxStore.Box>, defaultVlan: string): (r: seq<PortCall>)
    ensures |r| <= |bs|
    ensures forall i :: 0 <= i < |bs| && bs[i].portNumber != "" ==> BoxCall(bs[i], defaultVlan) in r
    ensures forall c :: c in r ==> exists i :: 0 <= i < |bs| && bs[i].portNumber != "" && c == BoxCall(bs[i], defaultVlan)
  {
    if bs == [] then []
    else
      var init := bs[..|bs| - 1];
      var last := bs[|bs| - 1];
      assert forall i :: 0 <= i < |init| ==> init[i] == bs[i];
      BoxPlan(init, defaultVlan) + (if last.portNumber != "" then [BoxCall(last, defaultVlan)] else [])
  }

  /** The plan for one more screen is the plan so far and that screen's request. */
  lemma ScreenPlanStep(ss: seq<ScreenStore.Screen>, i: int)
    requires 0 <= i < |ss|
    ensures ScreenPlan(ss[..i + 1]) == ScreenPlan(ss[..i]) + (if SyncsScreen(ss[i]) then [ScreenCall(ss[i])] else [])
  {
    assert ss[..i + 1][..i] == ss[..i];
  }

  /** The plan for one more box is the plan so far and that box's request. */
  lemma BoxPlanStep(bs: seq<BoxStore.Box>, i: int, defaultVlan: string)
    requires 0 <= i < |bs|
    ensures BoxPlan(bs[..i + 1], defaultVlan) == BoxPlan(bs[..i], defaultVlan) + (if bs[i].portNumber != "" then [BoxCall(bs[i], defaultVlan)] else [])
  {
    assert bs[..i + 1][..i] == bs[..i];
  }

  /** One step of the screen loop of `sync_with_db` keeps its two invariants. */
  lemma ScreenPlanGrows(h0: seq<Command>, h1: seq<Command>, h2: seq<Command>,
                        c0: seq<PortCall>, c1: seq<PortCall>, c2: seq<PortCall>, ss: seq<ScreenStore.Screen>, i: int)
    requires 0 <= i < |ss|
    requires c1 == c0 + ScreenPlan(ss[..i]) && Extends(h0, h1, CallCmds(ScreenPlan(ss[..i])))
    requires var step := if SyncsScreen(ss[i]) then [ScreenCall(ss[i])] else [];
      c2 == c1 + step && Extends(h1, h2, CallCmds(step))
    ensures c2 == c0 + ScreenPlan(ss[..i + 1]) && Extends(h0, h2, CallCmds(ScreenPlan(ss[..i + 1])))
  {
    var step := if SyncsScreen(ss[i]) then [ScreenCall(ss[i])] else [];
    ScreenPlanStep(ss, i);
    ExtendsPlan(h0, h1, h2, ScreenPlan(ss[..i]), step);
  }

  /** One step of the box loop of `sync_with_db` keeps its two invariants. */
  lemma BoxPlanGrows(h0: seq<Command>, h1: seq<Command>, h2: seq<Command>,
                     c0: seq<PortCall>, c1: seq<PortCall>, c2: seq<PortCall>, bs: seq<BoxStore.Box>, i: int, d: string)
    requires 0 <= i < |bs|
    requires c1 == c0 + BoxPlan(bs[..i], d) && Extends(h0, h1, CallCmds(BoxPlan(bs[..i], d)))
    requires var step := if bs[i].portNumber != "" then [BoxCall(bs[i], d)] else [];
      c2 == c1 + step && Extends(h1, h2, CallCmds(step))
    ensures c2 == c0 + BoxPlan(bs[..i + 1], d) && Extends(h0, h2, CallCmds(BoxPlan(bs[..i + 1], d)))
  {
    var step := if bs[i].portNumber != "" then [BoxCall(bs[i], d)] else [];
    BoxPlanStep(bs, i, d);
    ExtendsPlan(h0, h1, h2, BoxPlan(bs[..i], d), step);
  }

  /** The commands a sequence of port requests may write. */
  function CallCmds(calls: seq<PortCall>): set<Command> {
    if calls == [] then {}
    else
      var init := calls[..|calls| - 1];
      var last := calls[|calls| - 1];
      assert calls == init + [last];
      CallCmds(init) + AssignPortCmds(last.port, last.vlan)
  }

  /** A command is allowed for a sequence of requests exactly when one of the requests may write it. */
  lemma {:induction false} CallCmdsIff(calls: seq<PortCall>, x: Command)
    ensures x in CallCmds(calls) <==> exists c :: c in calls && x in AssignPortCmds(c.port, c.vlan)
    decreases |calls|
  {
    if calls != [] {
      var init := calls[..|calls| - 1];
      var last := calls[|calls| - 1];
      assert calls == init + [last];
      CallCmdsIff(init, x);
      if x in CallCmds(calls) && x !in CallCmds(init) {
        assert last in calls;
      }
      if exists c :: c in calls && x in AssignPortCmds(c.port, c.vlan) {
        var c :| c in calls && x in AssignPortCmds(c.port, c.vlan);
        if c != last {
          assert c in init;
        }
      }
    }
  }

  lemma CallCmdsOne(c: PortCall)
    ensures CallCmds([c]) == AssignPortCmds(c.port, c.vlan)
  {
    assert [c][..0] == [];
  }

  /** The requests of two runs in a row may write what either may write. */
  lemma {:induction false} CallCmdsAppend(a: seq<PortCall>, b: seq<PortCall>)
    ensures CallCmds(a + b) == CallCmds(a) + CallCmds(b)
    decreases |b|
  {
    if b == [] {
      assert a + b == a;
    } else {
      var init := b[..|b| - 1];
      var last := b[|b| - 1];
      assert (a + b)[..|a + b| - 1] == a + init;
      assert (a + b)[|a + b| - 1] == last;
      CallCmdsAppend(a, init);
    }
  }

  /** A log extended by the requests done so far, then by one more step's
      requests, is extended by all of them. */
  lemma ExtendsPlan(h0: seq<Command>, h1: seq<Command>, h2: seq<Command>, done: seq<PortCall>, step: seq<PortCall>)
    requires Extends(h0, h1, CallCmds(done)) && Extends(h1, h2, CallCmds(step))
    ensures Extends(h0, h2, CallCmds(done + step))
  {
    CallCmdsAppend(done, step);
    ExtendsWider(h0, h1, CallCmds(done), CallCmds(done + step));
    ExtendsWider(h1, h2, CallCmds(step), CallCmds(done + step));
    ExtendsTrans(h0, h1, h2, CallCmds(done + step));
  }

  // ---------------------------------------------------------------------
  // Port reports

  /** The reports of `get_all_ports_status` for the status-table lines
      `lines`, with each port line's VLAN read by its own switchport query
      after `h`. A query that raises ends the reading. */
  function ReadPorts(dev: Device, h: seq<Command>, lines: seq<string>): (run: Run<seq<PortInfo>>)
    decreases |lines|
  {
    if lines == [] then Run([], Ok([]))
    else if !IsPortLine(lines[0]) then ReadPorts(dev, h, lines[1..])
    else
      var q := ShowSwitchport(PortName(lines[0]));
      match Answer(dev, h, q)
      case Raised(f) => Run([q], Raised(f))
      case Ok(t) =>
        var info := PortInfo(PortName(lines[0]), LineStatus(lines[0]), PortVlan(t));
        var rest := ReadPorts(dev, h + [q], lines[1..]);
        Run([q] + rest.sent, if rest.out.Ok? then Ok([info] + rest.out.value) else rest.out)
  }

  /** `get_all_ports_status` as a function of the device: the status table,
      then the reading of its lines. */
  function AllPorts(dev: Device, h: seq<Command>): (run: Run<seq<PortInfo>>)
    ensures |run.sent| >= 1 && run.sent[0] == ShowAllStatus
    ensures Answer(dev, h, ShowAllStatus).Raised? ==> run == Run([ShowAllStatus], Raised(Answer(dev, h, ShowAllStatus).fault))
    ensures run.out.Ok? ==> |run.out.value| == |run.sent| - 1
    ensures forall k :: 1 <= k < |run.sent| ==> run.sent[k].ShowSwitchport?
  {
    match Answer(dev, h, ShowAllStatus)
    case Raised(f) => Run([ShowAllStatus], Raised(f))
    case Ok(t) =>
      var rest := ReadPorts(dev, h + [ShowAllStatus], SplitLines(t));
      ReadPortsQueries(dev, h + [ShowAllStatus], SplitLines(t));
      Run([ShowAllStatus] + rest.sent, rest.out)
  }

  /** A reading sends one switchport query per port line it reaches, and
      stops only at a query that raises: a successful reading queried every
      port line and holds one report per query. */
  lemma {:induction false} ReadPortsQueries(dev: Device, h: seq<Command>, lines: seq<string>)
    ensures |ReadPorts(dev, h, lines).sent| <= |PortLines(lines)|
    ensures forall k :: 0 <= k < |ReadPorts(dev, h, lines).sent| ==> ReadPorts(dev, h, lines).sent[k].ShowSwitchport?
    ensures ReadPorts(dev, h, lines).out.Ok? ==>
      |ReadPorts(dev, h, lines).sent| == |PortLines(lines)| && |ReadPorts(dev, h, lines).out.value| == |PortLines(lines)|
    ensures ReadPorts(dev, h, lines).out.Raised? ==> |ReadPorts(dev, h, lines).sent| > 0
    decreases |lines|
  {
    if lines != [] {
      assert lines == [lines[0]] + lines[1..];
      if !IsPortLine(lines[0]) {
        ReadPortsQueries(dev, h, lines[1..]);
        assert PortLines(lines) == PortLines(lines[1..]);
      } else {
        var q := ShowSwitchport(PortName(lines[0]));
        ReadPortsQueries(dev, h + [q], lines[1..]);
        assert PortLines(lines) == [lines[0]] + PortLines(lines[1..]);
      }
    }
  }

  /** The commands sent so far and the reports gathered, followed by a reading of the remaining lines. */
  function Resume(sent: seq<Command>, ports: seq<PortInfo>, rest: Run<seq<PortInfo>>): Run<seq<PortInfo>> {
    Run(sent + rest.sent, if rest.out.Ok? then Ok(ports + rest.out.value) else rest.out)
  }

  /** `info` reports the port line `line`: the port it names, the line's
      status and, if any, a numeric VLAN. */
  predicate Reports(info: PortInfo, line: string) {
    IsPortLine(line) && info.port == PortName(line) && info.status == LineStatus(line) &&
    (info.vlan.Some? ==> IsDigits(info.vlan.value))
  }

  /** `ports` report the port lines `pl` one to one, in order. */
  predicate ReportsLines(ports: seq<PortInfo>, pl: seq<string>) {
    |ports| == |pl| && forall k :: 0 <= k < |ports| ==> Reports(ports[k], pl[k])
  }

  lemma ReportsCons(info: PortInfo, ports: seq<PortInfo>, line: string, pl: seq<string>)
    requires ReportsLines(ports, pl) && Reports(info, line)
    ensures ReportsLines([info] + ports, [line] + pl)
  {
    var ps := [info] + ports;
    var ls := [line] + pl;
    forall k | 0 <= k < |ps| ensures Reports(ps[k], ls[k]) {
      if k > 0 {
        assert ps[k] == ports[k - 1] && ls[k] == pl[k - 1];
      }
    }
  }

  lemma ResumeEmpty(rest: Run<seq<PortInfo>>)
    ensures Resume([], [], rest) == rest
  {
    if rest.out.Ok? {
      assert [] + rest.out.value == rest.out.value;
    }
    assert [] + rest.sent == rest.sent;
  }

  lemma ResumeDone(sent: seq<Command>, ports: seq<PortInfo>)
    ensures Resume(sent, ports, Run([], Ok([]))) == Run(sent, Ok(ports))
  {
    assert sent + [] == sent && ports + [] == ports;
  }

  /** Skipping a line that is not a port line. */
  lemma ResumeSkip(dev: Device, h: seq<Command>, sent: seq<Command>, ports: seq<PortInfo>, ls: seq<string>)
    requires ls != [] && !IsPortLine(ls[0])
    ensures Resume(sent, ports, ReadPorts(dev, h, ls)) == Resume(sent, ports, ReadPorts(dev, h, ls[1..]))
  {
  }

  /** Reading a port line whose query is answered. */
  lemma ResumeRead(dev: Device, h: seq<Command>, sent: seq<Command>, ports: seq<PortInfo>, ls: seq<string>, t: string)
    requires ls != [] && IsPortLine(ls[0])
    requires Answer(dev, h, ShowSwitchport(PortName(ls[0]))) == Ok(t)
    ensures Resume(sent, ports, ReadPorts(dev, h, ls)) ==
      Resume(sent + [ShowSwitchport(PortName(ls[0]))], ports + [PortInfo(PortName(ls[0]), LineStatus(ls[0]), PortVlan(t))],
        ReadPorts(dev, h + [ShowSwitchport(PortName(ls[0]))], ls[1..]))
  {
    var q := ShowSwitchport(PortName(ls[0]));
    var info := PortInfo(PortName(ls[0]), LineStatus(ls[0]), PortVlan(t));
    var rest := ReadPorts(dev, h + [q], ls[1..]);
    assert ReadPorts(dev, h, ls) == Run([q] + rest.sent, if rest.out.Ok? then Ok([info] + rest.out.value) else rest.out);
    assert sent + ([q] + rest.sent) == sent + [q] + rest.sent;
    if rest.out.Ok? {
      assert ports + ([info] + rest.out.value) == ports + [info] + rest.out.value;
    }
  }

  /** Reading a port line whose query raises ends the reading. */
  lemma ResumeRaise(dev: Device, h: seq<Command>, sent: seq<Command>, ports: seq<PortInfo>, ls: seq<string>, f: Fault)
    requires ls != [] && IsPortLine(ls[0])
    requires Answer(dev, h, ShowSwitchport(PortName(ls[0]))) == Raised(f)
    ensures Resume(sent, ports, ReadPorts(dev, h, ls)) == Run(sent + [ShowSwitchport(PortName(ls[0]))], Raised(f))
  {
  }

  /** A successful reading has one report per port line, in order. */
  lemma {:induction false} ReadPortsReports(dev: Device, h: seq<Command>, lines: seq<string>)
    ensures ReadPorts(dev, h, lines).out.Ok? ==> ReportsLines(ReadPorts(dev, h, lines).out.value, PortLines(lines))
    decreases |lines|
  {
    if lines != [] {
      if !IsPortLine(lines[0]) {
        ReadPortsReports(dev, h, lines[1..]);
        assert PortLines(lines) == PortLines(lines[1..]);
      } else {
        ReadPortsReports(dev, h + [ShowSwitchport(PortName(lines[0]))], lines[1..]);
        ReportsPortLine(dev, h, lines);
      }
    }
  }

  /** The step for a port line: its report goes in front of the reports of the rest. */
  lemma ReportsPortLine(dev: Device, h: seq<Command>, lines: seq<string>)
    requires lines != [] && IsPortLine(lines[0])
    requires var rest := ReadPorts(dev, h + [ShowSwitchport(PortName(lines[0]))], lines[1..]);
      rest.out.Ok? ==> ReportsLines(rest.out.value, PortLines(lines[1..]))
    ensures ReadPorts(dev, h, lines).out.Ok? ==> ReportsLines(ReadPorts(dev, h, lines).out.value, PortLines(lines))
  {
    var q := ShowSwitchport(PortName(lines[0]));
    var a := Answer(dev, h, q);
    if a.Ok? {
      var rest := ReadPorts(dev, h + [q], lines[1..]);
      if rest.out.Ok? {
        assert PortLines(lines) == [lines[0]] + PortLines(lines[1..]);
        ReportsCons(PortInfo(PortName(lines[0]), LineStatus(lines[0]), PortVlan(a.value)), rest.out.value, lines[0], PortLines(lines[1..]));
      }
    }
  }

  class CiscoWorker {
    const device: Device
    const defaultBoxVlan: string
    const defaultScreenVlan: string
    var connected: bool
    var log: seq<Command>
    var portCalls: seq<PortCall>

    constructor (device: Device, defaultBoxVlan: string, defaultScreenVlan: string)
      ensures this.device == device
      ensures this.defaultBoxVlan == defaultBoxVlan && this.defaultScreenVlan == defaultScreenVlan
      ensures !connected && log == [] && portCalls == []
    {
      this.device := device;
      this.defaultBoxVlan := defaultBoxVlan;
      this.defaultScreenVlan := defaultScreenVlan;
      connected := false;
      log := [];
      portCalls := [];
    }

    /** `connect`: opening the port may fail; a failure leaves the connection as it was. */
    method Connect(portOpens: bool) returns (ok: bool)
      modifies this`connected
      ensures ok == portOpens
      ensures connected == (old(connected) || portOpens)
    {
      if portOpens {
        connected := true;
      }
      return portOpens;
    }

    /** `disconnect` */
    method Disconnect()
      modifies this`connected
      ensures !connected
    {
      connected := false;
    }

    /** `send_command`: without a connection it raises and writes nothing;
        otherwise it writes the command and returns the device's answer. */
    method SendCommand(cmd: Command) returns (r: Reply<string>)
      modifies this`log
      ensures !connected ==> r == Raised(NotConnected) && log == old(log)
      ensures connected ==> log == old(log) + [cmd] && r == Answer(device, old(log), cmd)
    {
      if !connected {
        return Raised(NotConnected);
      }
      r := Answer(device, log, cmd);
      log := log + [cmd];
    }

    /** `enable_mode` */
    method EnableMode(password: Option<string>) returns (r: Reply<bool>)
      modifies this`log
      ensures !connected ==> r == Raised(NotConnected) && log == old(log)
      ensures connected ==> log == old(log) + Enable(device, old(log), password).sent
      ensures connected ==> r == Enable(device, old(log), password).out
    {
      var resp := SendCommand(EnableCmd);
      if resp.Raised? {
        return Raised(resp.fault);
      }
      if PasswordPrompt(resp.value) {
        if Truthy(password) {
          var given := SendCommand(Secret(password.value));
          assert log == old(log) + [EnableCmd, Secret(password.value)];
          if given.Raised? {
            return Raised(given.fault);
          }
        } else {
          return Ok(false);
        }
      }
      ghost var pre := log;
      resp := SendCommand(Blank);
      assert log == pre + [Blank];
      if resp.Raised? {
        return Raised(resp.fault);
      }
      return Ok(Contains(resp.value, "#"));
    }

    /** `configure_terminal`: true when the answer shows a configuration prompt. */
    method ConfigureTerminal() returns (r: Reply<bool>)
      modifies this`log
      ensures !connected ==> r == Raised(NotConnected) && log == old(log)
      ensures connected ==> log == old(log) + [ConfigureCmd]
      ensures connected && Answer(device, old(log), ConfigureCmd).Ok? ==> r == Ok(InConfigPrompt(Answer(device, old(log), ConfigureCmd).value))
      ensures connected && Answer(device, old(log), ConfigureCmd).Raised? ==> r == Raised(Answer(device, old(log), ConfigureCmd).fault)
    {
      var resp := SendCommand(ConfigureCmd);
      if resp.Raised? {
        return Raised(resp.fault);
      }
      return Ok(InConfigPrompt(resp.value));
    }

    /** `exit_config_mode`: "end", then an empty line. */
    method ExitConfigMode() returns (r: Reply<()>)
      modifies this`log
      ensures !connected ==> r == Raised(NotConnected) && log == old(log)
      ensures connected ==> log == ExitRun(device, old(log)).log && r == ExitRun(device, old(log)).out
    {
      var resp := SendCommand(EndCmd);
      assert [EndCmd, Blank][1..] == [Blank] && [Blank][1..] == [];
      if resp.Raised? {
        return Raised(resp.fault);
      }
      resp := SendCommand(Blank);
      if resp.Raised? {
        return Raised(resp.fault);
      }
      return Ok(());
    }

    /** `vlan_exists` */
    method VlanExists(v: string) returns (r: Reply<bool>)
      modifies this`log
      ensures !connected ==> r == Raised(NotConnected) && log == old(log)
      ensures connected ==> log == old(log) + [ShowVlan(v)] && r == CheckVlan(device, old(log), v)
    {
      var resp := SendCommand(ShowVlan(v));
      if resp.Raised? {
        return Raised(resp.fault);
      }
      return Ok(VlanPresent(resp.value, v));
    }

    /** The opening shared by `create_vlan` and `assign_port_to_vlan`:
        privileged mode, then the configuration prompt. */
    method EnterConfig() returns (r: Reply<Prompt>)
      requires connected
      modifies this`log
      ensures log == EnterRun(device, old(log)).log && r == EnterRun(device, old(log)).out
    {
      var ready := EnsureEnabled();
      if ready.Raised? {
        return Raised(ready.fault);
      }
      if !ready.value {
        return Ok(Refused);
      }
      r := ProbeConfig();
    }

    /** The first half of entering configuration mode: an empty line, and
        enable mode, without a password, unless the prompt shows "#" already. */
    method EnsureEnabled() returns (r: Reply<bool>)
      requires connected
      modifies this`log
      ensures log == EnsureRun(device, old(log)).log && r == EnsureRun(device, old(log)).out
    {
      var resp := SendCommand(Blank);
      if resp.Raised? {
        return Raised(resp.fault);
      }
      if !Contains(resp.value, "#") {
        r := EnableMode(None);
        return;
      }
      return Ok(true);
    }

    /** The second half, in enable mode: an empty line, then "configure
        terminal" unless the prompt shows configuration mode already. */
    method ProbeConfig() returns (r: Reply<Prompt>)
      requires connected
      modifies this`log
      ensures log == ProbeRun(device, old(log)).log && r == ProbeRun(device, old(log)).out
    {
      var resp := SendCommand(Blank);
      if resp.Raised? {
        return Raised(resp.fault);
      }
      if Contains(Lower(resp.value), ConfigIndicator) {
        return Ok(Ready(false));
      }
      var configured := ConfigureTerminal();
      if configured.Raised? {
        return Raised(configured.fault);
      }
      return Ok(Ready(true));
    }

    /** `create_vlan`: check first and stop if the VLAN is there; otherwise
        make the guarded attempt. An error in the attempt is caught, the
        configuration mode left if the attempt entered it, and false returned;
        only an error in leaving, or in the first check, propagates. */
    method CreateVlan(v: string, name: Option<string>) returns (r: Reply<bool>)
      modifies this`log
      ensures !connected ==> r == Raised(NotConnected) && log == old(log)
      ensures connected ==> log == CreateVlanRun(device, old(log), v, name).log
      ensures connected ==> r == CreateVlanRun(device, old(log), v, name).out
      ensures connected ==> Extends(old(log), log, CreateVlanCmds(v, name))
      ensures connected && VlanReported(device, old(log), v) ==> r == Ok(true) && log == old(log) + [ShowVlan(v)]
      ensures r == Ok(true) ==> PositiveCheckAt(device, log, |log| - 1, v)
    {
      ghost var run := CreateVlanRun(device, log, v, name);
      var present := VlanExists(v);
      if present.Raised? {
        r := Raised(present.fault);
      } else if present.value {
        r := Ok(true);
      } else {
        var attempt, wasInConfig := CreateAttempt(v, name);
        if attempt.Ok? {
          r := attempt;
        } else {
          r := Ok(false);
          if wasInConfig {
            var left := ExitConfigMode();
            if left.Raised? {
              r := Raised(left.fault);
            }
          }
        }
      }
      if connected {
        assert log == run.log && r == run.out;
        CreateVlanAnswersLastCheck(device, old(log), v, name);
      }
    }

    /** The guarded part of `create_vlan`. A `Raised` result is an exception
        for `create_vlan` to catch; `wasInConfig` says whether configuration
        mode had been entered when it happened. */
    method CreateAttempt(v: string, name: Option<string>) returns (r: Reply<bool>, wasInConfig: bool)
      requires connected
      modifies this`log
      ensures log == CreateAttemptRun(device, old(log), v, name).trace.log
      ensures r == CreateAttemptRun(device, old(log), v, name).trace.out
      ensures wasInConfig == CreateAttemptRun(device, old(log), v, name).inConfig
    {
      wasInConfig := false;
      var entered := EnterConfig();
      if entered.Raised? {
        return Raised(entered.fault), wasInConfig;
      }
      if entered.value.Refused? {
        return Ok(false), wasInConfig;
      }
      wasInConfig := entered.value.entered;
      var resp := SendCommand(CreateVlanCmd(v, name));
      if resp.Raised? {
        return Raised(resp.fault), wasInConfig;
      }
      if wasInConfig {
        var left := ExitConfigMode();
        if left.Raised? {
          return Raised(left.fault), wasInConfig;
        }
      }
      var created := VlanExists(v);
      if created.Raised? {
        return Raised(created.fault), wasInConfig;
      }
      return Ok(created.value), wasInConfig;
    }

    /** `assign_port_to_vlan`: the guarded attempt, and on any error a
        best-effort exit from configuration mode and false. */
    method AssignPortToVlan(p: string, v: string) returns (ok: bool)
      modifies this`log, this`portCalls
      ensures portCalls == old(portCalls) + [PortCall(p, v)]
      ensures !connected ==> !ok && log == old(log)
      ensures connected ==> log == AssignPortRun(device, old(log), p, v).log
      ensures connected ==> (ok <==> AssignPortRun(device, old(log), p, v).out == Ok(true))
      ensures Extends(old(log), log, AssignPortCmds(p, v))
      ensures ok ==> EndsWith(log, PortSetup(p, v)) || EndsWith(log, PortSetup(p, v) + [Blank])
      ensures Guarded(device, log, |old(log)|, p, v)
    {
      portCalls := portCalls + [PortCall(p, v)];
      var attempt := AssignAttempt(p, v);
      if attempt.Ok? {
        ok := attempt.value;
      } else {
        var _ := ExitConfigMode();
        ok := false;
      }
      if connected {
        AssignPortGuarded(device, old(log), p, v);
        AssignPortSucceedsIff(device, old(log), p, v);
      } else {
        ExtendsBy(old(log), [], AssignPortCmds(p, v));
      }
    }

    /** The guarded part of `assign_port_to_vlan`. A `Raised` result is an
        exception for `assign_port_to_vlan` to catch. */
    method AssignAttempt(p: string, v: string) returns (r: Reply<bool>)
      modifies this`log
      ensures !connected ==> r.Raised? && log == old(log)
      ensures connected ==> log == AssignAttemptRun(device, old(log), p, v).log
      ensures connected ==> r == AssignAttemptRun(device, old(log), p, v).out
    {
      var created := CreateVlan(v, None);
      if created.Raised? || !created.value {
        return created;
      }
      r := ConfigureAfterCheck(p, v);
    }

    /** The rest of the guarded part once the VLAN is known to exist: reach
        the configuration prompt, then write the port block. */
    method ConfigureAfterCheck(p: string, v: string) returns (r: Reply<bool>)
      requires connected
      modifies this`log
      ensures log == ConfigureRun(device, old(log), p, v).log && r == ConfigureRun(device, old(log), p, v).out
    {
      var entered := EnterConfig();
      if entered.Raised? {
        return Raised(entered.fault);
      }
      if entered.value.Refused? {
        return Ok(false);
      }
      var written := ConfigurePort(p, v, entered.value.entered);
      if written.Raised? {
        return Raised(written.fault);
      }
      return Ok(true);
    }

    /** The port block of `assign_port_to_vlan`, closed by leaving
        configuration mode if it was entered here, else by "end"; the first
        command that raises ends it. */
    method ConfigurePort(p: string, v: string, wasInConfig: bool) returns (r: Reply<()>)
      requires connected
      modifies this`log
      ensures log == SendAll(device, old(log), PortCmds(p, v, wasInConfig)).log
      ensures r == SendAll(device, old(log), PortCmds(p, v, wasInConfig)).out
    {
      ghost var tail: seq<Command> := if wasInConfig then [EndCmd, Blank] else [EndCmd];
      ghost var rest := [Interface(p), AccessMode, AccessVlan(v), NoShutdown] + tail;
      assert PortCmds(p, v, wasInConfig) == rest;
      var resp := SendCommand(Interface(p));
      SendAllStep(device, old(log), rest);
      if resp.Raised? {
        return Raised(resp.fault);
      }
      assert rest[1..] == [AccessMode, AccessVlan(v), NoShutdown] + tail;
      rest := [AccessMode, AccessVlan(v), NoShutdown] + tail;
      ghost var h := log;
      resp := SendCommand(AccessMode);
      SendAllStep(device, h, rest);
      if resp.Raised? {
        return Raised(resp.fault);
      }
      assert rest[1..] == [AccessVlan(v), NoShutdown] + tail;
      rest := [AccessVlan(v), NoShutdown] + tail;
      h := log;
      resp := SendCommand(AccessVlan(v));
      SendAllStep(device, h, rest);
      if resp.Raised? {
        return Raised(resp.fault);
      }
      assert rest[1..] == [NoShutdown] + tail;
      rest := [NoShutdown] + tail;
      h := log;
      resp := SendCommand(NoShutdown);
      SendAllStep(device, h, rest);
      if resp.Raised? {
        return Raised(resp.fault);
      }
      assert rest[1..] == tail;
      if wasInConfig {
        r := ExitConfigMode();
      } else {
        h := log;
        resp := SendCommand(EndCmd);
        SendAllStep(device, h, tail);
        assert tail[1..] == [];
        if resp.Raised? {
          return Raised(resp.fault);
        }
        return Ok(());
      }
    }

    /** `get_port_vlan` */
    method GetPortVlan(p: string) returns (r: Reply<Option<string>>)
      modifies this`log
      ensures !connected ==> r == Raised(NotConnected) && log == old(log)
      ensures connected ==> log == old(log) + [ShowSwitchport(p)]
      ensures r.Ok? ==> r.value == PortVlan(Heard(device, old(log), ShowSwitchport(p)))
      ensures connected ==> (r.Raised? <==> Answer(device, old(log), ShowSwitchport(p)).Raised?)
      ensures connected && r.Raised? ==> Answer(device, old(log), ShowSwitchport(p)) == Raised(r.fault)
    {
      var resp := SendCommand(ShowSwitchport(p));
      if resp.Raised? {
        return Raised(resp.fault);
      }
      return Ok(PortVlan(resp.value));
    }

    /** `get_port_status`: the status from the status query, and the VLAN read
        twice from the switchport report, the second reading winning when the
        access pattern matches. Any of the three queries may raise. */
    method GetPortStatus(p: string) returns (r: Reply<PortInfo>)
      modifies this`log
      ensures !connected ==> r == Raised(NotConnected) && log == old(log)
      ensures connected ==> (|old(log)| < |log| <= |old(log)| + 3 &&
        log == old(log) + [ShowStatus(p), ShowSwitchport(p), ShowSwitchport(p)][..|log| - |old(log)|])
      ensures connected ==> (r.Ok? <==>
        Answer(device, old(log), ShowStatus(p)).Ok? &&
        Answer(device, old(log) + [ShowStatus(p)], ShowSwitchport(p)).Ok? &&
        Answer(device, old(log) + [ShowStatus(p), ShowSwitchport(p)], ShowSwitchport(p)).Ok?)
      ensures connected && Answer(device, old(log), ShowStatus(p)).Raised? ==>
        log == old(log) + [ShowStatus(p)] && r == Raised(Answer(device, old(log), ShowStatus(p)).fault)
      ensures connected && Answer(device, old(log), ShowStatus(p)).Ok? &&
              Answer(device, old(log) + [ShowStatus(p)], ShowSwitchport(p)).Raised? ==>
        log == old(log) + [ShowStatus(p), ShowSwitchport(p)] &&
        r == Raised(Answer(device, old(log) + [ShowStatus(p)], ShowSwitchport(p)).fault)
      ensures connected && Answer(device, old(log), ShowStatus(p)).Ok? &&
              Answer(device, old(log) + [ShowStatus(p)], ShowSwitchport(p)).Ok? &&
              Answer(device, old(log) + [ShowStatus(p), ShowSwitchport(p)], ShowSwitchport(p)).Raised? ==>
        log == old(log) + [ShowStatus(p), ShowSwitchport(p), ShowSwitchport(p)] &&
        r == Raised(Answer(device, old(log) + [ShowStatus(p), ShowSwitchport(p)], ShowSwitchport(p)).fault)
      ensures r.Ok? ==> log == old(log) + [ShowStatus(p), ShowSwitchport(p), ShowSwitchport(p)]
      ensures r.Ok? ==> r.value.port == p && r.value.status == ClassifyStatus(Heard(device, old(log), ShowStatus(p)))
      ensures r.Ok? ==> r.value.vlan == StatusVlan(Heard(device, old(log) + [ShowStatus(p)], ShowSwitchport(p)), Heard(device, old(log) + [ShowStatus(p), ShowSwitchport(p)], ShowSwitchport(p)))
    {
      ghost var q := [ShowStatus(p), ShowSwitchport(p), ShowSwitchport(p)];
      var resp := SendCommand(ShowStatus(p));
      if resp.Raised? {
        return Raised(resp.fault);
      }
      assert log == old(log) + q[..1];
      var status := ClassifyStatus(resp.value);
      var vlan: Option<string> := None;
      var read := GetPortVlan(p);
      if read.Raised? {
        assert log == old(log) + q[..2];
        return Raised(read.fault);
      }
      assert log == old(log) + [ShowStatus(p), ShowSwitchport(p)];
      if Truthy(read.value) {
        vlan := read.value;
      }
      var report := SendCommand(ShowSwitchport(p));
      assert log == old(log) + q[..3];
      if report.Raised? {
        return Raised(report.fault);
      }
      var access := Search(AccessModeVlan, report.value);
      if access.Some? {
        vlan := access;
      }
      return Ok(PortInfo(p, status, vlan));
    }

    /** `get_all_ports_status`: one report per port line of the status table,
        each with the VLAN read by its own switchport query. */
    method GetAllPortsStatus() returns (r: Reply<seq<PortInfo>>)
      modifies this`log
      ensures !connected ==> r == Raised(NotConnected) && log == old(log)
      ensures connected ==> log == old(log) + AllPorts(device, old(log)).sent && r == AllPorts(device, old(log)).out
    {
      var resp := SendCommand(ShowAllStatus);
      if resp.Raised? {
        return Raised(resp.fault);
      }
      ghost var first := log;
      assert first == old(log) + [ShowAllStatus];
      r := ReadLines(SplitLines(resp.value));
      ghost var rest := ReadPorts(device, first, SplitLines(resp.value));
      assert AllPorts(device, old(log)) == Run([ShowAllStatus] + rest.sent, rest.out);
      assert log == first + log[|first|..];
    }

    /** The loop of `get_all_ports_status` over the lines of the status table. */
    method ReadLines(lines: seq<string>) returns (r: Reply<seq<PortInfo>>)
      requires connected
      modifies this`log
      ensures |old(log)| <= |log| && log[..|old(log)|] == old(log)
      ensures log[|old(log)|..] == ReadPorts(device, old(log), lines).sent
      ensures r == ReadPorts(device, old(log), lines).out
    {
      ghost var first := log;
      var ports: seq<PortInfo> := [];
      var i := 0;
      assert log[|first|..] == [] && lines[i..] == lines;
      ResumeEmpty(ReadPorts(device, log, lines));
      while i < |lines|
        invariant 0 <= i <= |lines|
        invariant |first| <= |log| && log[..|first|] == first
        invariant ReadPorts(device, first, lines) == Resume(log[|first|..], ports, ReadPorts(device, log, lines[i..]))
      {
        var line := lines[i];
        assert lines[i..][0] == line && lines[i..][1..] == lines[i + 1..];
        ghost var prev := log;
        ghost var sent := log[|first|..];
        var read := ReadPortLine(line);
        if read.Raised? {
          ResumeRaise(device, prev, sent, ports, lines[i..], read.fault);
          assert log[|first|..] == sent + [ShowSwitchport(PortName(line))];
          return Raised(read.fault);
        }
        if read.value.Some? {
          ResumeRead(device, prev, sent, ports, lines[i..], Heard(device, prev, ShowSwitchport(PortName(line))));
          assert log[|first|..] == sent + [ShowSwitchport(PortName(line))];
          ports := ports + [read.value.value];
        } else {
          ResumeSkip(device, prev, sent, ports, lines[i..]);
        }
        i := i + 1;
      }
      assert lines[i..] == [];
      ResumeDone(log[|first|..], ports);
      return Ok(ports);
    }

    /** One line of the status table: a port line is reported with the VLAN
        read by its own switchport query; any other line is skipped. */
    method ReadPortLine(line: string) returns (r: Reply<Option<PortInfo>>)
      requires connected
      modifies this`log
      ensures !IsPortLine(line) ==> r == Ok(None) && log == old(log)
      ensures IsPortLine(line) ==> log == old(log) + [ShowSwitchport(PortName(line))] && (r.Ok? ==> r.value.Some?)
      ensures IsPortLine(line) && r.Raised? ==> Answer(device, old(log), ShowSwitchport(PortName(line))) == Raised(r.fault)
      ensures IsPortLine(line) && r.Ok? ==> Answer(device, old(log), ShowSwitchport(PortName(line))).Ok?
      ensures IsPortLine(line) && r.Ok? ==> r.value.value == PortInfo(PortName(line), LineStatus(line), PortVlan(Heard(device, old(log), ShowSwitchport(PortName(line)))))
    {
      var parts := Words(line);
      if |parts| >= 2 && (Contains(parts[0], "Gi") || Contains(parts[0], "Fa") || Contains(parts[0], "Te")) {
        var port := parts[0];
        var status := if Contains(Lower(line), "connected") || Contains(Lower(line), "up") then Active else Inactive;
        var read := GetPortVlan(port);
        if read.Raised? {
          return Raised(read.fault);
        }
        var vlan := if Truthy(read.value) then read.value else None;
        return Ok(Some(PortInfo(port, status, vlan)));
      }
      return Ok(None);
    }

    /** `get_switch_info`: nothing is asked when disconnected; an error while
        reading leaves the ports, or the VLANs, empty. */
    method GetSwitchInfo() returns (info: SwitchInfo)
      modifies this`log
      ensures info.connected == connected
      ensures !connected ==> info == SwitchInfo(false, [], []) && log == old(log)
      ensures connected && AllPorts(device, old(log)).out.Raised? ==>
        info == SwitchInfo(true, [], []) && log == old(log) + AllPorts(device, old(log)).sent
      ensures connected && AllPorts(device, old(log)).out.Ok? ==>
        info.ports == AllPorts(device, old(log)).out.value && log == old(log) + AllPorts(device, old(log)).sent + [ShowVlanBrief]
      ensures connected && AllPorts(device, old(log)).out.Ok? ==>
        info.vlans == match Answer(device, old(log) + AllPorts(device, old(log)).sent, ShowVlanBrief)
                      case Ok(t) => VlanEntries(SplitLines(t))
                      case Raised(_) => []
      ensures forall k :: 0 <= k < |info.ports| ==> info.ports[k].status != Unknown
      ensures forall k :: 0 <= k < |info.vlans| ==> IsDigits(info.vlans[k].id) && IsWord(info.vlans[k].name)
    {
      if !connected {
        return SwitchInfo(false, [], []);
      }
      var ports: seq<PortInfo> := [];
      var vlans: seq<VlanInfo> := [];
      label attempt: {
        var all := GetAllPortsStatus();
        if all.Raised? {
          break attempt;
        }
        ports := all.value;
        ReadPortsReports(device, old(log) + [ShowAllStatus], SplitLines(Heard(device, old(log), ShowAllStatus)));
        assert ReportsLines(ports, PortLines(SplitLines(Heard(device, old(log), ShowAllStatus))));
        var resp := SendCommand(ShowVlanBrief);
        if resp.Raised? {
          break attempt;
        }
        vlans := ParseVlanBrief(resp.value);
      }
      return SwitchInfo(true, ports, vlans);
    }

    /** `sync_with_db`: connect if needed, enter privileged mode, then request
        every screen port with a VLAN and every box port, screens first. Port
        failures are ignored. */
    method SyncWithDb(boxes: seq<BoxStore.Box>, screens: seq<ScreenStore.Screen>, portOpens: bool) returns (ok: bool)
      modifies this`connected, this`log, this`portCalls
      ensures connected == (old(connected) || portOpens)
      ensures ok <==> connected && Enable(device, old(log), None).out == Ok(true)
      ensures ok ==> portCalls == old(portCalls) + ScreenPlan(screens) + BoxPlan(boxes, defaultBoxVlan)
      ensures !ok ==> portCalls == old(portCalls) && Extends(old(log), log, EnableCmds(None))
      ensures ok ==> Extends(old(log) + Enable(device, old(log), None).sent, log,
                             CallCmds(ScreenPlan(screens) + BoxPlan(boxes, defaultBoxVlan)))
    {
      if !connected {
        var linked := Connect(portOpens);
        if !linked {
          return false;
        }
      }
      var enabled := EnableMode(None);
      if enabled.Raised? || !enabled.value {
        return false;
      }
      ghost var entered := log;
      SyncScreens(screens);
      ghost var middle := log;
      SyncBoxes(boxes);
      ExtendsPlan(entered, middle, log, ScreenPlan(screens), BoxPlan(boxes, defaultBoxVlan));
      return true;
    }

    /** The screen half of `sync_with_db`: each screen with a port and a VLAN, in order. */
    method SyncScreens(screens: seq<ScreenStore.Screen>)
      modifies this`log, this`portCalls
      ensures portCalls == old(portCalls) + ScreenPlan(screens)
      ensures Extends(old(log), log, CallCmds(ScreenPlan(screens)))
    {
      var i := 0;
      while i < |screens|
        invariant 0 <= i <= |screens|
        invariant portCalls == old(portCalls) + ScreenPlan(screens[..i])
        invariant Extends(old(log), log, CallCmds(ScreenPlan(screens[..i])))
      {
        ghost var before := log;
        ghost var calls := portCalls;
        SyncScreen(screens[i]);
        ScreenPlanGrows(old(log), before, log, old(portCalls), calls, portCalls, screens, i);
        i := i + 1;
      }
      assert screens[..i] == screens;
    }

    /** One step of the screen half: a screen with a port and a VLAN is put into it. */
    method SyncScreen(s: ScreenStore.Screen)
      modifies this`log, this`portCalls
      ensures portCalls == old(portCalls) + (if SyncsScreen(s) then [ScreenCall(s)] else [])
      ensures Extends(old(log), log, CallCmds(if SyncsScreen(s) then [ScreenCall(s)] else []))
      ensures !SyncsScreen(s) ==> log == old(log)
    {
      var port := s.portNumber;
      var vlan := s.vlanNumber;
      if port != "" && Truthy(vlan) {
        var _ := AssignPortToVlan(port, vlan.value);
        CallCmdsOne(ScreenCall(s));
        ExtendsWider(old(log), log, AssignPortCmds(port, vlan.value), CallCmds([ScreenCall(s)]));
      }
    }

    /** The box half of `sync_with_db`: each box with a port, to its VLAN or the default, in order. */
    method SyncBoxes(boxes: seq<BoxStore.Box>)
      modifies this`log, this`portCalls
      ensures portCalls == old(portCalls) + BoxPlan(boxes, defaultBoxVlan)
      ensures Extends(old(log), log, CallCmds(BoxPlan(boxes, defaultBoxVlan)))
    {
      var i := 0;
      while i < |boxes|
        invariant 0 <= i <= |boxes|
        invariant portCalls == old(portCalls) + BoxPlan(boxes[..i], defaultBoxVlan)
        invariant Extends(old(log), log, CallCmds(BoxPlan(boxes[..i], defaultBoxVlan)))
      {
        ghost var before := log;
        ghost var calls := portCalls;
        SyncBox(boxes[i]);
        BoxPlanGrows(old(log), before, log, old(portCalls), calls, portCalls, boxes, i, defaultBoxVlan);
        i := i + 1;
      }
      assert boxes[..i] == boxes;
    }

    /** One step of the box half: a box with a port is put into its VLAN or the default. */
    method SyncBox(b: BoxStore.Box)
      modifies this`log, this`portCalls
      ensures portCalls == old(portCalls) + (if b.portNumber != "" then [BoxCall(b, defaultBoxVlan)] else [])
      ensures Extends(old(log), log, CallCmds(if b.portNumber != "" then [BoxCall(b, defaultBoxVlan)] else []))
      ensures b.portNumber == "" ==> log == old(log)
    {
      var port := b.portNumber;
      var vlan := OrElse(b.vlanNumber, defaultBoxVlan);
      if port != "" {
        var _ := AssignPortToVlan(port, vlan);
        CallCmdsOne(BoxCall(b, defaultBoxVlan));
        ExtendsWider(old(log), log, AssignPortCmds(port, vlan), CallCmds([BoxCall(b, defaultBoxVlan)]));
      }
    }

    /** `assign_box_to_screen_vlan`: a box port put into a screen's VLAN. */
    method AssignBoxToScreenVlan(boxPort: string, screenVlan: string) returns (ok: bool)
      modifies this`log, this`portCalls
      ensures portCalls == old(portCalls) + [PortCall(boxPort, screenVlan)]
      ensures !connected ==> !ok && log == old(log)
      ensures connected ==> log == AssignPortRun(device, old(log), boxPort, screenVlan).log
      ensures connected ==> (ok <==> AssignPortRun(device, old(log), boxPort, screenVlan).out == Ok(true))
      ensures Extends(old(log), log, AssignPortCmds(boxPort, screenVlan))
      ensures ok ==> EndsWith(log, PortSetup(boxPort, screenVlan)) || EndsWith(log, PortSetup(boxPort, screenVlan) + [Blank])
      ensures Guarded(device, log, |old(log)|, boxPort, screenVlan)
    {
      ok := AssignPortToVlan(boxPort, screenVlan);
    }
  }
}
