/** The command interpreter of the terminal as a function on a session record: parsing a raw
    command line, and what each action does to the world and the output log. The class in
    Terminal.dfy is proved to update its fields exactly as Process says. */
module Interpreter {
  import opened Text
  import opened World
  import opened Messages

  /** Which of the three screens the component renders. */
  datatype AppState = LoadingScreen | TerminalScreen | ExitScreen

  datatype LineKind = Input | Output | Error

  /** One entry of the output log; `Content` is the text the component shows for it. */
  datatype Line = Line(kind: LineKind, message: Message) {
    function Content(): string {
      Render(message)
    }
  }

  /** The component's `useState` slots. */
  datatype State = State(
    appState: AppState,
    history: seq<Line>,
    currentInput: string,
    currentLocation: string,
    inventory: seq<string>,
    locationItems: map<string, seq<string>>)

  function Out(m: Message): Line { Line(Output, m) }

  function Err(m: Message): Line { Line(Error, m) }

  /** A whole block, one output line per entry. */
  function CannedLines(b: Block): seq<Line> {
    seq(BlockSize(b), k requires 0 <= k < BlockSize(b) => Out(Canned(b, k)))
  }

  // Each block printed whole shows exactly its text, line by line, as output lines.

  lemma WelcomeShown()
    ensures |CannedLines(WelcomeText)| == |BlockText(WelcomeText)|
    ensures forall k :: 0 <= k < |CannedLines(WelcomeText)| ==>
      CannedLines(WelcomeText)[k].kind == Output && CannedLines(WelcomeText)[k].Content() == BlockText(WelcomeText)[k]
  {
  }

  lemma HelpShown()
    ensures |CannedLines(HelpText)| == |BlockText(HelpText)|
    ensures forall k :: 0 <= k < |CannedLines(HelpText)| ==>
      CannedLines(HelpText)[k].kind == Output && CannedLines(HelpText)[k].Content() == BlockText(HelpText)[k]
  {
  }

  lemma HackShown()
    ensures |CannedLines(HackText)| == |BlockText(HackText)|
    ensures forall k :: 0 <= k < |CannedLines(HackText)| ==>
      CannedLines(HackText)[k].kind == Output && CannedLines(HackText)[k].Content() == BlockText(HackText)[k]
  {
  }

  lemma MatrixShown()
    ensures |CannedLines(MatrixText)| == |BlockText(MatrixText)|
    ensures forall k :: 0 <= k < |CannedLines(MatrixText)| ==>
      CannedLines(MatrixText)[k].kind == Output && CannedLines(MatrixText)[k].Content() == BlockText(MatrixText)[k]
  {
  }

  lemma SudoShown()
    ensures |CannedLines(SudoText)| == |BlockText(SudoText)|
    ensures forall k :: 0 <= k < |CannedLines(SudoText)| ==>
      CannedLines(SudoText)[k].kind == Output && CannedLines(SudoText)[k].Content() == BlockText(SudoText)[k]
  {
  }

  lemma ContactShown()
    ensures |CannedLines(ContactText)| == |BlockText(ContactText)|
    ensures forall k :: 0 <= k < |CannedLines(ContactText)| ==>
      CannedLines(ContactText)[k].kind == Output && CannedLines(ContactText)[k].Content() == BlockText(ContactText)[k]
  {
  }

  /** The state the component starts in, and the one a restart returns to. */
  function Initial(): State {
    State(LoadingScreen, CannedLines(WelcomeText), "", StartRoom, [], InitialLocationItems)
  }

  /** The current room is a key of the room table, and `locationItems` has an entry for
      exactly the rooms of the table. */
  ghost predicate Consistent(s: State) {
    s.currentLocation in RoomExits && s.locationItems.Keys == RoomExits.Keys
  }

  /** The items lying in the current room. */
  function CurrentItems(s: State): seq<string>
    requires Consistent(s)
  {
    s.locationItems[s.currentLocation]
  }

  // ---------------------------------------------------------------------------------------
  // Parsing

  datatype Parsed = Parsed(action: string, target: string)

  /** `command.toLowerCase().trim()`. */
  function Normalize(command: string): string {
    Trim(Lower(command))
  }

  /** `cmd.split(' ')`: the first piece is the action; the other pieces, joined again by
      single spaces, are the target. */
  function SplitCommand(cmd: string): Parsed {
    var parts := Split(cmd, ' ');
    Parsed(parts[0], Join(parts[1..], " "))
  }

  /** Lines 86-89 of the handler: normalise, then split. */
  function Parse(command: string): Parsed {
    SplitCommand(Normalize(command))
  }

  /** The action is the command up to its first space and the target is all of it after
      that space, inner spaces included; with no space the target is empty. */
  lemma SplitCommandSpec(cmd: string)
    ensures var p := SplitCommand(cmd);
      && ' ' !in p.action
      && (' ' !in cmd ==> p.action == cmd && p.target == "")
      && (' ' in cmd ==> |p.action| < |cmd| && cmd[|p.action|] == ' ' &&
                         cmd[..|p.action|] == p.action && p.target == cmd[|p.action| + 1..])
      && (' ' in cmd ==> p.action + " " + p.target == cmd)
  {
    SplitFirst(cmd, ' ');
    SplitPieces(cmd, ' ');
    var action := Split(cmd, ' ')[0];
    if ' ' in cmd {
      assert cmd == action + " " + cmd[|action| + 1..];
    }
  }

  /** The parse ignores case: a command typed in capitals parses exactly as the same command
      in small letters, so `HELP` reaches the `help` case. */
  lemma CapitalsParseAlike(command: string)
    ensures Parse(Upper(command)) == Parse(command)
  {
    LowerUpper(command);
  }

  /** The action holds no ASCII capital, so only the lower-case `case` labels can match it. */
  lemma ActionIsLowerCase(command: string)
    ensures forall k :: 0 <= k < |Parse(command).action| ==> !('A' <= Parse(command).action[k] <= 'Z')
  {
    var low := Lower(command);
    LowerIdempotent(command);
    TrimCuts(low);
    var i, j :| CutsWhitespace(low, i, j) && Trim(low) == low[i..j];
    var cmd := Trim(low);
    SplitCommandSpec(cmd);
    var action := Parse(command).action;
    forall k | 0 <= k < |action| ensures !('A' <= action[k] <= 'Z') {
      assert action[k] == cmd[k] == low[i + k];
    }
  }

  /** A command that is not blank always yields a non-empty action. */
  lemma NonBlankHasAction(command: string)
    requires Trim(command) != []
    ensures Parse(command).action != []
  {
    LowerTrimBlank(command);
    var cmd := Normalize(command);
    TrimEdges(Lower(command));
    assert cmd[0] != ' ';
    SplitCommandSpec(cmd);
  }

  // ---------------------------------------------------------------------------------------
  // The cases of the switch

  /** `Math.floor(random * n)` for a `random` drawn from [0, 1). */
  function PickIndex(n: nat, random: real): (i: nat)
    requires n > 0 && 0.0 <= random < 1.0
    ensures i < n
  {
    var x := random * n as real;
    assert 0.0 <= x < n as real by {
      assert random * n as real <= 1.0 * n as real;
    }
    x.Floor
  }

  /** `items.filter(item => item !== target)`. */
  function Without(items: seq<string>, target: string): seq<string> {
    if items == [] then []
    else if items[0] == target then Without(items[1..], target)
    else [items[0]] + Without(items[1..], target)
  }

  /** Without drops every copy of the target and keeps every other item as often as it was
      there. */
  lemma {:induction false} WithoutSpec(items: seq<string>, target: string)
    ensures target !in Without(items, target)
    ensures forall x :: x != target ==> multiset(Without(items, target))[x] == multiset(items)[x]
    ensures target !in items ==> Without(items, target) == items
  {
    if items != [] {
      WithoutSpec(items[1..], target);
      assert items == [items[0]] + items[1..];
    }
  }

  /** Filtering a concatenation filters each part: with the one-item case below, this fixes
      Without as `filter`, the kept items staying in their original order. */
  lemma {:induction false} WithoutAppend(a: seq<string>, b: seq<string>, target: string)
    ensures Without(a + b, target) == Without(a, target) + Without(b, target)
  {
    if a == [] {
      assert a + b == b;
    } else {
      assert (a + b)[0] == a[0] && (a + b)[1..] == a[1..] + b;
      WithoutAppend(a[1..], b, target);
    }
  }

  /** A one-item list keeps its item exactly when it is not the target. */
  lemma WithoutSingleton(x: string, target: string)
    ensures Without([x], target) == if x == target then [] else [x]
  {
  }

  /** Appends lines to the log and changes nothing else, as a run of `addToHistory` calls. */
  function Emit(s: State, lines: seq<Line>): State {
    s.(history := s.history + lines)
  }

  /** The `input` line echoing the raw command. */
  function Echo(command: string): Line {
    Line(Input, Prompt(command))
  }

  /** `DIGITAL ARTIFACTS DETECTED: ...`, printed only when the room holds something. */
  function ArtifactLines(items: seq<string>): seq<Line> {
    if |items| > 0 then [Out(Artifacts(items))] else []
  }

  function ScanRoom(s: State): State
    requires Consistent(s)
  {
    var exits := Directions(RoomExits[s.currentLocation]);
    Emit(s, [Out(ScanHeader), Out(Description(s.currentLocation))]
      + ArtifactLines(CurrentItems(s))
      + (if |exits| > 0 then [Out(Pathways(exits))] else []))
  }

  /** The lines announcing arrival in room `next`; the source defers the last of them by
      100 ms, which changes nothing else. */
  function ArrivalLines(s: State, target: string, next: string): seq<Line>
    requires Consistent(s) && next in RoomExits
  {
    [Out(JackingInto(target)), Out(LinkEstablished), Out(Description(next))]
    + ArtifactLines(s.locationItems[next])
  }

  function JackInto(s: State, target: string): State
    requires Consistent(s)
  {
    if target == "" then Emit(s, [Err(JackWhere)])
    else
      var next := Lookup(RoomExits[s.currentLocation], target);
      if next.Some? && next.value in RoomExits then
        Emit(s, ArrivalLines(s, target, next.value)).(currentLocation := next.value)
      else Emit(s, [Err(PathwayBlocked)])
  }

  function ProbeTarget(s: State, target: string): State
    requires Consistent(s)
  {
    if target == "" then Emit(s, [Err(ProbeWhat)])
    else if target in CurrentItems(s) then Emit(s, [Out(ItemReport(target))])
    else if target in s.inventory then
      Emit(s, [Out(AnalyzingFromCache(target)), Out(ItemVerified)])
    else Emit(s, [Err(ArtifactNotFound)])
  }

  function DownloadTarget(s: State, target: string): State
    requires Consistent(s)
  {
    if target == "" then Emit(s, [Err(DownloadWhat)])
    else if target in CurrentItems(s) then
      Emit(s, [Out(Downloading(target)), Out(TransferComplete)])
        .(inventory := s.inventory + [target],
          locationItems := s.locationItems[s.currentLocation := Without(CurrentItems(s), target)])
    else Emit(s, [Err(DownloadFailed)])
  }

  function CacheLines(inventory: seq<string>): seq<Line> {
    if |inventory| == 0 then [Out(CacheEmpty)]
    else [Out(CacheHeader), Out(StoredArtifacts(inventory)), Out(CacheUtilization(|inventory|))]
  }

  /** The labels of the switch; labels that share a case share a command. */
  datatype Command =
    | Help | Scan | Jack | Probe | Download | Cache | Hack | Matrix | Ping | Decrypt | Sudo
    | Contact | Clear | Disconnect | Unrecognized

  /** Which case of the exact-match switch an action reaches. */
  function Classify(action: string): Command {
    if action == "help" then Help
    else if action == "scan" then Scan
    else if action == "jack" then Jack
    else if action == "probe" then Probe
    else if action == "download" || action == "acquire" then Download
    else if action == "cache" || action == "inventory" then Cache
    else if action == "hack" then Hack
    else if action == "matrix" then Matrix
    else if action == "ping" then Ping
    else if action == "decrypt" then Decrypt
    else if action == "sudo" then Sudo
    else if action == "contact" then Contact
    else if action == "clear" then Clear
    else if action == "exit" || action == "quit" || action == "disconnect" then Disconnect
    else Unrecognized
  }

  /** The `case` labels leading to each command; the default case has none. */
  function Labels(c: Command): set<string> {
    match c
    case Help => {"help"}
    case Scan => {"scan"}
    case Jack => {"jack"}
    case Probe => {"probe"}
    case Download => {"download", "acquire"}
    case Cache => {"cache", "inventory"}
    case Hack => {"hack"}
    case Matrix => {"matrix"}
    case Ping => {"ping"}
    case Decrypt => {"decrypt"}
    case Sudo => {"sudo"}
    case Contact => {"contact"}
    case Clear => {"clear"}
    case Disconnect => {"exit", "quit", "disconnect"}
    case Unrecognized => {}
  }

  /** The switch on the action, applied to the state that already has the echo line. */
  function Dispatch(s: State, action: string, target: string, random: real): State
    requires Consistent(s) && 0.0 <= random < 1.0
  {
    match Classify(action)
    case Help => Emit(s, CannedLines(HelpText))
    case Scan => ScanRoom(s)
    case Jack => JackInto(s, target)
    case Probe => ProbeTarget(s, target)
    case Download => DownloadTarget(s, target)
    case Cache => Emit(s, CacheLines(s.inventory))
    case Hack => Emit(s, CannedLines(HackText))
    case Matrix => Emit(s, CannedLines(MatrixText) + [Out(CurrentLocation(s.currentLocation))])
    case Ping => Emit(s, [Out(Canned(PingResponses, PickIndex(BlockSize(PingResponses), random)))])
    case Decrypt =>
      Emit(s, [Out(Canned(DecryptMessages, PickIndex(BlockSize(DecryptMessages), random)))])
    case Sudo => Emit(s, CannedLines(SudoText))
    case Contact => Emit(s, CannedLines(ContactText))
    case Clear => s.(history := [])
    case Disconnect => s.(appState := ExitScreen)
    case Unrecognized => Emit(s, [Err(NotRecognized(action)), Out(HelpHint)])
  }

  /** `processCommand`: echo the raw command, then dispatch on the parsed action. Every case
      reads the state from before the command, as the closure over the `useState` values
      does. */
  function Process(s: State, command: string, random: real): State
    requires Consistent(s) && 0.0 <= random < 1.0
  {
    var p := Parse(command);
    Dispatch(Emit(s, [Echo(command)]), p.action, p.target, random)
  }
}
