/** The `Terminal` component as an object: one field per `useState` slot, and one method per
    handler. Each handler is proved to leave the fields exactly as the functional model says,
    and to keep the two invariants (the room is a room; every item is in exactly one place). */
module TerminalComponent {
  import opened Text
  import opened World
  import opened Messages
  import opened Interpreter
  import opened InterpreterLemmas
  import opened Conservation

  class Terminal {
    var appState: AppState
    var history: seq<Line>
    var currentInput: string
    var currentLocation: string
    var inventory: seq<string>
    var locationItems: map<string, seq<string>>

    /** The fields as one session record. */
    function Snapshot(): State
      reads this
    {
      State(appState, history, currentInput, currentLocation, inventory, locationItems)
    }

    ghost predicate Valid()
      reads this
    {
      Consistent(Snapshot()) && Conserved(Snapshot())
    }

    /** The initial `useState` values. */
    constructor ()
      ensures Snapshot() == Initial() && Valid()
    {
      appState := LoadingScreen;
      history := CannedLines(WelcomeText);
      currentInput := "";
      currentLocation := StartRoom;
      inventory := [];
      locationItems := InitialLocationItems;
      new;
      InitialConsistent();
      InitialConserved();
    }

    /** `addToHistory`: appends one line of the given kind. */
    method AddToHistory(message: Message, kind: LineKind)
      modifies this
      ensures Snapshot() == old(Snapshot()).(history := old(history) + [Line(kind, message)])
    {
      history := history + [Line(kind, message)];
    }

    /** A run of `addToHistory` calls, one per line of a canned block. */
    method AddBlock(b: Block)
      modifies this
      ensures Snapshot() == Emit(old(Snapshot()), CannedLines(b))
    {
      var lines := CannedLines(b);
      for k := 0 to |lines|
        invariant Snapshot() == Emit(old(Snapshot()), lines[..k])
      {
        AddToHistory(Canned(b, k), Output);
        assert lines[..k + 1] == lines[..k] + [lines[k]];
      }
      assert lines[..|lines|] == lines;
    }

    /** `DIGITAL ARTIFACTS DETECTED: ...`, only when the list holds something. */
    method AddArtifacts(items: seq<string>)
      modifies this
      ensures Snapshot() == Emit(old(Snapshot()), ArtifactLines(items))
    {
      if |items| > 0 {
        AddToHistory(Artifacts(items), Output);
      }
    }

    method Scan()
      requires Consistent(Snapshot())
      modifies this
      ensures Snapshot() == ScanRoom(old(Snapshot()))
    {
      var here := currentLocation;
      var items := locationItems[here];
      AddToHistory(ScanHeader, Output);
      AddToHistory(Description(here), Output);
      AddArtifacts(items);
      var exits := Directions(RoomExits[here]);
      if |exits| > 0 {
        AddToHistory(Pathways(exits), Output);
      }
    }

    method Jack(target: string)
      requires Consistent(Snapshot())
      modifies this
      ensures Snapshot() == JackInto(old(Snapshot()), target)
    {
      if target == "" {
        AddToHistory(JackWhere, Error);
        return;
      }
      var items := locationItems;
      var next := Lookup(RoomExits[currentLocation], target);
      if next.Some? && next.value in RoomExits {
        currentLocation := next.value;
        AddToHistory(JackingInto(target), Output);
        AddToHistory(LinkEstablished, Output);
        // the deferred part, emitted at once
        AddToHistory(Description(next.value), Output);
        AddArtifacts(items[next.value]);
      } else {
        AddToHistory(PathwayBlocked, Error);
      }
    }

    method Probe(target: string)
      requires Consistent(Snapshot())
      modifies this
      ensures Snapshot() == ProbeTarget(old(Snapshot()), target)
    {
      if target == "" {
        AddToHistory(ProbeWhat, Error);
        return;
      }
      var currentItems := locationItems[currentLocation];
      if target in currentItems {
        AddToHistory(ItemReport(target), Output);
      } else if target in inventory {
        AddToHistory(AnalyzingFromCache(target), Output);
        AddToHistory(ItemVerified, Output);
      } else {
        AddToHistory(ArtifactNotFound, Error);
      }
    }

    method Download(target: string)
      requires Consistent(Snapshot())
      modifies this
      ensures Snapshot() == DownloadTarget(old(Snapshot()), target)
    {
      if target == "" {
        AddToHistory(DownloadWhat, Error);
        return;
      }
      var roomItems := locationItems[currentLocation];
      if target in roomItems {
        inventory := inventory + [target];
        locationItems := locationItems[currentLocation := Without(roomItems, target)];
        AddToHistory(Downloading(target), Output);
        AddToHistory(TransferComplete, Output);
      } else {
        AddToHistory(DownloadFailed, Error);
      }
    }

    method ListCache()
      modifies this
      ensures Snapshot() == Emit(old(Snapshot()), CacheLines(old(inventory)))
    {
      if |inventory| == 0 {
        AddToHistory(CacheEmpty, Output);
      } else {
        AddToHistory(CacheHeader, Output);
        AddToHistory(StoredArtifacts(inventory), Output);
        AddToHistory(CacheUtilization(|inventory|), Output);
      }
    }

    /** The switch of `processCommand`, on a log that already has the echo line. */
    method Respond(action: string, target: string, random: real)
      requires Consistent(Snapshot()) && 0.0 <= random < 1.0
      modifies this
      ensures Snapshot() == Dispatch(old(Snapshot()), action, target, random)
    {
      match Classify(action)
      case Help => AddBlock(HelpText);
      case Scan => Scan();
      case Jack => Jack(target);
      case Probe => Probe(target);
      case Download => Download(target);
      case Cache => ListCache();
      case Hack => AddBlock(HackText);
      case Matrix =>
        var here := currentLocation;
        AddBlock(MatrixText);
        AddToHistory(CurrentLocation(here), Output);
      case Ping => AddToHistory(Canned(PingResponses, PickIndex(BlockSize(PingResponses), random)), Output);
      case Decrypt =>
        AddToHistory(Canned(DecryptMessages, PickIndex(BlockSize(DecryptMessages), random)), Output);
      case Sudo => AddBlock(SudoText);
      case Contact => AddBlock(ContactText);
      case Clear => history := [];
      case Disconnect => appState := ExitScreen;
      case Unrecognized =>
        AddToHistory(NotRecognized(action), Error);
        AddToHistory(HelpHint, Output);
    }

    /** `processCommand`: parse, echo the raw command, then dispatch. */
    method ProcessCommand(command: string, random: real)
      requires Valid() && 0.0 <= random < 1.0
      modifies this
      ensures Snapshot() == Process(old(Snapshot()), command, random)
      ensures Valid()
    {
      ghost var s := Snapshot();
      var p := Parse(command);
      AddToHistory(Prompt(command), Input);
      Respond(p.action, p.target, random);
      ProcessKeepsConsistent(s, command, random);
      ProcessKeepsConserved(s, command, random);
    }

    /** The input's `onChange`. */
    method HandleInputChange(value: string)
      modifies this
      ensures Snapshot() == old(Snapshot()).(currentInput := value)
      ensures old(Valid()) ==> Valid()
    {
      ghost var s := Snapshot();
      currentInput := value;
      SameWorld(s, Snapshot());
    }

    /** `handleSubmit`: a blank input is ignored; otherwise it is processed and the input
        cleared. */
    method HandleSubmit(random: real)
      requires Valid() && 0.0 <= random < 1.0
      modifies this
      ensures Trim(old(currentInput)) == [] ==> Snapshot() == old(Snapshot())
      ensures Trim(old(currentInput)) != [] ==>
        Snapshot() == Process(old(Snapshot()), old(currentInput), random).(currentInput := "")
      ensures Valid()
    {
      if Trim(currentInput) != [] {
        ProcessCommand(currentInput, random);
        ghost var processed := Snapshot();
        currentInput := "";
        assert Snapshot() == processed.(currentInput := "");
        SameWorld(processed, Snapshot());
      }
    }

    /** `handleLoadingComplete`: the loading screen hands over to the terminal. */
    method HandleLoadingComplete()
      modifies this
      ensures Snapshot() == old(Snapshot()).(appState := TerminalScreen)
      ensures old(Valid()) ==> Valid()
    {
      ghost var s := Snapshot();
      appState := TerminalScreen;
      SameWorld(s, Snapshot());
    }

    /** `handleRestart`: every slot back to its initial value. */
    method HandleRestart()
      modifies this
      ensures Snapshot() == Initial() && Valid()
    {
      appState := LoadingScreen;
      history := CannedLines(WelcomeText);
      currentInput := "";
      currentLocation := StartRoom;
      inventory := [];
      locationItems := InitialLocationItems;
      assert Snapshot() == Initial();
      InitialConsistent();
      InitialConserved();
    }
  }
}
