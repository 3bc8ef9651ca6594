/** What the interpreter promises, proved about Process: the echo line, each case of the
    switch, the error paths that change nothing but the log, and the two invariants every
    command keeps (the current room is a room; every item is in exactly one place). */
module InterpreterLemmas {
  import opened Text
  import opened World
  import opened Messages
  import opened Interpreter

  /** Classify is the switch: each command is reached by exactly its labels, and the default
      case by every action that is none of them. */
  lemma ClassifySpec(action: string, c: Command)
    ensures c != Unrecognized ==> (Classify(action) == c <==> action in Labels(c))
    ensures Classify(action) == Unrecognized <==> forall d :: action !in Labels(d)
  {
    if Classify(action) != Unrecognized {
      assert action in Labels(Classify(action));
    }
  }

  // ---------------------------------------------------------------------------------------
  // The echo line

  /** Every command other than `clear` first appends exactly one input line, `"> "` followed
      by the raw command, and only appends after it. */
  lemma EchoComesFirst(s: State, command: string, random: real)
    requires Consistent(s) && 0.0 <= random < 1.0
    requires Classify(Parse(command).action) != Clear
    ensures var s' := Process(s, command, random);
      && |s'.history| > |s.history|
      && s'.history[..|s.history| + 1] == s.history + [Echo(command)]
      && s'.history[|s.history|].kind == Input
  {
    var e := Emit(s, [Echo(command)]);
    var p := Parse(command);
    var s' := Dispatch(e, p.action, p.target, random);
    assert |s'.history| >= |e.history| && s'.history[..|e.history|] == e.history;
  }

  /** The echo line shows `"> "` followed by the raw, un-normalised command. */
  lemma EchoText(command: string)
    ensures Echo(command).kind == Input && Echo(command).Content() == "> " + command
  {
  }

  /** `clear` leaves the log empty, whatever it held; the echo it queues first is discarded
      by the later `setHistory([])`. Nothing else changes. */
  lemma ClearEmptiesHistory(s: State, command: string, random: real)
    requires Consistent(s) && 0.0 <= random < 1.0
    requires Classify(Parse(command).action) == Clear
    ensures Process(s, command, random) == s.(history := [])
  {
  }

  // ---------------------------------------------------------------------------------------
  // download / acquire

  /** Downloading an item of the current room appends it to the inventory, filters every
      occurrence of it out of that room, leaves the other rooms and the location alone, and
      emits two output lines. */
  lemma DownloadSucceeds(s: State, command: string, random: real)
    requires Consistent(s) && 0.0 <= random < 1.0
    requires Classify(Parse(command).action) == Download
    requires Parse(command).target != "" && Parse(command).target in CurrentItems(s)
    ensures var s', t, here := Process(s, command, random), Parse(command).target, s.currentLocation;
      && s'.inventory == s.inventory + [t]
      && s'.locationItems == s.locationItems[here := Without(s.locationItems[here], t)]
      && t !in s'.locationItems[here]
      && (forall x :: x != t ==> multiset(s'.locationItems[here])[x] == multiset(s.locationItems[here])[x])
      && s'.currentLocation == here && s'.appState == s.appState && s'.currentInput == s.currentInput
      && s'.history == s.history + [Echo(command), Out(Downloading(t)), Out(TransferComplete)]
  {
    WithoutSpec(CurrentItems(s), Parse(command).target);
  }

  /** A download with no target, or of something not lying in the current room, changes
      nothing but the log, which gains the echo and one error line. */
  lemma DownloadFails(s: State, command: string, random: real)
    requires Consistent(s) && 0.0 <= random < 1.0
    requires Classify(Parse(command).action) == Download
    requires Parse(command).target == "" || Parse(command).target !in CurrentItems(s)
    ensures var s' := Process(s, command, random);
      && s' == s.(history := s'.history)
      && s'.history == s.history + [Echo(command),
           Err(if Parse(command).target == "" then DownloadWhat else DownloadFailed)]
  {
  }

  // ---------------------------------------------------------------------------------------
  // jack

  /** Jacking along exit `k` of the current room moves to the room it leads to and announces
      it: its description and, when it holds any, its items. */
  lemma JackMoves(s: State, command: string, random: real, k: nat)
    requires Consistent(s) && 0.0 <= random < 1.0
    requires Classify(Parse(command).action) == Jack
    requires k < |RoomExits[s.currentLocation]|
    requires RoomExits[s.currentLocation][k].direction == Parse(command).target
    ensures var s', t, next :=
      Process(s, command, random), Parse(command).target, RoomExits[s.currentLocation][k].destination;
      && s'.currentLocation == next && next in RoomExits
      && s'.inventory == s.inventory && s'.locationItems == s.locationItems
      && s'.appState == s.appState && s'.currentInput == s.currentInput
      && s'.history == s.history + [Echo(command), Out(JackingInto(t)), Out(LinkEstablished),
                                    Out(Description(next))] + ArtifactLines(s.locationItems[next])
  {
    RoomGraphWellFormed();
    LookupFinds(RoomExits[s.currentLocation], k);
  }

  /** Jacking in a direction that is not an exit of the current room, or in no direction,
      stays put and emits one error line. */
  lemma JackBlocked(s: State, command: string, random: real)
    requires Consistent(s) && 0.0 <= random < 1.0
    requires Classify(Parse(command).action) == Jack
    requires forall k :: 0 <= k < |RoomExits[s.currentLocation]| ==>
                         RoomExits[s.currentLocation][k].direction != Parse(command).target
    ensures var s' := Process(s, command, random);
      && s' == s.(history := s'.history)
      && s'.history == s.history + [Echo(command),
           Err(if Parse(command).target == "" then JackWhere else PathwayBlocked)]
  {
    LookupSpec(RoomExits[s.currentLocation], Parse(command).target);
  }

  // ---------------------------------------------------------------------------------------
  // The read-only commands

  /** Probing describes an item of the current room, verifies one held in the inventory, and
      otherwise reports an error; it never changes anything but the log. */
  lemma ProbeReports(s: State, command: string, random: real)
    requires Consistent(s) && 0.0 <= random < 1.0
    requires Classify(Parse(command).action) == Probe
    ensures var s', t := Process(s, command, random), Parse(command).target;
      && s' == s.(history := s'.history)
      && s'.history == s.history + [Echo(command)] +
           if t == "" then [Err(ProbeWhat)]
           else if t in CurrentItems(s) then [Out(ItemReport(t))]
           else if t in s.inventory then [Out(AnalyzingFromCache(t)), Out(ItemVerified)]
           else [Err(ArtifactNotFound)]
  {
  }

  /** Scanning reports the current room's description, its items when it holds any, and its
      exits, of which every room has some; nothing but the log changes. */
  lemma ScanReports(s: State, command: string, random: real)
    requires Consistent(s) && 0.0 <= random < 1.0
    requires Classify(Parse(command).action) == Scan
    ensures var s', here := Process(s, command, random), s.currentLocation;
      && s' == s.(history := s'.history)
      && s'.history == s.history + [Echo(command), Out(ScanHeader), Out(Description(here))]
           + ArtifactLines(CurrentItems(s)) + [Out(Pathways(Directions(RoomExits[here])))]
  {
    RoomGraphWellFormed();
  }

  /** The cache listing: an empty inventory gives the one "empty" line; otherwise a header,
      the items, and the count against the nominal ten slots. Nothing but the log changes. */
  lemma CacheReports(s: State, command: string, random: real)
    requires Consistent(s) && 0.0 <= random < 1.0
    requires Classify(Parse(command).action) == Cache
    ensures var s' := Process(s, command, random);
      && s' == s.(history := s'.history)
      && (s.inventory == [] ==> s'.history == s.history + [Echo(command), Out(CacheEmpty)])
      && (s.inventory != [] ==>
            s'.history == s.history + [Echo(command), Out(CacheHeader),
              Out(StoredArtifacts(s.inventory)), Out(CacheUtilization(|s.inventory|))])
  {
  }

  /** The "empty" line is in the cache listing exactly when the inventory is empty. */
  lemma CacheEmptyIff(inventory: seq<string>)
    ensures Out(CacheEmpty) in CacheLines(inventory) <==> inventory == []
  {
  }

  /** `ping` and `decrypt` emit one output line, one of their canned responses, and change
      nothing else. */
  lemma RandomResponses(s: State, command: string, random: real)
    requires Consistent(s) && 0.0 <= random < 1.0
    requires Classify(Parse(command).action) in {Ping, Decrypt}
    ensures var s', b := Process(s, command, random),
      if Classify(Parse(command).action) == Ping then PingResponses else DecryptMessages;
      && s' == s.(history := s'.history)
      && exists i: nat :: i < BlockSize(b) && s'.history == s.history + [Echo(command), Out(Canned(b, i))]
  {
    var b := if Classify(Parse(command).action) == Ping then PingResponses else DecryptMessages;
    var i := PickIndex(BlockSize(b), random);
    assert Process(s, command, random).history == s.history + [Echo(command), Out(Canned(b, i))];
  }

  /** `help`, `hack`, `sudo` and `contact` append, after the echo, their whole block of output
      lines, and change nothing else. */
  lemma CannedReports(s: State, command: string, random: real)
    requires Consistent(s) && 0.0 <= random < 1.0
    requires Classify(Parse(command).action) in {Help, Hack, Sudo, Contact}
    ensures var c := Classify(Parse(command).action);
      var b := if c == Help then HelpText else if c == Hack then HackText
               else if c == Sudo then SudoText else ContactText;
      var s' := Process(s, command, random);
      s' == s.(history := s.history + [Echo(command)] + CannedLines(b))
  {
  }

  /** `matrix` appends, after the echo, the architecture block and the current room in
      capitals, and changes nothing else. */
  lemma MatrixReports(s: State, command: string, random: real)
    requires Consistent(s) && 0.0 <= random < 1.0
    requires Classify(Parse(command).action) == Matrix
    ensures var s' := Process(s, command, random);
      && s' == s.(history := s.history + [Echo(command)] + CannedLines(MatrixText)
                               + [Out(CurrentLocation(s.currentLocation))])
      && Out(CurrentLocation(s.currentLocation)).Content() == "Current location: " + Upper(s.currentLocation)
  {
    CurrentLocationText(s.currentLocation);
  }

  /** An action the switch does not name emits, after the echo, exactly an error naming it
      and the help hint, and changes nothing else. */
  lemma UnknownAction(s: State, command: string, random: real)
    requires Consistent(s) && 0.0 <= random < 1.0
    requires Classify(Parse(command).action) == Unrecognized
    ensures Process(s, command, random) ==
      s.(history := s.history + [Echo(command), Err(NotRecognized(Parse(command).action)), Out(HelpHint)])
  {
  }

  /** `exit`, `quit` and `disconnect` switch to the exit screen and change nothing else but
      the echo. */
  lemma ExitCommands(s: State, command: string, random: real)
    requires Consistent(s) && 0.0 <= random < 1.0
    requires Classify(Parse(command).action) == Disconnect
    ensures Process(s, command, random) == s.(appState := ExitScreen, history := s.history + [Echo(command)])
  {
  }

  /** Only `jack` moves, only `download`/`acquire` move items, and only exit commands change
      the screen; the input field is never touched. */
  lemma WhatEachCommandChanges(s: State, command: string, random: real)
    requires Consistent(s) && 0.0 <= random < 1.0
    ensures var s', c := Process(s, command, random), Classify(Parse(command).action);
      && s'.currentInput == s.currentInput
      && (c != Jack ==> s'.currentLocation == s.currentLocation)
      && (c != Download ==> s'.inventory == s.inventory && s'.locationItems == s.locationItems)
      && (c != Disconnect ==> s'.appState == s.appState)
  {
    DispatchFrame(Emit(s, [Echo(command)]), Parse(command).action, Parse(command).target, random);
  }

  // ---------------------------------------------------------------------------------------
  // The room invariant

  /** What the switch may change, case by case, on a state that already has its echo line:
      the input field never; the room only by a jack along an exit; the inventory and the
      room lists only by a successful download, which moves the target from the current room
      into the inventory; the screen only by the exit commands. The room stays a room. */
  lemma DispatchFrame(e: State, action: string, target: string, random: real)
    requires Consistent(e) && 0.0 <= random < 1.0
    ensures var e', c := Dispatch(e, action, target, random), Classify(action);
      && Consistent(e')
      && e'.currentInput == e.currentInput
      && (c != Jack ==> e'.currentLocation == e.currentLocation)
      && (c == Download && target != "" && target in CurrentItems(e) ==>
            && e'.inventory == e.inventory + [target]
            && e'.locationItems ==
                 e.locationItems[e.currentLocation := Without(CurrentItems(e), target)])
      && (!(c == Download && target != "" && target in CurrentItems(e)) ==>
            e'.inventory == e.inventory && e'.locationItems == e.locationItems)
      && (c != Disconnect ==> e'.appState == e.appState)
  {
    var c := Classify(action);
    if c == Jack {
      JackFrame(e, target);
    } else if c == Download {
      DownloadFrame(e, target);
    }
  }

  /** A jack changes at most the room, and only to a room of the table. */
  lemma JackFrame(e: State, target: string)
    requires Consistent(e)
    ensures var e' := JackInto(e, target);
      && Consistent(e')
      && e' == e.(history := e'.history, currentLocation := e'.currentLocation)
  {
  }

  /** A download changes at most the inventory and the current room's list, and moves the
      target from the one to the other when it succeeds. */
  lemma DownloadFrame(e: State, target: string)
    requires Consistent(e)
    ensures var e' := DownloadTarget(e, target);
      && Consistent(e')
      && e' == e.(history := e'.history, inventory := e'.inventory, locationItems := e'.locationItems)
      && (target != "" && target in CurrentItems(e) ==>
            && e'.inventory == e.inventory + [target]
            && e'.locationItems ==
                 e.locationItems[e.currentLocation := Without(CurrentItems(e), target)])
      && (!(target != "" && target in CurrentItems(e)) ==>
            e'.inventory == e.inventory && e'.locationItems == e.locationItems)
  {
  }

  /** Every command keeps the current room one of the four rooms and keeps an item list for
      each room. */
  lemma ProcessKeepsConsistent(s: State, command: string, random: real)
    requires Consistent(s) && 0.0 <= random < 1.0
    ensures Consistent(Process(s, command, random))
  {
    DispatchFrame(Emit(s, [Echo(command)]), Parse(command).action, Parse(command).target, random);
  }

  /** The component starts in a consistent state. */
  lemma InitialConsistent()
    ensures Consistent(Initial())
  {
    RoomIdsAreLocations();
  }
}
