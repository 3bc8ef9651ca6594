# Diavlo terminal: the command interpreter

A model of the `Terminal` component of the Diavlo hacking terminal, a text adventure that
runs in the browser. The player types commands. The component:

- normalises and splits each command into an action and a target;
- echoes the raw command;
- dispatches on the action through one exact-match `switch`.

The commands move the player between four rooms (`jack`), inspect (`scan`, `probe`), move
items from the room into the inventory (`download`/`acquire`), list the inventory
(`cache`/`inventory`), print canned texts (`help`, `hack`, `matrix`, `sudo`, `contact`), pick
a random line (`ping`, `decrypt`), clear the log, or leave to the exit screen.

The project is in seven modules:

- `Text`: the JavaScript string operations the interpreter uses: ASCII `toLowerCase` and
  `toUpperCase`, ECMAScript `trim`, `split(' ')` and `join`, and the decimal rendering of a
  number. Each comes with lemmas saying what it computes.
- `World`: the static `locations` table, as two tables: exits in declaration order, and
  descriptions. Also the initial item seeding, the probe descriptions, and the exit lookup
  `exits[target]`. Lemmas establish that the room graph is well formed.
- `Messages`: every line the component can print, as a `Message` value, and `Render`, which
  gives its exact text.
- `Interpreter`: the session record (one field per `useState` slot), and `Process`, the
  interpreter as a function on that record. Every case of the switch reads the state from
  before the command, as the closure over the `useState` values does.
- `InterpreterLemmas` and `Conservation`: what the interpreter promises. This covers:
  - the echo line;
  - the success path and the error paths of each case, and that nothing else changes on them;
  - the room staying a room;
  - each item key being in exactly one place at all times.
- `TerminalComponent`: class `Terminal`, whose fields are the six `useState` slots and whose
  methods are the handlers.
  - Each method updates the fields one `addToHistory` (or setter) call at a time.
  - Each is proved to leave exactly the record `Process` (or the reset) describes.
  - Each handler (the constructor, `ProcessCommand`, the input change, submit, loading
    complete and restart) keeps or re-establishes the two invariants. The sub-steps of
    `processCommand` are stated as exact updates only.

`Math.random()` is a parameter `random` with `0 <= random < 1`. `PickIndex` floors the exact
real product `random * n`, which always gives an index into the list.

## Model

| member | source | states |
|---|---|---|
| Text.LowerIdempotent | src/Terminal.tsx:86 | a lowered string holds no ASCII capital, and lowering it again changes nothing |
| Text.LowerUpper | src/Terminal.tsx:86 | under the ASCII case mapping, lowering undoes upper-casing: `s.toUpperCase().toLowerCase()` equals `s.toLowerCase()` |
| Text.LowerKeepsWhitespace | src/Terminal.tsx:86 | lowering a character never changes whether it is whitespace |
| Text.TrimStartSpec | src/Terminal.tsx:86 | the start-trim result is a suffix of the input; everything cut off is whitespace; the result does not start with whitespace |
| Text.TrimEndSpec | src/Terminal.tsx:86 | the end-trim result is a prefix of the input; everything cut off is whitespace; the result does not end with whitespace |
| Text.TrimCuts | src/Terminal.tsx:86 | `trim` returns `s[i..j]` for some whitespace-only prefix `s[..i]` and suffix `s[j..]` |
| Text.TrimEdges | src/Terminal.tsx:86 | a non-empty trimmed string neither starts nor ends with whitespace |
| Text.TrimBlank | src/Terminal.tsx:335 | a string trims to the empty string exactly when every character of it is whitespace (both directions) |
| Text.LowerTrimBlank | src/Terminal.tsx:86 | `command.toLowerCase().trim()` is empty exactly when `command.trim()` is |
| Text.IndexOf | src/Terminal.tsx:87 | a position found for the separator is within the string |
| Text.IndexOfSpec | src/Terminal.tsx:87 | the search misses exactly when the character does not occur; a hit is its first occurrence |
| Text.Split | src/Terminal.tsx:87 | `split` always returns at least one piece |
| Text.SplitPieces | src/Terminal.tsx:87 | no piece of a split contains the separator |
| Text.JoinCons | src/Terminal.tsx:89 | joining a list with a head is the head, the separator, then the joined rest |
| Text.JoinSplit | src/Terminal.tsx:87-89 | joining the pieces of `s.split(c)` with `c` gives back `s`, for every string |
| Text.SplitFirst | src/Terminal.tsx:87-89 | the first piece is the text before the first separator; joining the remaining pieces gives back exactly the text after it, or there is no separator and the split is `[s]` |
| Text.Digit | src/Terminal.tsx:276 | the digit character of `d < 10` lies in '0'..'9' and reads back as `d` |
| Text.NatToString | src/Terminal.tsx:276 | `${n}` gives one or more decimal digits with no leading zero |
| Text.NatToStringValue | src/Terminal.tsx:276 | the decimal digits of `n` read back as `n` |
| World.DescribedItems | src/Terminal.tsx:188-233 | the probe switch has a case for exactly the eight seeded item keys, and none of them gets the `default` text |
| World.LookupSpec | src/Terminal.tsx:156-159 | the lookup `currentLoc.exits[target]` misses exactly when no exit of the room has that direction; a hit is the destination of such an exit |
| World.LookupFinds | src/Terminal.tsx:156-157 | with distinct directions, looking up the direction of any exit yields that exit's destination |
| World.RoomGraphWellFormed | src/Terminal.tsx:32-64 | every exit leads to a key of `locations`; directions are distinct within a room; every room has an exit; no direction is empty; every room has a description |
| World.RoomIdsAreLocations | src/Terminal.tsx:21-28 | the room keys are exactly the keys of `locations`, each listed once; the initial `locationItems` has exactly those keys; the start room `mainframe` is one of them |
| Messages.CacheUtilizationText | src/Terminal.tsx:276 | the utilisation line is `CACHE UTILIZATION: ` followed by one or more decimal digits with no leading zero that read back as the count, then `/10 slots` |
| Messages.CurrentLocationText | src/Terminal.tsx:293 | the matrix status line is `Current location: ` followed by the room in capitals |
| Messages.PingResponseText | src/Terminal.tsx:97-102 | the line for any valid `ping` index is one of the four canned responses |
| Messages.DecryptMessageText | src/Terminal.tsx:103-109 | the line for any valid `decrypt` index is one of the five canned messages |
| Interpreter.WelcomeShown | src/Terminal.tsx:16-18 | printed whole, the welcome block gives one output line per line of its text, each showing that line, in order |
| Interpreter.HelpShown | src/Terminal.tsx:113-124 | printed whole, the help block gives one output line per line of its text, each showing that line, in order |
| Interpreter.HackShown | src/Terminal.tsx:281-285 | printed whole, the hack block gives one output line per line of its text, each showing that line, in order |
| Interpreter.MatrixShown | src/Terminal.tsx:289-292 | printed whole, the architecture block gives one output line per line of its text, each showing that line, in order |
| Interpreter.SudoShown | src/Terminal.tsx:305-308 | printed whole, the sudo block gives one output line per line of its text, each showing that line, in order |
| Interpreter.ContactShown | src/Terminal.tsx:312-314 | printed whole, the contact block gives one output line per line of its text, each showing that line, in order |
| Interpreter.SplitCommandSpec | src/Terminal.tsx:87-89 | the action contains no space. With no space in the command, the action is all of it and the target is empty. Otherwise the action is the text before the first space, the target is everything after it with inner spaces kept, and `action + " " + target` is the command |
| Interpreter.CapitalsParseAlike | src/Terminal.tsx:86-89 | under the ASCII case mapping, a command typed in capitals parses exactly as the same command in small letters |
| Interpreter.ActionIsLowerCase | src/Terminal.tsx:86-88 | the action holds no ASCII capital, so only the lower-case `case` labels can match it |
| Interpreter.NonBlankHasAction | src/Terminal.tsx:86-88 | a command that is not blank always yields a non-empty action |
| Interpreter.PickIndex | src/Terminal.tsx:296-302 | `Math.floor(random * n)` with `0 <= random < 1` is a valid index into a list of `n` entries |
| Interpreter.WithoutSpec | src/Terminal.tsx:258 | `filter(item => item !== target)` removes every copy of the target and keeps every other item exactly as often as before; with no copy present the list is unchanged |
| Interpreter.WithoutAppend | src/Terminal.tsx:258 | filtering a concatenation filters each part, so the kept items stay in their original order |
| Interpreter.WithoutSingleton | src/Terminal.tsx:258 | a one-item list keeps its item exactly when it is not the target |
| InterpreterLemmas.ClassifySpec | src/Terminal.tsx:111-330 | each command case is reached exactly by its `case` labels (both directions); the default case is reached exactly by actions that match no label |
| InterpreterLemmas.EchoComesFirst | src/Terminal.tsx:91 | every command except `clear` appends exactly one `input` line, the echo, before anything else it appends |
| InterpreterLemmas.EchoText | src/Terminal.tsx:91 | the echo line is an `input` line whose text is `"> "` followed by the raw, un-normalised command |
| InterpreterLemmas.ClearEmptiesHistory | src/Terminal.tsx:317-319 | after `clear` the history is empty and nothing else has changed; the queued echo is discarded |
| InterpreterLemmas.DownloadSucceeds | src/Terminal.tsx:252-261 | downloading an item of the current room appends it to the inventory, filters every copy out of that room's list, keeps every other item's count there, leaves the other rooms, the location, the screen and the input alone, and emits the echo then two output lines |
| InterpreterLemmas.DownloadFails | src/Terminal.tsx:247-264 | a download without a target, or of an item not in the current room, changes nothing but the log, which gains the echo and exactly one error line (`DOWNLOAD WHAT?` or `DOWNLOAD FAILED`) |
| InterpreterLemmas.JackMoves | src/Terminal.tsx:153-174 | jacking along an exit of the current room moves to that exit's destination, a room of the table. It emits the jacking line, the link line, the new room's description and, when the room holds items, the artifact line. Items, inventory, screen and input stay unchanged |
| InterpreterLemmas.JackBlocked | src/Terminal.tsx:149-177 | jacking in no direction, or in one the room has no exit for, stays put, changes nothing but the log, and emits `JACK WHERE?` or `PATHWAY BLOCKED` as the one error line after the echo |
| InterpreterLemmas.ProbeReports | src/Terminal.tsx:181-243 | `probe` changes nothing but the log. It emits, after the echo: a `PROBE WHAT?` error with no target; the item's description for an item of the current room; the two cache lines for an item in the inventory; otherwise `ARTIFACT NOT FOUND` as an error |
| InterpreterLemmas.ScanReports | src/Terminal.tsx:127-146 | `scan` changes nothing but the log. After the echo, it emits the header, the room's description, the artifact line if the room holds items, and the pathways line, which every room has |
| InterpreterLemmas.CacheReports | src/Terminal.tsx:267-278 | `cache`/`inventory` changes nothing but the log. An empty inventory gives the echo and `CACHE EMPTY`. Otherwise it gives the header, the stored items, and the utilisation line with the inventory's length |
| InterpreterLemmas.CacheEmptyIff | src/Terminal.tsx:269-277 | `CACHE EMPTY` is among the cache lines exactly when the inventory is empty |
| InterpreterLemmas.RandomResponses | src/Terminal.tsx:296-302 | `ping` and `decrypt` change nothing but the log, which gains the echo and one of their canned lines |
| InterpreterLemmas.CannedReports | src/Terminal.tsx:112-315 | `help`, `hack`, `sudo` and `contact` append, after the echo, every line of their block in order and change nothing else |
| InterpreterLemmas.MatrixReports | src/Terminal.tsx:288-294 | `matrix` appends, after the echo, the architecture block and `Current location: ` with the room in capitals, and changes nothing else |
| InterpreterLemmas.UnknownAction | src/Terminal.tsx:327-329 | an action no label names appends, after the echo, exactly the error `COMMAND NOT RECOGNIZED` for that action and the help hint, and changes nothing else |
| InterpreterLemmas.ExitCommands | src/Terminal.tsx:321-325 | `exit`, `quit` and `disconnect` switch to the exit screen, and change nothing else except appending the echo |
| InterpreterLemmas.WhatEachCommandChanges | src/Terminal.tsx:111-330 | only `jack` changes the room, only `download`/`acquire` change the items, and only the exit commands change the screen; no command touches the input field |
| InterpreterLemmas.DispatchFrame | src/Terminal.tsx:111-330 | for each case of the switch, on a state with the echo line: the room stays a room; the input is untouched; the room changes only by `jack`; the screen changes only by the exit commands; the inventory and room lists change only by a successful download, which moves the target from the current room into the inventory |
| InterpreterLemmas.JackFrame | src/Terminal.tsx:148-179 | a jack changes at most the log and the room, and only to a room of the table |
| InterpreterLemmas.DownloadFrame | src/Terminal.tsx:245-265 | a download changes at most the log, the inventory and the room lists; on success exactly as `setInventory`/`setLocationItems` say, otherwise not at all |
| InterpreterLemmas.ProcessKeepsConsistent | src/Terminal.tsx:85-331 | every command keeps the current room a key of `locations` and keeps an item list for exactly the rooms |
| InterpreterLemmas.InitialConsistent | src/Terminal.tsx:21-28 | the initial state is consistent |
| Conservation.RoomStockOther | src/Terminal.tsx:254-259 | replacing the list of a room outside the counted ones leaves their stock alone |
| Conservation.RoomStockUpdate | src/Terminal.tsx:254-259 | replacing one counted room's list changes the stock by exactly that replacement |
| Conservation.RoomStockHolds | src/Terminal.tsx:23-28 | the stock of the rooms contains each room's list, and two distinct rooms' lists together |
| Conservation.RoomStockWitness | src/Terminal.tsx:23-28 | anything in the rooms' stock lies in one of the rooms |
| Conservation.RoomsPlacement | src/Terminal.tsx:23-28 | when the rooms hold nothing twice, no list repeats an item and no two rooms share one |
| Conservation.RoomStockMembers | src/Terminal.tsx:23-28 | an item is in the rooms' stock exactly when some room lists it |
| Conservation.StockFlatten | src/Terminal.tsx:23-28 | the rooms' stock is the multiset of their lists laid end to end |
| Conservation.DistinctOnce | src/Terminal.tsx:23-28 | a list without repeats holds each entry once |
| Conservation.SeedingFlattens | src/Terminal.tsx:23-28 | the initial room lists, room after room, are the eight item keys |
| Conservation.InitialConserved | src/Terminal.tsx:22-28 | initially every item key is in exactly one place and nothing else is anywhere |
| Conservation.AllItemsDistinct | src/Terminal.tsx:23-28 | no item key is seeded twice |
| Conservation.AllItemsOnce | src/Terminal.tsx:23-28 | the catalogue counts each item key once and any other string not at all |
| Conservation.ConservedStock | src/Terminal.tsx:22-28 | a conserved world holds, with multiplicity, exactly the eight seeded keys |
| Conservation.Placement | src/Terminal.tsx:22-28 | when inventory and rooms together hold each listed key once: no key is twice in the inventory or in one room; no key is both in the inventory and in a room, or in two rooms; the keys are exactly what lies anywhere |
| Conservation.ConservedPlacement | src/Terminal.tsx:22-28 | in every conserved state each item key is in exactly one place, the inventory or one room, never duplicated, and only item keys are anywhere |
| Conservation.ProbeNeverDefault | src/Terminal.tsx:187-233 | in every conserved state an item lying in the current room has its own description, so the `default:` branch at lines 229-232 is never reached |
| Conservation.RoomHoldsOnce | src/Terminal.tsx:252-258 | in a conserved state the current room lists the download target at most once, so the filter removes exactly one copy |
| Conservation.SameWorld | src/Terminal.tsx:333-349 | the two invariants depend only on the room, the inventory and the room lists, so a change to the screen, the log or the input keeps them |
| Conservation.InventoryBounded | src/Terminal.tsx:276 | the inventory never holds more than the eight item keys, so the nominal ten cache slots are never exceeded |
| Conservation.WithoutSingle | src/Terminal.tsx:258 | filtering out an item a list holds exactly once removes exactly that one copy |
| Conservation.DownloadMovesOne | src/Terminal.tsx:253-259 | appending the target to the inventory and filtering it out of its room, where it lay once, keeps the total stock |
| Conservation.DispatchKeepsConserved | src/Terminal.tsx:111-330 | every case of the switch keeps each item key in exactly one place |
| Conservation.ProcessKeepsConserved | src/Terminal.tsx:85-331 | every processed command keeps each item key in exactly one place |
| TerminalComponent.Terminal.constructor | src/Terminal.tsx:14-28 | the fields start as the `useState` initial values: the loading screen, the three welcome lines, empty input, the mainframe, an empty inventory, the seeding; both invariants hold |
| TerminalComponent.Terminal.AddToHistory | src/Terminal.tsx:78-83 | appends one line of the given kind and changes nothing else |
| TerminalComponent.Terminal.AddBlock | src/Terminal.tsx:112-124 | a run of `addToHistory` calls appends the lines of a canned block in order and changes nothing else |
| TerminalComponent.Terminal.AddArtifacts | src/Terminal.tsx:132-138 | appends the artifact line exactly when the list is non-empty |
| TerminalComponent.Terminal.Scan | src/Terminal.tsx:127-146 | the fields end up exactly as the `scan` case of the model says |
| TerminalComponent.Terminal.Jack | src/Terminal.tsx:148-179 | the fields end up exactly as the `jack` case of the model says |
| TerminalComponent.Terminal.Probe | src/Terminal.tsx:181-243 | the fields end up exactly as the `probe` case of the model says |
| TerminalComponent.Terminal.Download | src/Terminal.tsx:245-265 | the fields end up exactly as the `download` case of the model says |
| TerminalComponent.Terminal.ListCache | src/Terminal.tsx:267-278 | the fields end up exactly as the `cache` case of the model says |
| TerminalComponent.Terminal.Respond | src/Terminal.tsx:111-330 | the switch leaves the fields exactly as `Dispatch` says for the action |
| TerminalComponent.Terminal.ProcessCommand | src/Terminal.tsx:85-331 | `processCommand` leaves the fields exactly as `Process` says and keeps both invariants |
| TerminalComponent.Terminal.HandleInputChange | src/Terminal.tsx:416 | typing sets the input field and nothing else, and keeps both invariants |
| TerminalComponent.Terminal.HandleSubmit | src/Terminal.tsx:333-339 | a blank input changes nothing. Any other input is processed, then the input is cleared. Both invariants are kept |
| TerminalComponent.Terminal.HandleLoadingComplete | src/Terminal.tsx:347-349 | switches to the terminal screen, changes nothing else, and keeps both invariants when they held before |
| TerminalComponent.Terminal.HandleRestart | src/Terminal.tsx:351-367 | every field returns to its initial value, and both invariants hold again |

## Left out

- Rendering: the JSX, the CSS classes, the status bar, and the `useEffect` scroll and focus
  handlers (src/Terminal.tsx:66-76, 369-435). They are presentation only. Choosing a screen
  from `appState` is kept as the `appState` field.
- `handleKeyDown` (src/Terminal.tsx:341-345): it only suppresses the default action of the
  arrow keys.
- Loading.tsx, ExitScreen.tsx and main.tsx are not part of this model. These are timer-driven
  animations and the DOM bootstrap. Their only effect on the core is calling
  `handleLoadingComplete` and `handleRestart`, which are modelled.
- The 100 ms `setTimeout` after a successful jack: its lines are emitted at once, in the same
  order. Its closure reads the same pre-command `locationItems`. In the source, a command
  submitted within those 100 ms puts its lines between the link line and the deferred lines.
  The model does not capture that interleaving.
- `Math.random`: a parameter in [0, 1), not a random source.
- Interpreter.PickIndex: takes the product `random * n` over the reals, not over IEEE
  doubles. For some `random` the rounded double product reaches the next integer where the
  exact product does not.
  - Example: `random` = ((3·2^53−1)/5)·2^−53 with n = 5 gives 3 in JavaScript and 2 here.
  - This changes which canned line a given `random` picks.
  - It does not change the set of lines that can be picked.
- Case mapping: `toLowerCase` and `toUpperCase` change only ASCII letters. The full Unicode
  mappings are not modelled, and this changes which case some inputs reach. For example,
  JavaScript lowers U+212A KELVIN SIGN to `k`, so `JAC\u212A` reaches `jack` in the source but
  the default case here. Likewise the `COMMAND NOT RECOGNIZED:` line keeps non-ASCII
  capitals: for `ÉCHO` JavaScript prints `écho`, the model `Écho`.
- The exit lookup: `exits[target]` for a prototype key such as `constructor` is treated as a
  miss. In JavaScript it yields a non-string, which then fails the `in locations` test, so
  both give the blocked path.
- Messages.Render: the log holds `Message` values, and `Render` gives their exact text. A
  canned index past its block and a room missing from the table render as the empty string.
  - Rooms: every room has a description (`RoomGraphWellFormed`).
  - Ping and decrypt: the indices are within their blocks (`PingResponseText`,
    `DecryptMessageText`).
  - Other blocks: each block printed whole shows exactly its lines (`HelpShown` and the
    like).
- Interpreter.Process: requires the current room to be a room and `locationItems` to have
  exactly the rooms as keys. The component establishes this (`InitialConsistent`) and keeps it
  (`ProcessKeepsConsistent`). The source's fallbacks for a missing room cannot arise: the
  `|| []` at line 94 and the `in locations` tests at lines 128 and 153.
- TerminalComponent.Terminal.ProcessCommand: requires both invariants. The constructor
  establishes them, and every handler keeps them. The source needs only the first: without a
  room list for the current room, its `roomItems.includes` at line 252 would throw. The
  conservation invariant is required so that the method can promise to keep it.
- Messages.PingResponseText and Messages.DecryptMessageText: state only that the line is one
  of the canned ones. The exact index, `Math.floor(random * n)`, is fixed in `Dispatch`.
