/** The static world of the terminal: the four rooms with their exits and descriptions, the
    items each room is seeded with, and the canned description of each item. */
module World {
  import opened Text

  /** One entry of a room's `exits` object: a direction name and the room it leads to. */
  datatype Exit = Exit(direction: string, destination: string)

  /** The `exits` halves of the `locations` table; each room's exits are listed in the order
      the object literal declares them, which is the order `Object.keys` reports them in. */
  const RoomExits: map<string, seq<Exit>> := map[
    "mainframe" := [Exit("north", "server_room"), Exit("east", "data_vault")],
    "server_room" := [Exit("south", "mainframe"), Exit("west", "control_center")],
    "data_vault" := [Exit("west", "mainframe")],
    "control_center" := [Exit("east", "server_room"), Exit("south", "mainframe")]
  ]

  /** The `description` halves of the `locations` table. */
  const RoomDescriptions: map<string, string> := map[
    "mainframe" :=
      "You're connected to the central MAINFRAME. Neon data streams flow around you. Exit ports: NORTH to SERVER_ROOM, EAST to DATA_VAULT.",
    "server_room" :=
      "Massive server towers hum with digital energy. The air crackles with electricity. Exits: SOUTH to MAINFRAME, WEST to CONTROL_CENTER.",
    "data_vault" :=
      "A secured digital vault filled with encrypted files and firewalls. Security protocols active. Exit: WEST to MAINFRAME.",
    "control_center" :=
      "The nerve center of the digital realm. Multiple screens display system status. Exits: EAST to SERVER_ROOM, SOUTH to MAINFRAME."
  ]

  /** The room keys, in declaration order. */
  const RoomIds: seq<string> := ["mainframe", "server_room", "data_vault", "control_center"]

  const StartRoom: string := "mainframe"

  /** The initial `locationItems` record: two items per room. */
  const InitialLocationItems: map<string, seq<string>> := map[
    "mainframe" := ["data_chip", "encryption_key"],
    "server_room" := ["backup_drive", "neural_implant"],
    "data_vault" := ["quantum_core", "security_token"],
    "control_center" := ["admin_pass", "crypto_wallet"]
  ]

  /** Every item key the world holds, each once. */
  const AllItems: seq<string> := [
    "data_chip", "encryption_key", "backup_drive", "neural_implant",
    "quantum_core", "security_token", "admin_pass", "crypto_wallet"
  ]

  /** The `probe` descriptions of the known items; any other key gets ProbeDefault. */
  const ItemDescriptions: map<string, string> := map[
    "data_chip" := "ENCRYPTED DATA CHIP - Contains classified neural patterns. Military grade encryption detected.",
    "encryption_key" := "QUANTUM ENCRYPTION KEY - 2048-bit encryption. Glows with digital energy.",
    "backup_drive" := "BACKUP DRIVE - Emergency protocols stored. Last backup: 2025.07.26.03:42:15",
    "neural_implant" := "NEURAL IMPLANT - Biotech interface device. Increases processing speed by 300%.",
    "quantum_core" := "QUANTUM CORE - The heart of the digital realm. Pulses with infinite computational power.",
    "security_token" := "SECURITY TOKEN - Admin access credentials. Handle with extreme caution.",
    "admin_pass" := "ADMIN PASSWORD - Root access key: 'Th3_M4tr1x_1s_R34l'. Use wisely.",
    "crypto_wallet" := "CRYPTO WALLET - Contains 13.37 DiavloCoin. Digital fortune awaits."
  ]

  const ProbeDefault: string := "SCAN COMPLETE - No significant data patterns detected."

  /** The `switch (target)` of the probe case: one description per known item key, and the
      `default` text for any other key. */
  function ItemDescription(item: string): string {
    if item in ItemDescriptions then ItemDescriptions[item] else ProbeDefault
  }

  /** Exactly the seeded item keys have a description of their own, and none of those is the
      `default` text. */
  lemma DescribedItems()
    ensures forall x :: x in ItemDescriptions <==> x in AllItems
    ensures forall x :: x in AllItems ==> ItemDescription(x) != ProbeDefault
  {
  }

  /** `exits[direction]`, looking only at the room's own exits. */
  function Lookup(exits: seq<Exit>, direction: string): Option<string> {
    if exits == [] then None
    else if exits[0].direction == direction then Some(exits[0].destination)
    else Lookup(exits[1..], direction)
  }

  /** Lookup misses exactly when no exit has the direction, and a hit names an exit the room
      has. */
  lemma {:induction false} LookupSpec(exits: seq<Exit>, direction: string)
    ensures var r := Lookup(exits, direction);
      && (r.None? <==> forall k :: 0 <= k < |exits| ==> exits[k].direction != direction)
      && (r.Some? ==> exists k :: 0 <= k < |exits| && exits[k] == Exit(direction, r.value))
  {
    if exits != [] && exits[0].direction != direction {
      LookupSpec(exits[1..], direction);
      assert forall k :: 1 <= k < |exits| ==> exits[k] == exits[1..][k - 1];
    }
  }

  /** With distinct directions, Lookup finds the destination of any exit the room has. */
  lemma {:induction false} LookupFinds(exits: seq<Exit>, k: nat)
    requires k < |exits| && DistinctDirections(exits)
    ensures Lookup(exits, exits[k].direction) == Some(exits[k].destination)
  {
    if k > 0 {
      assert DistinctDirections(exits[1..]);
      LookupFinds(exits[1..], k - 1);
    }
  }

  /** `Object.keys(exits)`: the direction names, in order. */
  function Directions(exits: seq<Exit>): seq<string> {
    seq(|exits|, k requires 0 <= k < |exits| => exits[k].direction)
  }

  /** No direction is listed twice in one room, as keys of an object literal cannot be. */
  ghost predicate DistinctDirections(exits: seq<Exit>) {
    forall j, k :: 0 <= j < k < |exits| ==> exits[j].direction != exits[k].direction
  }

  /** The room graph is well formed: every exit leads to a room of the table, no room lists a
      direction twice, every room has some exit, no direction is the empty name, and every
      room has a description. */
  lemma RoomGraphWellFormed()
    ensures forall id, k :: id in RoomExits && 0 <= k < |RoomExits[id]| ==>
      RoomExits[id][k].destination in RoomExits
    ensures forall id :: id in RoomExits ==> DistinctDirections(RoomExits[id])
    ensures forall id :: id in RoomExits ==> |RoomExits[id]| > 0
    ensures forall id, k :: id in RoomExits && 0 <= k < |RoomExits[id]| ==> RoomExits[id][k].direction != ""
    ensures RoomDescriptions.Keys == RoomExits.Keys
  {
  }

  /** RoomIds lists exactly the keys of the table, each once, and the seeding covers the same
      rooms. */
  lemma RoomIdsAreLocations()
    ensures forall id :: id in RoomIds <==> id in RoomExits
    ensures forall j, k :: 0 <= j < k < |RoomIds| ==> RoomIds[j] != RoomIds[k]
    ensures InitialLocationItems.Keys == RoomExits.Keys
    ensures StartRoom in RoomExits
  {
  }
}
