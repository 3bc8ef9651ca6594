/** Item conservation. The eight item keys start out two to a room; a download moves one key
    from the current room into the inventory and no other command moves any. So every key is
    always in exactly one place, the inventory or one room, and never twice. */
module Conservation {
  import opened World
  import opened Interpreter
  import opened InterpreterLemmas

  /** The items lying in the rooms named by `ids`, with multiplicity. */
  function RoomStock(items: map<string, seq<string>>, ids: seq<string>): multiset<string> {
    if ids == [] then multiset{}
    else (if ids[0] in items then multiset(items[ids[0]]) else multiset{}) + RoomStock(items, ids[1..])
  }

  /** Everything the world holds: the inventory and every room's list, with multiplicity. */
  ghost function Stock(inventory: seq<string>, items: map<string, seq<string>>): multiset<string> {
    multiset(inventory) + RoomStock(items, RoomIds)
  }

  /** Altogether the world holds each of the eight item keys exactly once, and nothing else. */
  ghost predicate Conserved(s: State) {
    forall x :: Stock(s.inventory, s.locationItems)[x] == if x in AllItems then 1 else 0
  }

  ghost predicate Distinct(ids: seq<string>) {
    forall j, k :: 0 <= j < k < |ids| ==> ids[j] != ids[k]
  }

  /** Replacing the list of a room the ids do not name leaves their stock alone. */
  lemma {:induction false} RoomStockOther(items: map<string, seq<string>>, ids: seq<string>, id: string, v: seq<string>)
    requires id !in ids
    ensures RoomStock(items[id := v], ids) == RoomStock(items, ids)
  {
    if ids != [] {
      RoomStockOther(items, ids[1..], id, v);
    }
  }

  /** Replacing the list of one named room changes the stock by exactly that replacement. */
  lemma {:induction false} RoomStockUpdate(items: map<string, seq<string>>, ids: seq<string>, id: string, v: seq<string>)
    requires id in items && id in ids && Distinct(ids)
    ensures RoomStock(items[id := v], ids) + multiset(items[id]) == RoomStock(items, ids) + multiset(v)
  {
    if ids[0] == id {
      assert id !in ids[1..];
      RoomStockOther(items, ids[1..], id, v);
    } else {
      assert id in ids[1..];
      assert Distinct(ids[1..]);
      RoomStockUpdate(items, ids[1..], id, v);
      var upd := items[id := v];
      assert (ids[0] in upd) == (ids[0] in items);
      assert ids[0] in items ==> upd[ids[0]] == items[ids[0]];
      var head := if ids[0] in items then multiset(items[ids[0]]) else multiset{};
      assert RoomStock(upd, ids) == head + RoomStock(upd, ids[1..]);
      assert RoomStock(items, ids) == head + RoomStock(items, ids[1..]);
      forall x ensures (RoomStock(upd, ids) + multiset(items[id]))[x] == (RoomStock(items, ids) + multiset(v))[x] {
        assert (RoomStock(upd, ids[1..]) + multiset(items[id]))[x] == (RoomStock(items, ids[1..]) + multiset(v))[x];
      }
    }
  }

  /** The stock holds at least what one named room holds, and what two distinct named rooms
      hold together. */
  lemma {:induction false} RoomStockHolds(items: map<string, seq<string>>, ids: seq<string>, a: string, b: string)
    requires a in items && a in ids && b in items && b in ids && Distinct(ids)
    ensures multiset(items[a]) <= RoomStock(items, ids)
    ensures a != b ==> multiset(items[a]) + multiset(items[b]) <= RoomStock(items, ids)
  {
    assert Distinct(ids[1..]);
    if ids[0] == a {
      assert a !in ids[1..];
      if a != b { RoomStockHolds(items, ids[1..], b, b); }
    } else if ids[0] == b {
      RoomStockHolds(items, ids[1..], a, a);
    } else {
      RoomStockHolds(items, ids[1..], a, b);
    }
  }

  /** Whatever the stock holds lies in one of the named rooms. */
  lemma {:induction false} RoomStockWitness(items: map<string, seq<string>>, ids: seq<string>, x: string)
    requires x in RoomStock(items, ids)
    ensures exists id :: id in ids && id in items && x in items[id]
  {
    if !(ids[0] in items && x in items[ids[0]]) {
      RoomStockWitness(items, ids[1..], x);
    }
  }

  /** When the rooms hold nothing twice, no room's list holds anything twice and no two rooms
      hold the same item. */
  lemma RoomsPlacement(items: map<string, seq<string>>, ids: seq<string>)
    requires Distinct(ids) && forall r :: r in items ==> r in ids
    requires forall x :: RoomStock(items, ids)[x] <= 1
    ensures forall r, x :: r in items ==> multiset(items[r])[x] <= 1
    ensures forall r1, r2, x :: r1 in items && r2 in items && r1 != r2 && x in items[r1] ==> x !in items[r2]
  {
    forall r1, r2, x | r1 in items && r2 in items
      ensures multiset(items[r1])[x] <= 1
      ensures r1 != r2 && x in items[r1] ==> x !in items[r2]
    {
      RoomStockHolds(items, ids, r1, r2);
      assert multiset(items[r1])[x] <= RoomStock(items, ids)[x];
      if r1 != r2 {
        assert multiset(items[r1])[x] + multiset(items[r2])[x] <= RoomStock(items, ids)[x];
      }
    }
  }

  /** The rooms' stock holds exactly what lies in some room. */
  lemma RoomStockMembers(items: map<string, seq<string>>, ids: seq<string>)
    requires Distinct(ids) && forall r :: r in items ==> r in ids
    ensures forall x :: x in RoomStock(items, ids) <==> exists r :: r in items && x in items[r]
  {
    forall x ensures x in RoomStock(items, ids) <==> exists r :: r in items && x in items[r] {
      if x in RoomStock(items, ids) {
        RoomStockWitness(items, ids, x);
      }
      if r :| r in items && x in items[r] {
        RoomStockHolds(items, ids, r, r);
        assert multiset(items[r])[x] <= RoomStock(items, ids)[x];
      }
    }
  }

  /** The room lists named by `ids`, one after the other. */
  function Flatten(items: map<string, seq<string>>, ids: seq<string>): seq<string> {
    if ids == [] then []
    else (if ids[0] in items then items[ids[0]] else []) + Flatten(items, ids[1..])
  }

  lemma {:induction false} StockFlatten(items: map<string, seq<string>>, ids: seq<string>)
    ensures RoomStock(items, ids) == multiset(Flatten(items, ids))
  {
    if ids != [] {
      StockFlatten(items, ids[1..]);
    }
  }

  /** A list with no repeated entry holds each entry once. */
  lemma {:induction false} DistinctOnce(xs: seq<string>)
    requires Distinct(xs)
    ensures forall x :: multiset(xs)[x] <= 1
  {
    if xs != [] {
      assert xs == [xs[0]] + xs[1..];
      assert Distinct(xs[1..]);
      DistinctOnce(xs[1..]);
      assert xs[0] !in xs[1..];
    }
  }

  /** The seeding lists the eight item keys, room after room. */
  lemma SeedingFlattens()
    ensures Flatten(InitialLocationItems, RoomIds) == AllItems
  {
    assert RoomIds[1..][1..][1..][1..] == [];
  }

  /** The seeding conserves: the rooms together hold the eight item keys. */
  lemma InitialConserved()
    ensures Conserved(Initial())
  {
    SeedingFlattens();
    StockFlatten(InitialLocationItems, RoomIds);
    AllItemsOnce();
  }

  /** No item key is listed twice. */
  lemma AllItemsDistinct()
    ensures Distinct(AllItems)
  {
  }

  /** So the catalogue counts each item key once and anything else not at all. */
  lemma AllItemsOnce()
    ensures forall x :: multiset(AllItems)[x] == if x in AllItems then 1 else 0
  {
    AllItemsDistinct();
    DistinctOnce(AllItems);
  }

  /** A conserved world holds, with multiplicity, exactly the catalogue. */
  lemma ConservedStock(s: State)
    requires Conserved(s)
    ensures Stock(s.inventory, s.locationItems) == multiset(AllItems)
  {
    AllItemsOnce();
    assert forall x :: Stock(s.inventory, s.locationItems)[x] == multiset(AllItems)[x];
  }

  /** Placement in general: when an inventory and the named rooms together hold the entries of
      a list without repeats, each entry is in exactly one place and nothing else is anywhere. */
  lemma Placement(inv: seq<string>, items: map<string, seq<string>>, ids: seq<string>, all: seq<string>)
    requires Distinct(ids) && forall r :: r in items ==> r in ids
    requires forall x :: (multiset(inv) + RoomStock(items, ids))[x] == if x in all then 1 else 0
    ensures forall x :: multiset(inv)[x] <= 1
    ensures forall r, x :: r in items ==> multiset(items[r])[x] <= 1
    ensures forall r, x :: r in items && x in items[r] ==> x !in inv
    ensures forall r1, r2, x :: r1 in items && r2 in items && r1 != r2 && x in items[r1] ==> x !in items[r2]
    ensures forall x :: x in all <==> (x in inv || exists r :: r in items && x in items[r])
  {
    var rooms := RoomStock(items, ids);
    assert forall x :: multiset(inv)[x] + rooms[x] <= 1 by {
      forall x ensures multiset(inv)[x] + rooms[x] <= 1 {
        assert (multiset(inv) + rooms)[x] == multiset(inv)[x] + rooms[x];
      }
    }
    RoomsPlacement(items, ids);
    RoomStockMembers(items, ids);
    forall r, x | r in items && x in items[r] ensures x !in inv {
      assert x in rooms;
    }
    forall x ensures x in all <==> (x in inv || x in rooms) {
      assert (multiset(inv) + rooms)[x] == multiset(inv)[x] + rooms[x];
    }
  }

  /** In a conserved, consistent state every item key is in exactly one place: the inventory
      or one room's list, never both, never in two rooms, never twice in one list; and nothing
      but the item keys is anywhere. */
  lemma ConservedPlacement(s: State)
    requires Consistent(s) && Conserved(s)
    ensures forall x :: multiset(s.inventory)[x] <= 1
    ensures forall r, x :: r in s.locationItems ==> multiset(s.locationItems[r])[x] <= 1
    ensures forall r, x :: r in s.locationItems && x in s.locationItems[r] ==> x !in s.inventory
    ensures forall r1, r2, x ::
      (r1 in s.locationItems && r2 in s.locationItems && r1 != r2 && x in s.locationItems[r1]) ==>
      x !in s.locationItems[r2]
    ensures forall x :: x in AllItems <==>
      (x in s.inventory || exists r :: r in s.locationItems && x in s.locationItems[r])
  {
    RoomIdsAreLocations();
    Placement(s.inventory, s.locationItems, RoomIds, AllItems);
  }

  /** In a conserved state every item lying in the current room has a description of its own,
      so the `default` branch of the probe switch is never taken. */
  lemma ProbeNeverDefault(s: State, t: string)
    requires Consistent(s) && Conserved(s) && t in CurrentItems(s)
    ensures ItemDescription(t) != ProbeDefault
  {
    ConservedPlacement(s);
    assert s.currentLocation in s.locationItems && t in s.locationItems[s.currentLocation];
    DescribedItems();
  }

  /** In a conserved, consistent state no room lists an item twice. */
  lemma RoomHoldsOnce(s: State, r: string, x: string)
    requires Consistent(s) && Conserved(s) && r in s.locationItems
    ensures multiset(s.locationItems[r])[x] <= 1
  {
    ConservedPlacement(s);
  }

  /** The two invariants look only at the room, the inventory and the room lists. */
  lemma SameWorld(s: State, t: State)
    requires s.currentLocation == t.currentLocation && s.inventory == t.inventory
    requires s.locationItems == t.locationItems
    ensures Consistent(s) == Consistent(t) && Conserved(s) == Conserved(t)
  {
  }

  /** The inventory never outgrows the eight item keys, so the nominal ten slots of the cache
      listing are never exceeded. */
  lemma InventoryBounded(s: State)
    requires Conserved(s)
    ensures |s.inventory| <= |AllItems| == 8
  {
    ConservedStock(s);
    assert |multiset(s.inventory)| <= |Stock(s.inventory, s.locationItems)|;
  }

  /** Filtering out an item that a list holds exactly once removes exactly that one. */
  lemma WithoutSingle(items: seq<string>, t: string)
    requires multiset(items)[t] == 1
    ensures multiset(items) == multiset(Without(items, t)) + multiset{t}
  {
    WithoutSpec(items, t);
    var w := Without(items, t);
    forall x ensures multiset(items)[x] == (multiset(w) + multiset{t})[x] {
    }
  }

  /** Moving one copy of `t` from room `here` into the inventory, as a download does, leaves
      the total stock as it was. */
  lemma DownloadMovesOne(inv: seq<string>, items: map<string, seq<string>>, ids: seq<string>, here: string, t: string)
    requires here in items && here in ids && Distinct(ids)
    requires multiset(items[here])[t] == 1
    ensures multiset(inv + [t]) + RoomStock(items[here := Without(items[here], t)], ids)
         == multiset(inv) + RoomStock(items, ids)
  {
    var w := Without(items[here], t);
    WithoutSingle(items[here], t);
    RoomStockUpdate(items, ids, here, w);
    var after := RoomStock(items[here := w], ids);
    assert multiset(inv + [t]) == multiset(inv) + multiset{t};
    forall x ensures (multiset(inv + [t]) + after)[x] == (multiset(inv) + RoomStock(items, ids))[x] {
      assert (after + multiset(items[here]))[x] == (RoomStock(items, ids) + multiset(w))[x];
      assert multiset(items[here])[x] == (multiset(w) + multiset{t})[x];
    }
  }

  /** The switch keeps the items conserved: a download moves one item from the current room
      into the inventory, and nothing else moves items at all. */
  lemma DispatchKeepsConserved(e: State, action: string, target: string, random: real)
    requires Consistent(e) && Conserved(e) && 0.0 <= random < 1.0
    ensures Conserved(Dispatch(e, action, target, random))
  {
    DispatchFrame(e, action, target, random);
    if Classify(action) == Download && target != "" && target in CurrentItems(e) {
      RoomHoldsOnce(e, e.currentLocation, target);
      RoomIdsAreLocations();
      DownloadMovesOne(e.inventory, e.locationItems, RoomIds, e.currentLocation, target);
      assert Stock(Dispatch(e, action, target, random).inventory, Dispatch(e, action, target, random).locationItems)
          == Stock(e.inventory, e.locationItems);
    }
  }

  /** Every command keeps the items conserved. */
  lemma ProcessKeepsConserved(s: State, command: string, random: real)
    requires Consistent(s) && Conserved(s) && 0.0 <= random < 1.0
    ensures Conserved(Process(s, command, random))
  {
    var e := Emit(s, [Echo(command)]);
    DispatchKeepsConserved(e, Parse(command).action, Parse(command).target, random);
  }
}
