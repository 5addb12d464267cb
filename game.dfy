/**
 * The playable world: the world objects (a note, a statue, a dead tree
 * with the note inside) and the one scene "Courtyard South", whose `run`
 * shows its description, lets the player approach a stored item and runs
 * that item's option box.
 */
module Game {
  import opened Builtins
  import opened GameObjects
  import opened Console
  import opened Actionables
  import opened Menus
  import opened CorePlayer

  /**
   * A world object: its game object and what `str()` gives for it. The
   * game objects of this file have no display name, so `name` is `""`.
   */
  datatype Item = Item(core: GameObject<Capability<Item> >, display: string)

  // ---------------------------------------------------------------------------
  // World objects

  const NoteMessage: string := "The note is so old you fear looking at it will make it turn to dust."
  const StatueMessage: string := "The ivory statues loom over you with impassive faces."
  const TreeMessage: string := "The tree is dead, but you notice a crevice in it. There's something inside."

  /** `Note()`: examinable only. */
  method NewNote() returns (note: Item)
    ensures note.core.id == "A Weary Note" && note.core.name == "" && note.display == "A Weary Note"
    ensures note.core.actionables.Keys == {"examine"} && note.core.actionables["examine"].Examine?
    ensures note.core.actionables["examine"].examinable.message == NoteMessage
    ensures fresh(note.core.actionables["examine"].examinable)
  {
    var examine := new Examinable(NoteMessage);
    note := Item(NewGameObject("A Weary Note", "", Some(map["examine" := Examine(examine)])), "A Weary Note");
  }

  /** `Statue()`: examinable only; its `str()` is `"A Bed"`, as written. */
  method NewStatue() returns (statue: Item)
    ensures statue.core.id == "A Statue" && statue.core.name == "" && statue.display == "A Bed"
    ensures statue.core.actionables.Keys == {"examine"} && statue.core.actionables["examine"].Examine?
    ensures statue.core.actionables["examine"].examinable.message == StatueMessage
    ensures fresh(statue.core.actionables["examine"].examinable)
  {
    var examine := new Examinable(StatueMessage);
    statue := Item(NewGameObject("A Statue", "", Some(map["examine" := Examine(examine)])), "A Bed");
  }

  /** `DeadTree()`: examinable, and openable with a new note inside. */
  method NewDeadTree() returns (tree: Item)
    ensures tree.core.id == "A Dead Tree" && tree.core.name == "" && tree.display == "A Dead Tree"
    ensures tree.core.actionables.Keys == {"examine", "open"}
    ensures tree.core.actionables["examine"].Examine? && tree.core.actionables["open"].Open?
    ensures tree.core.actionables["examine"].examinable.message == TreeMessage
    ensures fresh(tree.core.actionables["examine"].examinable)
    ensures fresh(tree.core.actionables["open"].openable.storageable)
    ensures var inside := tree.core.actionables["open"].openable.storageable.inventory;
              |inside| == 1 && inside[0].core.id == "A Weary Note" && inside[0].display == "A Weary Note"
  {
    var examinable := new Examinable(TreeMessage);
    var note := NewNote();
    var openable := new Openable(Some([note]));
    tree := Item(NewGameObject("A Dead Tree", "", Some(map["examine" := Examine(examinable), "open" := Open(openable)])), "A Dead Tree");
  }

  // ---------------------------------------------------------------------------
  // Courtyard South

  const IntroText: string := "\nIt is night when you arrive at La Antigua Manor.\n\nThe estate looms large in the darkness—a bloated mansion adorned with cheap replicas of Greek statues,desperate in their attempt to mimic a culture once held as superior. But there is no grandeur here—only sad theater, reaching for weakness as though it were strength; the abandonment of something richer in favor of illusions that cling to the air like mildew.\n\nThe manor has clearly seen better days. Nature has begun its slow reclamation: vines crawl over the stucco like veins on a dying man; animals nest in its bones, as if they sensed the rot long before any human dared to admit it.\n\nShattered windows and crooked doors gape like open sores. The air is thick with the scent of damp wood, rust, and something older—something sweet and spoiled. This is no home—only the carcass of a titan, long dead, now left to decompose beneath the crushing weight of its own pretense.\n"

  const RevisitText: string := "The end of the courtyard is overrun with wild weeds, haunted by unsettling statues, and steeped in memories best left buried."

  /** The scene menu: one `"APPROACH <id>"` per stored item, in storage order. */
  function ApproachLabels(items: seq<Item>): (r: seq<string>)
    ensures |r| == |items|
  {
    if |items| == 0 then []
    else ApproachLabels(items[..|items| - 1]) + ["APPROACH " + items[|items| - 1].core.GetId()]
  }

  /** Entry `i` of the scene menu names item `i`. */
  lemma {:induction false} ApproachLabelsAt(items: seq<Item>, i: nat)
    requires i < |items|
    ensures ApproachLabels(items)[i] == "APPROACH " + items[i].core.GetId()
  {
    if i < |items| - 1 {
      ApproachLabelsAt(items[..|items| - 1], i);
    }
  }

  /** The stores behind the `"open"` capabilities of `items`. */
  function OpenStores(items: seq<Item>): set<Storageable<Item>> {
    if |items| == 0 then {}
    else
      OpenStores(items[..|items| - 1])
      + (if OpenStore(items[|items| - 1].core).Some? then {OpenStore(items[|items| - 1].core).value} else {})
  }

  /** `o` is the store behind `item`'s `"open"` capability. */
  predicate HasStore(item: Item, o: Storageable<Item>) {
    OpenStore(item.core).Some? && OpenStore(item.core).value == o
  }

  /** Each item's store is among `OpenStores`, and `OpenStores` holds nothing else. */
  lemma {:induction false} OpenStoresMembers(items: seq<Item>, o: Storageable<Item>)
    ensures o in OpenStores(items) <==>
              exists i :: 0 <= i < |items| && HasStore(items[i], o)
  {
    if |items| > 0 {
      var init := items[..|items| - 1];
      OpenStoresMembers(init, o);
      if o in OpenStores(init) {
        var i :| 0 <= i < |init| && HasStore(init[i], o);
        assert items[i] == init[i];
      }
      if exists i :: 0 <= i < |items| && HasStore(items[i], o) {
        var i :| 0 <= i < |items| && HasStore(items[i], o);
        if i < |init| {
          assert init[i] == items[i];
        }
      }
    }
  }

  /** No two items share a store. */
  predicate StoresApart(items: seq<Item>) {
    forall i, j :: 0 <= i < j < |items| && OpenStore(items[i].core).Some? && OpenStore(items[j].core).Some? ==>
      OpenStore(items[i].core).value != OpenStore(items[j].core).value
  }

  /** The contents of each item's store, in item order; `[]` for an item without one. */
  function Boxes(items: seq<Item>): (r: seq<seq<Item>>)
    reads OpenStores(items)
    ensures |r| == |items|
  {
    if |items| == 0 then []
    else Boxes(items[..|items| - 1]) + [BoxOf(items[|items| - 1].core)]
  }

  /** Entry `i` of `Boxes` is item `i`'s store. */
  lemma {:induction false} BoxesAt(items: seq<Item>, i: nat)
    requires i < |items|
    ensures Boxes(items)[i] == BoxOf(items[i].core)
  {
    if i < |items| - 1 {
      BoxesAt(items[..|items| - 1], i);
    }
  }

  /** All the items held by a sequence of stores. */
  function Total<T>(boxes: seq<seq<T>>): multiset<T> {
    if |boxes| == 0 then multiset{}
    else Total(boxes[..|boxes| - 1]) + multiset(boxes[|boxes| - 1])
  }

  /** Replacing one store's contents changes the total by exactly that store's change. */
  lemma {:induction false} TotalUpdate<T>(boxes: seq<seq<T>>, i: nat, x: seq<T>)
    requires i < |boxes|
    ensures Total(boxes[i := x]) + multiset(boxes[i]) == Total(boxes) + multiset(x)
  {
    var n := |boxes| - 1;
    if i < n {
      TotalUpdate(boxes[..n], i, x);
      assert boxes[i := x][..n] == boxes[..n][i := x];
      assert boxes[..n][i] == boxes[i] && boxes[i := x][n] == boxes[n];
      calc {
        Total(boxes[i := x]) + multiset(boxes[i]);
        Total(boxes[..n][i := x]) + multiset(boxes[n]) + multiset(boxes[i]);
        Total(boxes[..n][i := x]) + multiset(boxes[..n][i]) + multiset(boxes[n]);
        Total(boxes[..n]) + multiset(x) + multiset(boxes[n]);
        Total(boxes) + multiset(x);
      }
    } else {
      assert boxes[i := x][..n] == boxes[..n];
    }
  }

  /** Two exchanges through a common middle compose: what `c` gave for `e` and `e` gave for `c` cancel. */
  lemma Exchange<T>(a: multiset<T>, b: multiset<T>, c: multiset<T>, d: multiset<T>, e: multiset<T>, f: multiset<T>)
    requires a + c == d + e && e + b == c + f
    ensures a + b == d + f
  {
    forall x
      ensures (a + b)[x] == (d + f)[x]
    {
      assert (a + c)[x] == (d + e)[x];
      assert (e + b)[x] == (c + f)[x];
    }
  }

  /** What `run` answers: a number, Python's `None`, or the input ending first. */
  datatype RunResult = Returned(code: int) | ReturnedNone | RunInputEnded

  /** One visit on values: the answer, the lines read, the item stores and the player's store after. */
  datatype VisitRun = VisitRun(result: RunResult, used: nat, boxes: seq<seq<Item>>, mine: seq<Item>)

  /**
   * The visit part of `run` on values: the approach prompt over the stored
   * items, then the option box of the item picked, with the player's store
   * as the receiving store; only the approached item's store can change.
   */
  function VisitOn(items: seq<Item>, boxes: seq<seq<Item>>, mine: seq<Item>, input: seq<Line>): (r: VisitRun)
    requires |boxes| == |items|
    ensures r.used <= |input| && |r.boxes| == |items|
    ensures r.result.Returned? ==> r.result == Returned(0) && 0 < r.used
  {
    var a := Prompt(1, |items|, input);
    if a.0.None? then VisitRun(RunInputEnded, a.1, boxes, mine)
    else if a.0.value.Esc? then VisitRun(ReturnedNone, a.1, boxes, mine)
    else
      var i := a.0.value.n - 1;
      var b := BoxSession(MenuActions(items[i].core), boxes[i], mine, false, input[a.1..]);
      VisitRun(if b.exit == BoxInputEnded then RunInputEnded else Returned(0), a.1 + b.used, boxes[i := b.store], b.mine)
  }

  /**
   * How a visit ends: the answer to the approach prompt decides it. The
   * input running out there, or `"esc"`, change no store; `"esc"` answers
   * `None`. A number `n` approaches item `n - 1`, whose store alone may
   * change, and the visit answers `0` unless its option box ran out of
   * input, which reads the whole input.
   */
  lemma VisitOnShape(items: seq<Item>, boxes: seq<seq<Item>>, mine: seq<Item>, input: seq<Line>)
    requires |boxes| == |items|
    ensures var v := VisitOn(items, boxes, mine, input);
      var a := Prompt(1, |items|, input);
      && (a.0.None? ==> v == VisitRun(RunInputEnded, |input|, boxes, mine))
      && (a.0 == Some(Esc) ==> v == VisitRun(ReturnedNone, a.1, boxes, mine))
      && (a.0.Some? && a.0.value.Picked? ==>
            var i := a.0.value.n - 1;
            var b := BoxSession(MenuActions(items[i].core), boxes[i], mine, false, input[a.1..]);
            && 0 <= i < |items|
            && (v.result == RunInputEnded <==> b.exit == BoxInputEnded)
            && (v.result != RunInputEnded ==> v.result == Returned(0))
            && (forall j :: 0 <= j < |items| && j != i ==> v.boxes[j] == boxes[j]))
      && (v.result == RunInputEnded ==> v.used == |input|)
  {
    var a := Prompt(1, |items|, input);
    if a.0.Some? && a.0.value.Picked? {
      var i := a.0.value.n - 1;
      MenuActionsShape(items[i].core);
      BoxSessionShape(MenuActions(items[i].core), boxes[i], mine, false, input[a.1..]);
    }
  }

  /** A visit that approaches item `i` at line `k` runs that item's option box on the rest. */
  lemma VisitOnPicked(items: seq<Item>, boxes: seq<seq<Item>>, mine: seq<Item>, input: seq<Line>,
                      i: nat, k: nat, rest: seq<Line>)
    requires |boxes| == |items| && i < |items|
    requires Prompt(1, |items|, input).0 == Some(Picked(i + 1)) && Prompt(1, |items|, input).1 == k
    requires k <= |input| && rest == input[k..]
    ensures var b := BoxSession(MenuActions(items[i].core), boxes[i], mine, false, rest);
      VisitOn(items, boxes, mine, input)
        == VisitRun(if b.exit == BoxInputEnded then RunInputEnded else Returned(0), k + b.used, boxes[i := b.store], b.mine)
  {
    var a := Prompt(1, |items|, input);
    assert a.0.value.n - 1 == i && input[a.1..] == rest;
  }

  /** A visit whose approach prompt is not answered with a number changes no store. */
  lemma VisitOnUnpicked(items: seq<Item>, boxes: seq<seq<Item>>, mine: seq<Item>, input: seq<Line>)
    requires |boxes| == |items|
    requires Prompt(1, |items|, input).0.None? || Prompt(1, |items|, input).0 == Some(Esc)
    ensures VisitOn(items, boxes, mine, input)
              == VisitRun(if Prompt(1, |items|, input).0.None? then RunInputEnded else ReturnedNone,
                          Prompt(1, |items|, input).1, boxes, mine)
  {
  }

  /**
   * A visit conserves items: the item stores and the player's store
   * together hold the same multiset as before, and the player's store only
   * grows at its end.
   */
  lemma VisitConserves(items: seq<Item>, boxes: seq<seq<Item>>, mine: seq<Item>, input: seq<Line>)
    requires |boxes| == |items|
    ensures var v := VisitOn(items, boxes, mine, input);
      Total(v.boxes) + multiset(v.mine) == Total(boxes) + multiset(mine) && mine <= v.mine
  {
    var a := Prompt(1, |items|, input);
    if a.0.Some? && a.0.value.Picked? {
      var i := a.0.value.n - 1;
      var rest := input[a.1..];
      VisitOnPicked(items, boxes, mine, input, i, a.1, rest);
      var b := BoxSession(MenuActions(items[i].core), boxes[i], mine, false, rest);
      BoxSessionConserves(MenuActions(items[i].core), boxes[i], mine, false, rest);
      TotalUpdate(boxes, i, b.store);
      Exchange(Total(boxes[i := b.store]), multiset(b.mine), multiset(boxes[i]), Total(boxes), multiset(b.store), multiset(mine));
    } else {
      assert VisitOn(items, boxes, mine, input).boxes == boxes;
    }
  }

  /** `Boxes` is the sequence whose entries are the items' stores. */
  lemma {:induction false} BoxesFrom(items: seq<Item>, parts: seq<seq<Item>>)
    requires |parts| == |items|
    requires forall j :: 0 <= j < |items| ==> BoxOf(items[j].core) == parts[j]
    ensures Boxes(items) == parts
  {
    if |items| > 0 {
      var n := |items| - 1;
      assert forall j :: 0 <= j < n ==> items[..n][j] == items[j];
      BoxesFrom(items[..n], parts[..n]);
      assert parts == parts[..n] + [parts[n]];
    }
  }

  /** With stores kept apart, no other item's store is in the frame of item `i`'s option box. */
  lemma OtherStores(items: seq<Item>, i: nat, p: Storageable<Item>)
    requires StoresApart(items) && i < |items| && p !in OpenStores(items)
    ensures forall j :: 0 <= j < |items| && j != i && OpenStore(items[j].core).Some? ==>
              OpenStore(items[j].core).value !in BoxFrame(items[i].core, p)
    ensures !Shared(items[i].core, p)
  {
    OpenStoresMembers(items, p);
    forall j | 0 <= j < |items| && j != i && OpenStore(items[j].core).Some?
      ensures OpenStore(items[j].core).value !in BoxFrame(items[i].core, p)
    {
      assert !HasStore(items[j], p);
    }
    assert !HasStore(items[i], p);
  }

  class CourtyardSouth {
    const signaler: Signaler
    const examinable: Examinable
    const core: GameObject<Capability<Item> >
    var player: Player?<Item>
    var hasIntroduced: bool
    const storage: Storageable<Item>
    /** The items the store was made with; nothing ever changes the store. */
    ghost const items: seq<Item>
    /** The items' stores, held as a field so that they are known to be allocated. */
    ghost const stores: set<Storageable<Item>>

    /**
     * The scene's examine capability is `examinable`, each stored item's
     * `"examine"`/`"open"` is of that kind, no two items share a store, and
     * no item's store is the scene's own store. None of this can change.
     */
    ghost predicate Wired() {
      && core.id == "Courtyard South"
      && core.actionables == map["examine" := Examine(examinable)]
      && (forall i :: 0 <= i < |items| ==> WellWired(items[i].core))
      && StoresApart(items)
      && storage !in OpenStores(items)
      && stores == OpenStores(items)
    }

    /** `Wired`, and the scene's store holds the items it was made with. */
    ghost predicate Valid()
      reads storage
    {
      Wired() && storage.inventory == items
    }

    /** `CourtyardSouth(player=None)`: signal off, not introduced, a statue and a dead tree. */
    constructor (player: Player?<Item> := null)
      ensures Valid()
      ensures fresh(signaler) && fresh(examinable) && fresh(storage)
      ensures !signaler.sign && !hasIntroduced && this.player == player
      ensures examinable.message == IntroText
      ensures |storage.inventory| == 2
      ensures storage.inventory[0].core.id == "A Statue" && storage.inventory[1].core.id == "A Dead Tree"
    {
      var statue := NewStatue();
      var tree := NewDeadTree();
      var description := new Examinable(IntroText);
      signaler := new Signaler(false);
      examinable := description;
      core := NewGameObject("Courtyard South", "", Some(map["examine" := Examine(description)]));
      this.player := player;
      hasIntroduced := false;
      storage := new Storageable(Some([statue, tree]));
      items := [statue, tree];
      stores := OpenStores([statue, tree]);
      new;
      OpenStoresMembers(storage.inventory, storage);
      assert !HasStore(statue, storage) && !HasStore(tree, storage);
      assert forall i :: 0 <= i < 2 ==> storage.inventory[i] == statue || storage.inventory[i] == tree;
    }

    /** What `run` may change besides the scene itself: the item stores and the player's store. */
    ghost function RunFrame(player: Player?<Item>): set<object> {
      OpenStores(items) + if player == null then {} else {player.storage}
    }

    /** What `run` may change: the scene, its description and signal, and `RunFrame`. */
    ghost function Footprint(player: Player?<Item>): set<object> {
      {this, examinable, signaler} + RunFrame(player)
    }

    /**
     * `run(player)`: without a player, `-1` and nothing changes. Otherwise
     * the description is shown (the original one on the first visit, the
     * revisit text ever after) and the visit runs. `shown` is the
     * description shown.
     */
    method Run(player: Player?<Item>, input: seq<Line>) returns (r: RunResult, shown: Option<string>, used: nat)
      requires Valid()
      requires player != null ==> player.storage != storage && player.storage !in OpenStores(items)
      modifies Footprint(player)
      ensures Valid() && storage.inventory == old(storage.inventory)
      ensures this.player == old(this.player)
      ensures player == null ==>
                && r == Returned(-1) && shown == None && used == 0
                && hasIntroduced == old(hasIntroduced) && signaler.sign == old(signaler.sign)
                && examinable.message == old(examinable.message)
                && Boxes(items) == old(Boxes(items))
      ensures player != null ==>
                && hasIntroduced
                && shown == Some(Description(old(hasIntroduced), old(examinable.message)))
                && examinable.message == shown.value
                && var v := VisitOn(items, old(Boxes(items)), old(player.storage.inventory), input);
                && r == v.result && used == v.used
                && Boxes(items) == v.boxes && player.storage.inventory == v.mine
                && signaler.sign == (r == Returned(0) || old(signaler.sign))
    {
      if player == null {
        return Returned(-1), None, 0;
      }
      var description := Introduce();
      shown := Some(description);
      r, used := Visit(player, input);
    }

    /**
     * The description `run` shows: the current message on the first visit;
     * on every later visit the message is first replaced by the revisit text.
     */
    method Introduce() returns (shown: string)
      modifies this, examinable
      ensures hasIntroduced && player == old(player)
      ensures shown == Description(old(hasIntroduced), old(examinable.message))
      ensures examinable.message == shown
    {
      if hasIntroduced {
        examinable.SetMessage(RevisitText);
        shown := examinable.Exec();
      } else {
        shown := examinable.Exec();
        hasIntroduced := true;
      }
    }

    /**
     * The rest of `run` with a player: the player picks an item to approach
     * or answers `"esc"` (`None`, signal untouched); the item's option box
     * runs with the player's store receiving, and the run ends with the
     * signal set and `0`.
     */
    method Visit(player: Player<Item>, input: seq<Line>) returns (r: RunResult, used: nat)
      requires Valid() && player.storage != storage && player.storage !in OpenStores(items)
      modifies signaler, RunFrame(player)
      ensures storage.inventory == old(storage.inventory)
      ensures hasIntroduced == old(hasIntroduced) && this.player == old(this.player)
      ensures examinable.message == old(examinable.message)
      ensures var v := VisitOn(items, old(Boxes(items)), old(player.storage.inventory), input);
        && r == v.result && used == v.used
        && Boxes(items) == v.boxes && player.storage.inventory == v.mine
      ensures signaler.sign == (r == Returned(0) || old(signaler.sign))
    {
      var inventory := storage.GetInventory();
      var actions := ApproachLabels(inventory);
      var next, n := GetChoice(1, |actions|, input);
      if next.None? || next.value.Esc? {
        VisitOnUnpicked(items, Boxes(items), player.storage.inventory, input);
        r, used := if next.None? then RunInputEnded else ReturnedNone, n;
      } else {
        var i := next.value.n - 1;
        ghost var boxes, mine := Boxes(items), player.storage.inventory;
        var exit, m := OpenItem(i, player, input[n..]);
        VisitOnPicked(items, boxes, mine, input, i, n, input[n..]);
        r, used := if exit == BoxInputEnded then RunInputEnded else Returned(0), n + m;
      }
    }

    /**
     * The option box of item `i`, with the player's store receiving: only
     * that item's store and the player's change. Unless the input ran out,
     * the signal is set afterwards.
     */
    method OpenItem(i: nat, player: Player<Item>, input: seq<Line>) returns (exit: BoxExit, used: nat)
      requires Valid() && i < |items| && player.storage != storage && player.storage !in OpenStores(items)
      modifies signaler, RunFrame(player)
      ensures signaler.sign == (exit != BoxInputEnded || old(signaler.sign))
      ensures var b := BoxSession(MenuActions(items[i].core), old(Boxes(items))[i], old(player.storage.inventory), false, input);
        && exit == b.exit && used == b.used
        && Boxes(items) == old(Boxes(items))[i := b.store] && player.storage.inventory == b.mine
    {
      var item := storage.inventory[i];
      ghost var before := Boxes(items);
      forall j | 0 <= j < |items| {
        BoxesAt(items, j);
      }
      OtherStores(items, i, player.storage);
      if OpenStore(item.core).Some? {
        OpenStoresMembers(items, OpenStore(item.core).value);
      }
      var choices, dispatched;
      exit, choices, dispatched, used := OptionBox(item.core, player.storage, input);
      if exit != BoxInputEnded {
        signaler.SetSignaler(true);
      }
      BoxesFrom(items, before[i := BoxOf(item.core)]);
    }
  }

  /** The scene description on a visit, given whether the scene was introduced before. */
  function Description(introduced: bool, message: string): string {
    if introduced then RevisitText else message
  }
}
