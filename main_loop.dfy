/**
 * The outer loops of the game: the main menu that creates the player, the
 * scene sequencer that runs one scene after another, and the top-level loop
 * that alternates the two.
 *
 * The console is one stream of lines, each read once into an `Entry` that
 * records what the main menu, the name prompt and `get_choice` make of it.
 */
module MainLoop {
  import opened Builtins
  import opened Console
  import opened Actionables
  import opened Menus
  import opened CorePlayer
  import opened Game

  // ---------------------------------------------------------------------------
  // The main menu

  /** What a main-menu line selects, after `strip().lower()`. */
  datatype MenuKey = NewUserKey | LoginKey | QuitKey | OtherKey

  function KeyOf(line: string): (k: MenuKey)
    ensures k == NewUserKey <==> Lower(Strip(line)) == "1"
    ensures k == LoginKey <==> Lower(Strip(line)) == "2"
    ensures k == QuitKey <==> Lower(Strip(line)) == "3"
  {
    var c := Lower(Strip(line));
    if c == "1" then NewUserKey
    else if c == "2" then LoginKey
    else if c == "3" then QuitKey
    else OtherKey
  }

  /**
   * What the program's three readers make of one console line: the main
   * menu's key, the name `create_player` and `login` read (`strip()`), and
   * what `get_choice` reads.
   */
  datatype Entry = Entry(key: MenuKey, name: string, choice: Line)

  function Read(line: string): (e: Entry)
    ensures e.name == Strip(line) && e.choice == Classify(line)
  {
    Entry(KeyOf(line), Strip(line), Classify(line))
  }

  /** The lines as `get_choice` sees them. */
  function Choices(lines: seq<Entry>): (r: seq<Line>)
    ensures |r| == |lines|
    ensures forall i :: 0 <= i < |lines| ==> r[i] == lines[i].choice
  {
    seq(|lines|, i requires 0 <= i < |lines| => lines[i].choice)
  }

  /**
   * The name loop of `create_player` and `login`: blank lines are refused,
   * the first other line is the name; the result is the name and how many
   * lines were read, `None` when the input runs out.
   */
  function NameEntry(lines: seq<Entry>): (r: Option<(string, nat)>)
    ensures r.Some? ==> 0 < r.value.1 <= |lines| && r.value.0 == lines[r.value.1 - 1].name && r.value.0 != ""
    decreases |lines|
  {
    if |lines| == 0 then None
    else if lines[0].name != "" then Some((lines[0].name, 1))
    else
      match NameEntry(lines[1..])
      case None => None
      case Some(e) => Some((e.0, e.1 + 1))
  }

  /** Every line the name loop skips is blank, and it gives up only when all are. */
  lemma {:induction false} NameEntryBlanks(lines: seq<Entry>)
    ensures NameEntry(lines).None? <==> forall i :: 0 <= i < |lines| ==> lines[i].name == ""
    ensures NameEntry(lines).Some? ==> forall i :: 0 <= i < NameEntry(lines).value.1 - 1 ==> lines[i].name == ""
    decreases |lines|
  {
    if |lines| > 0 && lines[0].name == "" {
      NameEntryBlanks(lines[1..]);
      assert forall i :: 1 <= i < |lines| ==> lines[i] == lines[1..][i - 1];
    }
  }

  /** How one visit of the main menu ends, and how many lines it read. */
  datatype MenuOutcome = Start(newUser: bool, id: string, used: nat) | Quit(used: nat) | MenuInputEnded

  /** `o` with `k` more lines read before it. */
  function After(k: nat, o: MenuOutcome): MenuOutcome {
    match o
    case Start(b, id, n) => Start(b, id, n + k)
    case Quit(n) => Quit(n + k)
    case MenuInputEnded => MenuInputEnded
  }

  /**
   * `MainMenu.run` on the lines `lines`: `"1"` and `"2"` read a name and
   * start the game, `"3"` quits, anything else (`"esc"` included) is
   * answered with a message and the menu asks again.
   */
  function MenuSession(lines: seq<Entry>): (o: MenuOutcome)
    ensures o.Start? ==> 1 < o.used <= |lines|
    ensures o.Quit? ==> 0 < o.used <= |lines|
    decreases |lines|
  {
    if |lines| == 0 then MenuInputEnded
    else
      match lines[0].key
      case NewUserKey =>
        (match NameEntry(lines[1..])
         case None => MenuInputEnded
         case Some(e) => Start(true, e.0, e.1 + 1))
      case LoginKey =>
        (match NameEntry(lines[1..])
         case None => MenuInputEnded
         case Some(e) => Start(false, e.0, e.1 + 1))
      case QuitKey => Quit(1)
      case OtherKey => After(1, MenuSession(lines[1..]))
  }

  /**
   * A started game has a non-blank name, read from the line that ends the
   * session; a session reads at least one line, and a quit is decided by
   * its last line, all earlier lines selecting nothing.
   */
  lemma {:induction false} MenuSessionShape(lines: seq<Entry>)
    ensures MenuSession(lines).Start? ==>
              var o := MenuSession(lines);
              1 < o.used <= |lines| && o.id != "" && o.id == lines[o.used - 1].name
    ensures MenuSession(lines).Quit? ==>
              var n := MenuSession(lines).used;
              0 < n <= |lines| && lines[n - 1].key == QuitKey
              && forall i :: 0 <= i < n - 1 ==> lines[i].key == OtherKey
    decreases |lines|
  {
    if |lines| > 0 && lines[0].key == OtherKey {
      var rest := lines[1..];
      MenuSessionShape(rest);
      assert forall i :: 1 <= i < |lines| ==> lines[i] == rest[i - 1];
    }
  }

  /**
   * `"esc"` in the main menu, in any case and with any surrounding white
   * space, only reprints the menu: the session goes on with the next line.
   */
  lemma EscAtMainMenu(esc: string, rest: seq<Entry>)
    requires Lower(Strip(esc)) == "esc"
    ensures MenuSession([Read(esc)] + rest) == After(1, MenuSession(rest))
  {
    assert ([Read(esc)] + rest)[1..] == rest;
  }

  /** Choosing "Login" gives the same session as "New user", told apart only by the flag. */
  lemma LoginLikeNewUser(newUser: Entry, login: Entry, rest: seq<Entry>)
    requires newUser.key == NewUserKey && login.key == LoginKey
    ensures MenuSession([newUser] + rest).Start? <==> MenuSession([login] + rest).Start?
    ensures MenuSession([newUser] + rest).Start? ==>
              MenuSession([login] + rest) == MenuSession([newUser] + rest).(newUser := false)
  {
    assert ([newUser] + rest)[1..] == rest && ([login] + rest)[1..] == rest;
  }

  class MainMenu {
    const signaler: Signaler
    var player: Player?<Item>

    /** `MainMenu()`: signal off, no player. */
    constructor ()
      ensures fresh(signaler) && !signaler.sign && player == null
    {
      signaler := new Signaler(false);
      player := null;
    }

    /**
     * `run()`: on a start, a new player with the given name and an empty
     * store, and the `next` signal set; on a quit, the signal cleared. The
     * input running out leaves both as they were.
     */
    method Run(input: seq<Entry>) returns (outcome: MenuOutcome)
      modifies this, signaler
      ensures outcome == MenuSession(input)
      ensures outcome.Start? ==>
                && player != null && fresh(player) && fresh(player.storage)
                && player.core.id == outcome.id && player.core.name == ""
                && player.storage.inventory == []
                && signaler.sign
      ensures outcome.Quit? ==> player == old(player) && !signaler.sign
      ensures outcome.MenuInputEnded? ==> player == old(player) && signaler.sign == old(signaler.sign)
    {
      var i := 0;
      while i < |input|
        invariant i <= |input|
        invariant MenuSession(input) == After(i, MenuSession(input[i..]))
        invariant player == old(player) && signaler.sign == old(signaler.sign)
      {
        var key := input[i].key;
        assert input[i..][1..] == input[i + 1..];
        if key == NewUserKey || key == LoginKey {
          var name, k := ReadName(input[i + 1..]);
          if name.None? {
            return MenuInputEnded;
          }
          player := new Player(name.value, "", Some([]));
          signaler.SetNext(true);
          return Start(key == NewUserKey, name.value, i + 1 + k);
        }
        if key == QuitKey {
          signaler.SetNext(false);
          return Quit(i + 1);
        }
        // "Already at main menu." or "Invalid selection. Try again."
        i := i + 1;
      }
      outcome := MenuInputEnded;
    }
  }

  /** The name loop of `create_player` and `login`. */
  method ReadName(input: seq<Entry>) returns (name: Option<string>, used: nat)
    ensures name.None? <==> NameEntry(input).None?
    ensures name.Some? ==> NameEntry(input) == Some((name.value, used))
    ensures used <= |input|
  {
    used := 0;
    while used < |input|
      invariant used <= |input|
      invariant NameEntry(input).None? <==> NameEntry(input[used..]).None?
      invariant NameEntry(input).Some? ==>
                  NameEntry(input) == Some((NameEntry(input[used..]).value.0, NameEntry(input[used..]).value.1 + used))
    {
      var line := input[used].name;
      assert input[used..][1..] == input[used + 1..];
      used := used + 1;
      if line != "" {
        return Some(line), used;
      }
      // "Player name cannot be empty. Please enter a valid name."
    }
    name := None;
  }


  // ---------------------------------------------------------------------------
  // The scene sequencer

  /** The stored items of each place. */
  ghost function PlaceItems(places: seq<CourtyardSouth>): seq<seq<Item>> {
    seq(|places|, i requires 0 <= i < |places| => places[i].items)
  }

  /** Each place's stores, one entry per stored item. */
  predicate Fitted(world: seq<seq<Item>>, boxes: seq<seq<seq<Item>>>) {
    |boxes| == |world| && forall i :: 0 <= i < |world| ==> |boxes[i]| == |world[i]|
  }

  /** The stores behind the places' items, all together. */
  ghost function AllStores(places: seq<CourtyardSouth>): set<Storageable<Item>> {
    if |places| == 0 then {} else AllStores(places[..|places| - 1]) + OpenStores(places[|places| - 1].items)
  }

  /** Place `i`'s item stores are among `AllStores`. */
  lemma {:induction false} AllStoresAt(places: seq<CourtyardSouth>, i: nat)
    requires i < |places|
    ensures OpenStores(places[i].items) <= AllStores(places)
  {
    if i < |places| - 1 {
      AllStoresAt(places[..|places| - 1], i);
    }
  }

  /** No two places share an item store. */
  ghost predicate Separate(places: seq<CourtyardSouth>) {
    |places| == 0 ||
    (Separate(places[..|places| - 1]) && AllStores(places[..|places| - 1]) !! OpenStores(places[|places| - 1].items))
  }

  /** Under `Separate`, two different places have no item store in common. */
  lemma {:induction false} SeparateAt(places: seq<CourtyardSouth>, i: nat, j: nat)
    requires Separate(places) && i < j < |places|
    ensures OpenStores(places[i].items) !! OpenStores(places[j].items)
  {
    var init := places[..|places| - 1];
    if j < |places| - 1 {
      SeparateAt(init, i, j);
    } else {
      AllStoresAt(init, i);
    }
  }

  /** The places' own stores. */
  ghost function Storages(places: seq<CourtyardSouth>): set<Storageable<Item>> {
    set p | p in places :: p.storage
  }

  /** The item stores of every place, place by place (see `Boxes`). */
  ghost function WorldBoxes(places: seq<CourtyardSouth>): (r: seq<seq<seq<Item>>>)
    reads AllStores(places)
    ensures Fitted(PlaceItems(places), r)
  {
    if |places| == 0 then []
    else
      var init := places[..|places| - 1];
      assert forall i :: 0 <= i < |init| ==> init[i] == places[i];
      WorldBoxes(init) + [Boxes(places[|places| - 1].items)]
  }

  /** Entry `i` of `WorldBoxes` is place `i`'s item stores. */
  lemma {:induction false} WorldBoxesAt(places: seq<CourtyardSouth>, i: nat)
    requires i < |places|
    ensures WorldBoxes(places)[i] == Boxes(places[i].items)
  {
    if i < |places| - 1 {
      WorldBoxesAt(places[..|places| - 1], i);
    }
  }

  /** `WorldBoxes` is the sequence whose entries are the places' item stores. */
  lemma {:induction false} WorldBoxesFrom(places: seq<CourtyardSouth>, parts: seq<seq<seq<Item>>>)
    requires |parts| == |places|
    requires forall j :: 0 <= j < |places| ==> Boxes(places[j].items) == parts[j]
    ensures WorldBoxes(places) == parts
  {
    if |places| > 0 {
      var n := |places| - 1;
      assert forall j :: 0 <= j < n ==> places[..n][j] == places[j];
      WorldBoxesFrom(places[..n], parts[..n]);
      assert parts == parts[..n] + [parts[n]];
    }
  }

  /** All the items held by the places' stores. */
  function WorldTotal<T>(worlds: seq<seq<seq<T>>>): multiset<T> {
    if |worlds| == 0 then multiset{}
    else WorldTotal(worlds[..|worlds| - 1]) + Total(worlds[|worlds| - 1])
  }

  /** Replacing one place's stores changes the world's total by exactly that place's change. */
  lemma {:induction false} WorldTotalUpdate<T>(worlds: seq<seq<seq<T>>>, i: nat, x: seq<seq<T>>)
    requires i < |worlds|
    ensures WorldTotal(worlds[i := x]) + Total(worlds[i]) == WorldTotal(worlds) + Total(x)
  {
    var n := |worlds| - 1;
    if i < n {
      WorldTotalUpdate(worlds[..n], i, x);
      assert worlds[i := x][..n] == worlds[..n][i := x];
      assert worlds[..n][i] == worlds[i] && worlds[i := x][n] == worlds[n];
      calc {
        WorldTotal(worlds[i := x]) + Total(worlds[i]);
        WorldTotal(worlds[..n][i := x]) + Total(worlds[n]) + Total(worlds[i]);
        WorldTotal(worlds[..n][i := x]) + Total(worlds[..n][i]) + Total(worlds[n]);
        WorldTotal(worlds[..n]) + Total(x) + Total(worlds[n]);
        WorldTotal(worlds) + Total(x);
      }
    } else {
      assert worlds[i := x][..n] == worlds[..n];
    }
  }

  /** The user's store, `[]` without a user. */
  function MineOf(user: Player?<Item>): seq<Item>
    reads if user == null then {} else {user.storage}
  {
    if user == null then [] else user.storage.inventory
  }

  /**
   * What no run of the places can change: each place is wired; no two
   * places share an item store; no place's store is an item store; and the
   * user's store is none of these.
   */
  ghost predicate Apart(places: seq<CourtyardSouth>, user: Player?<Item>) {
    && (forall p :: p in places ==> p.Wired())
    && Separate(places)
    && Storages(places) !! AllStores(places)
    && (user != null ==> user.storage !in Storages(places) && user.storage !in AllStores(places))
  }

  /**
   * The places can be run in turn: they are `Apart` and each place's store
   * holds the items it was made with, so that each is valid.
   */
  ghost predicate WorldValid(places: seq<CourtyardSouth>, user: Player?<Item>)
    reads Storages(places)
  {
    Apart(places, user) && forall p :: p in places ==> p.storage.inventory == p.items
  }

  /** What running the places may change. */
  ghost function PlayFrame(places: seq<CourtyardSouth>, user: Player?<Item>): set<object> {
    set p, o | p in places && o in p.Footprint(user) :: o
  }

  /** The main menu is nothing a run of the places may change. */
  lemma MenuOutside(places: seq<CourtyardSouth>, m: MainMenu)
    ensures m !in PlayFrame(places, null)
  {
    forall p, o | p in places && o in p.Footprint(null)
      ensures o != m
    {
    }
  }

  /** Unchanged item stores leave the world's stores as they were. */
  twostate lemma {:induction false} WorldBoxesKept(places: seq<CourtyardSouth>)
    requires forall o: Storageable<Item> :: o in AllStores(places) && old(allocated(o)) ==> unchanged(o)
    ensures WorldBoxes(places) == old(WorldBoxes(places))
  {
    if |places| > 0 {
      var init := places[..|places| - 1];
      assert AllStores(places) == AllStores(init) + OpenStores(places[|places| - 1].items);
      WorldBoxesKept(init);
      BoxesKept(places[|places| - 1].items);
    }
  }

  /** The items' stores were there before. */
  twostate lemma {:induction false} OpenStoresOld(items: seq<Item>)
    requires old(allocated(items))
    ensures forall o :: o in OpenStores(items) ==> old(allocated(o))
  {
    if |items| > 0 {
      var init := items[..|items| - 1];
      OpenStoresOld(init);
    }
  }

  /** The places' stores, and their items' stores, were there before. */
  twostate lemma {:induction false} StoresOld(places: seq<CourtyardSouth>)
    requires old(allocated(places))
    ensures forall o :: o in AllStores(places) ==> old(allocated(o))
    ensures forall p :: p in places ==> old(allocated(p.storage))
  {
    if |places| > 0 {
      var init := places[..|places| - 1];
      StoresOld(init);
      OpenStoresOld(places[|places| - 1].items);
    }
  }

  /** A user with a store of its own keeps the places apart. */
  lemma ApartWithUser(places: seq<CourtyardSouth>, user: Player<Item>)
    requires user.storage !in Storages(places) && user.storage !in AllStores(places)
    ensures Apart(places, null) <==> Apart(places, user)
  {
  }

  /** A user adds only its own store to what the places may change. */
  lemma PlayFrameWithUser(places: seq<CourtyardSouth>, user: Player<Item>)
    ensures PlayFrame(places, user) <= PlayFrame(places, null) + {user.storage}
  {
    forall p, o | p in places && o in p.Footprint(user)
      ensures o in PlayFrame(places, null) + {user.storage}
    {
      if o != user.storage {
        assert o in p.Footprint(null);
      }
    }
  }

  /**
   * One `run(user)` of a place on values: without a user, `-1` and nothing
   * changes; with one, the visit (see `VisitOn`). It answers a non-negative
   * index only after reading a line, and that index is `0`.
   */
  function PlaceOn(items: seq<Item>, boxes: seq<seq<Item>>, user: bool, mine: seq<Item>, input: seq<Line>): (v: VisitRun)
    requires |boxes| == |items|
    ensures v.used <= |input| && |v.boxes| == |items|
    ensures v.result.Returned? && 0 <= v.result.code ==> v.result.code == 0 && 0 < v.used
  {
    if user then VisitOn(items, boxes, mine, input) else VisitRun(Returned(-1), 0, boxes, mine)
  }

  /**
   * Running place `i` touches no place's own store and only those item
   * stores of the world that are place `i`'s own.
   */
  lemma OutsideFootprint(places: seq<CourtyardSouth>, i: nat, user: Player?<Item>)
    requires i < |places| && Apart(places, user)
    ensures forall p :: p in places ==> p.storage !in places[i].Footprint(user)
    ensures forall o: Storageable<Item> :: o in AllStores(places) && o !in OpenStores(places[i].items) ==> o !in places[i].Footprint(user)
  {
    AllStoresAt(places, i);
    forall p | p in places
      ensures p.storage !in places[i].Footprint(user)
    {
      assert p.storage in Storages(places);
    }
  }

  /** Unchanged item stores leave the items' stores as they were. */
  twostate lemma {:induction false} BoxesKept(items: seq<Item>)
    requires forall o: Storageable<Item> :: o in OpenStores(items) && old(allocated(o)) ==> unchanged(o)
    ensures Boxes(items) == old(Boxes(items))
  {
    if |items| > 0 {
      var init := items[..|items| - 1];
      assert OpenStores(init) <= OpenStores(items);
      BoxesKept(init);
    }
  }

  /** Entry `j` of the world's stores is place `j`'s stores, now and before. */
  twostate lemma {:induction false} WorldBoxesBoth(places: seq<CourtyardSouth>)
    ensures forall j :: 0 <= j < |places| ==>
      WorldBoxes(places)[j] == Boxes(places[j].items) && old(WorldBoxes(places))[j] == old(Boxes(places[j].items))
  {
    if |places| > 0 {
      var init := places[..|places| - 1];
      assert forall j :: 0 <= j < |init| ==> init[j] == places[j];
      WorldBoxesBoth(init);
    }
  }

  /**
   * One `self.places[i].run(user)` of `play`: it keeps the world valid and
   * does what `PlaceOn` says to place `i`'s stores and the user's; no other
   * place's store changes.
   */
  method RunPlace(places: seq<CourtyardSouth>, i: nat, user: Player?<Item>, input: seq<Line>)
    returns (r: RunResult, used: nat)
    requires i < |places| && WorldValid(places, user)
    modifies PlayFrame(places, user)
    ensures WorldValid(places, user)
    ensures var v := PlaceOn(places[i].items, old(WorldBoxes(places))[i], user != null, old(MineOf(user)), input);
      && r == v.result && used == v.used
      && WorldBoxes(places) == old(WorldBoxes(places))[i := v.boxes] && MineOf(user) == v.mine
  {
    var place := places[i];
    assert place in places && place.storage in Storages(places);
    AllStoresAt(places, i);
    assert place.Footprint(user) <= PlayFrame(places, user);
    OutsideFootprint(places, i, user);
    var shown;
    r, shown, used := place.Run(user, input);
    WorldBoxesBoth(places);
    ghost var parts := old(WorldBoxes(places))[i := Boxes(place.items)];
    forall j | 0 <= j < |places|
      ensures Boxes(places[j].items) == parts[j]
    {
      if j != i {
        if j < i { SeparateAt(places, j, i); } else { SeparateAt(places, i, j); }
        AllStoresAt(places, j);
        BoxesKept(places[j].items);
      }
    }
    WorldBoxesFrom(places, parts);
  }


  /** A run of `play` on values: the answers, the lines read, every place's stores and the user's store, the placement and `running` after. */
  datatype PlayRun = PlayRun(results: seq<RunResult>, used: nat, boxes: seq<seq<seq<Item>>>, mine: seq<Item>, at: nat, running: bool)

  /** `p` after the answers `results`, which read `used` lines. */
  function Prepended(results: seq<RunResult>, used: nat, p: PlayRun): PlayRun {
    PlayRun(results + p.results, used + p.used, p.boxes, p.mine, p.at, p.running)
  }

  /** The answers of `run` after which `play` moves on: an index of a place. */
  predicate MovesOn(r: RunResult, count: nat) {
    r.Returned? && 0 <= r.code < count
  }

  /** The answers of `run` after which `play` stops: `None`, or an index out of range. */
  predicate Stops(r: RunResult, count: nat) {
    r == ReturnedNone || (r.Returned? && (r.code < 0 || r.code >= count))
  }

  /**
   * The loop of `play` on values, from place `at` on: run the place, then go
   * on at the index it answers while that is a place. `None` or an index out
   * of range stops the sequencer; the end of input ends play with
   * `running` still set.
   */
  function PlayOn(world: seq<seq<Item>>, at: nat, boxes: seq<seq<seq<Item>>>, user: bool, mine: seq<Item>, input: seq<Line>): (p: PlayRun)
    requires at < |world| && Fitted(world, boxes)
    ensures p.used <= |input| && Fitted(world, p.boxes) && p.results != []
    decreases |input|, 1
  {
    var v := PlaceOn(world[at], boxes[at], user, mine, input);
    var moves := MovesOn(v.result, |world|);
    Prepended([v.result], v.used,
              PlayFrom(world, moves, moves || v.result == RunInputEnded, if moves then v.result.code else at,
                       boxes[at := v.boxes], user, v.mine, input[v.used..]))
  }

  /**
   * What is left of `play` when its loop, which tests `going` and `at`, is
   * about to run place `at`; `running` is the flag it leaves behind if it
   * does not.
   */
  function PlayFrom(world: seq<seq<Item>>, going: bool, running: bool, at: nat, boxes: seq<seq<seq<Item>>>, user: bool, mine: seq<Item>, input: seq<Line>): (p: PlayRun)
    requires Fitted(world, boxes)
    ensures p.used <= |input| && Fitted(world, p.boxes)
    ensures p.results == [] <==> !(going && at < |world|)
    decreases |input|, if going && at < |world| then 2 else 0
  {
    if going && at < |world| then PlayOn(world, at, boxes, user, mine, input)
    else PlayRun([], 0, boxes, mine, at, running)
  }

  /** `play(user)` on values: nothing happens unless the sequencer is running at a place. */
  function GameOn(world: seq<seq<Item>>, running: bool, at: nat, boxes: seq<seq<seq<Item>>>, user: bool, mine: seq<Item>, input: seq<Line>): (g: PlayRun)
    requires Fitted(world, boxes)
    ensures g.used <= |input| && Fitted(world, g.boxes)
    ensures g.results == [] <==> !(running && at < |world|)
  {
    PlayFrom(world, running, running, at, boxes, user, mine, input)
  }

  /** One step of `PlayOn`, with the place's run and the rest of the input named. */
  lemma PlayOnStep(world: seq<seq<Item>>, at: nat, boxes: seq<seq<seq<Item>>>, user: bool, mine: seq<Item>,
                   input: seq<Line>, v: VisitRun, rest: seq<Line>)
    requires at < |world| && Fitted(world, boxes)
    requires v == PlaceOn(world[at], boxes[at], user, mine, input) && rest == input[v.used..]
    ensures var moves := MovesOn(v.result, |world|);
      PlayOn(world, at, boxes, user, mine, input)
      == Prepended([v.result], v.used,
                   PlayFrom(world, moves, moves || v.result == RunInputEnded, if moves then v.result.code else at,
                            boxes[at := v.boxes], user, v.mine, rest))
  {
  }

  /**
   * One pass of the loop of `play`: after the answer `v.result` the loop
   * goes on at the answered place when that is a place, and otherwise
   * stops, leaving `running` set only when the input ran out.
   */
  lemma PlayFromStep(world: seq<seq<Item>>, at: nat, boxes: seq<seq<seq<Item>>>, user: bool, mine: seq<Item>,
                     input: seq<Line>, v: VisitRun, rest: seq<Line>, results: seq<RunResult>, used: nat)
    requires at < |world| && Fitted(world, boxes)
    requires v == PlaceOn(world[at], boxes[at], user, mine, input) && rest == input[v.used..]
    ensures var moves := MovesOn(v.result, |world|);
      Prepended(results, used, PlayOn(world, at, boxes, user, mine, input))
      == Prepended(results + [v.result], used + v.used,
                   PlayFrom(world, moves, moves || v.result == RunInputEnded, if moves then v.result.code else at,
                            boxes[at := v.boxes], user, v.mine, rest))
  {
    var moves := MovesOn(v.result, |world|);
    PlayOnStep(world, at, boxes, user, mine, input, v, rest);
    PrependedTwice(results, used, v.result, v.used,
                   PlayFrom(world, moves, moves || v.result == RunInputEnded, if moves then v.result.code else at,
                            boxes[at := v.boxes], user, v.mine, rest));
  }

  lemma PrependedTwice(results: seq<RunResult>, used: nat, r: RunResult, k: nat, p: PlayRun)
    ensures Prepended(results, used, Prepended([r], k, p)) == Prepended(results + [r], used + k, p)
  {
    assert results + ([r] + p.results) == (results + [r]) + p.results;
  }

  /** A place's run that ends with the input has read all of it. */
  lemma PlaceOnEnded(items: seq<Item>, boxes: seq<seq<Item>>, user: bool, mine: seq<Item>, input: seq<Line>)
    requires |boxes| == |items|
    ensures var v := PlaceOn(items, boxes, user, mine, input);
      v.result == RunInputEnded ==> v.used == |input|
  {
    if user {
      VisitOnShape(items, boxes, mine, input);
    }
  }

  /**
   * `p` ends as a run of `play` over `count` places on `input` does: every
   * answer but the last moves on, and the last stops the sequencer or is
   * the end of input, which reads the whole input and alone leaves
   * `running` set; the placement is left at a place.
   */
  predicate EndsWell(count: nat, input: seq<Line>, p: PlayRun) {
    && p.results != []
    && (forall k :: 0 <= k < |p.results| - 1 ==> MovesOn(p.results[k], count))
    && (Stops(p.results[|p.results| - 1], count) || p.results[|p.results| - 1] == RunInputEnded)
    && p.running == (p.results[|p.results| - 1] == RunInputEnded)
    && (p.running ==> p.used == |input|)
    && p.at < count
  }

  /** An answer that moves on, before a run that ends well, gives a run that ends well. */
  lemma EndsWellPrepended(count: nat, input: seq<Line>, r: RunResult, k: nat, rest: seq<Line>, q: PlayRun)
    requires MovesOn(r, count) && k <= |input| && rest == input[k..] && EndsWell(count, rest, q)
    ensures EndsWell(count, input, Prepended([r], k, q))
  {
    var p := Prepended([r], k, q);
    assert forall j :: 1 <= j < |p.results| ==> p.results[j] == q.results[j - 1];
  }

  /** Every run of `play` ends well. */
  lemma {:induction false} PlayOnEnds(world: seq<seq<Item>>, at: nat, boxes: seq<seq<seq<Item>>>, user: bool, mine: seq<Item>, input: seq<Line>)
    requires at < |world| && Fitted(world, boxes)
    ensures EndsWell(|world|, input, PlayOn(world, at, boxes, user, mine, input))
    decreases |input|
  {
    var v := PlaceOn(world[at], boxes[at], user, mine, input);
    var rest := input[v.used..];
    PlayOnStep(world, at, boxes, user, mine, input, v, rest);
    if MovesOn(v.result, |world|) {
      PlayOnEnds(world, v.result.code, boxes[at := v.boxes], user, v.mine, rest);
      EndsWellPrepended(|world|, input, v.result, v.used, rest,
                        PlayOn(world, v.result.code, boxes[at := v.boxes], user, v.mine, rest));
    } else {
      PlaceOnEnded(world[at], boxes[at], user, mine, input);
    }
  }

  /**
   * After `play(user)` the sequencer is still running at a place exactly
   * when its last answer was the end of input.
   */
  lemma GameOnEnds(world: seq<seq<Item>>, running: bool, at: nat, boxes: seq<seq<seq<Item>>>, user: bool, mine: seq<Item>, input: seq<Line>, g: PlayRun)
    requires Fitted(world, boxes) && g == GameOn(world, running, at, boxes, user, mine, input)
    ensures g.running && g.at < |world| <==> g.results != [] && g.results[|g.results| - 1] == RunInputEnded
  {
    if running && at < |world| {
      PlayOnEnds(world, at, boxes, user, mine, input);
    }
  }

  /**
   * `p` answers as `play` with a user from place `at` does: `0` until the
   * last answer, which is `None` or the end of input, ending at place `0`
   * unless the first answer was already the last.
   */
  predicate AnsweredWell(at: nat, p: PlayRun) {
    && p.results != []
    && (forall k :: 0 <= k < |p.results| - 1 ==> p.results[k] == Returned(0))
    && (p.results[|p.results| - 1] == ReturnedNone || p.results[|p.results| - 1] == RunInputEnded)
    && p.at == (if |p.results| == 1 then at else 0)
  }

  /** An answer `0`, before a run from place `0` that answers well, gives a run that answers well. */
  lemma AnsweredWellPrepended(at: nat, r: RunResult, k: nat, q: PlayRun)
    requires r == Returned(0) && AnsweredWell(0, q)
    ensures AnsweredWell(at, Prepended([r], k, q))
  {
    var p := Prepended([r], k, q);
    assert forall j :: 1 <= j < |p.results| ==> p.results[j] == q.results[j - 1];
  }

  /** With a user, every run of `play` answers well. */
  lemma {:induction false} PlayOnAnswers(world: seq<seq<Item>>, at: nat, boxes: seq<seq<seq<Item>>>, user: bool, mine: seq<Item>, input: seq<Line>)
    requires at < |world| && Fitted(world, boxes)
    ensures user ==> AnsweredWell(at, PlayOn(world, at, boxes, user, mine, input))
    decreases |input|
  {
    if user {
      var v := PlaceOn(world[at], boxes[at], user, mine, input);
      var rest := input[v.used..];
      PlayOnStep(world, at, boxes, user, mine, input, v, rest);
      if MovesOn(v.result, |world|) {
        PlayOnAnswers(world, 0, boxes[at := v.boxes], user, v.mine, rest);
        AnsweredWellPrepended(at, v.result, v.used, PlayOn(world, 0, boxes[at := v.boxes], user, v.mine, rest));
      }
    }
  }

  /** Without a user, `play`'s only answer is `-1`, after which nothing has changed. */
  lemma PlayOnWithoutUser(world: seq<seq<Item>>, at: nat, boxes: seq<seq<seq<Item>>>, user: bool, mine: seq<Item>, input: seq<Line>)
    requires at < |world| && Fitted(world, boxes)
    ensures !user ==> PlayOn(world, at, boxes, user, mine, input) == PlayRun([Returned(-1)], 0, boxes, mine, at, false)
  {
    if !user {
      var v := PlaceOn(world[at], boxes[at], user, mine, input);
      PlayOnStep(world, at, boxes, user, mine, input, v, input[v.used..]);
      assert boxes[at := boxes[at]] == boxes;
    }
  }

  /**
   * `play` conserves items: the places' item stores and the user's store
   * together hold the same multiset as before, and the user's store only
   * grows at its end.
   */
  lemma {:induction false} PlayConserves(world: seq<seq<Item>>, at: nat, boxes: seq<seq<seq<Item>>>, user: bool, mine: seq<Item>, input: seq<Line>)
    requires at < |world| && Fitted(world, boxes)
    ensures var p := PlayOn(world, at, boxes, user, mine, input);
      WorldTotal(p.boxes) + multiset(p.mine) == WorldTotal(boxes) + multiset(mine) && mine <= p.mine
    decreases |input|
  {
    var v := PlaceOn(world[at], boxes[at], user, mine, input);
    var rest := input[v.used..];
    var after := boxes[at := v.boxes];
    PlayOnStep(world, at, boxes, user, mine, input, v, rest);
    if user {
      VisitConserves(world[at], boxes[at], mine, input);
    }
    WorldTotalUpdate(boxes, at, v.boxes);
    Exchange(WorldTotal(after), multiset(v.mine), Total(boxes[at]), WorldTotal(boxes), Total(v.boxes), multiset(mine));
    if MovesOn(v.result, |world|) {
      PlayConserves(world, v.result.code, after, user, v.mine, rest);
    }
  }

  class Scene {
    var playerPlacement: nat
    var running: bool
    const places: seq<CourtyardSouth>

    /** `Scene(places)`: at the first place, running. */
    constructor (places: seq<CourtyardSouth>)
      ensures playerPlacement == 0 && running && this.places == places
    {
      playerPlacement := 0;
      running := true;
      this.places := places;
    }

    /**
     * `play(user)`: runs the current place and moves to the index it
     * answers, until a place answers `None` or an index out of range, which
     * stops the sequencer for good, or the input runs out (`ended`). The
     * answers, the lines read, every store and the new placement and
     * `running` are those of `GameOn`.
     */
    method Play(user: Player?<Item>, input: seq<Line>) returns (results: seq<RunResult>, used: nat, ended: bool)
      requires WorldValid(places, user)
      modifies this, PlayFrame(places, user)
      ensures WorldValid(places, user)
      ensures PlayRun(results, used, WorldBoxes(places), MineOf(user), playerPlacement, running)
           == GameOn(PlaceItems(places), old(running), old(playerPlacement), old(WorldBoxes(places)), user != null, old(MineOf(user)), input)
      ensures ended <==> results != [] && results[|results| - 1] == RunInputEnded
    {
      var go, at;
      results, used, go, at, ended := Sequence(places, running, playerPlacement, user, input);
      ghost var bx, mi := WorldBoxes(places), MineOf(user);
      running, playerPlacement := go, at;
      assert WorldBoxes(places) == bx && MineOf(user) == mi;
      GameOnEnds(PlaceItems(places), old(running), old(playerPlacement), old(WorldBoxes(places)), user != null, old(MineOf(user)), input,
                 PlayRun(results, used, bx, mi, at, go));
    }
  }

  /**
   * The loop of `play`, with `running` and `player_placement` in `go` and
   * `next`: runs place `next` while `go` holds and `next` is a place, and
   * moves to the index the place answers; `None` or an index out of range
   * clears `go`. `ended` is the input running out inside a place.
   */
  method Sequence(places: seq<CourtyardSouth>, running: bool, at: nat, user: Player?<Item>, input: seq<Line>)
    returns (results: seq<RunResult>, used: nat, go: bool, next: nat, ended: bool)
    requires WorldValid(places, user)
    modifies PlayFrame(places, user)
    ensures WorldValid(places, user)
    ensures PlayRun(results, used, WorldBoxes(places), MineOf(user), next, go)
         == GameOn(PlaceItems(places), running, at, old(WorldBoxes(places)), user != null, old(MineOf(user)), input)
    ensures ended <==> go && next < |places|
  {
    ghost var world := PlaceItems(places);
    ghost var whole := GameOn(world, running, at, WorldBoxes(places), user != null, MineOf(user), input);
    results, used := [], 0;
    go, next := running, at;
    var stopped := false;
    var rest := input;
    assert [] + whole.results == whole.results;
    while go && !stopped && next < |places|
      invariant WorldValid(places, user)
      invariant whole == Prepended(results, used, PlayFrom(world, go && !stopped, go, next, WorldBoxes(places), user != null, MineOf(user), rest))
      invariant stopped ==> go && next < |places|
      decreases |rest|, if go && !stopped && next < |places| then 1 else 0
    {
      ghost var bx, mi := WorldBoxes(places), MineOf(user);
      ghost var v := PlaceOn(places[next].items, bx[next], user != null, mi, rest);
      assert world[next] == places[next].items;
      var r, k := RunPlace(places, next, user, rest);
      PlayFromStep(world, next, bx, user != null, mi, rest, v, rest[k..], results, used);
      results, used, rest := results + [r], used + k, rest[k..];
      match r
      case RunInputEnded =>
        stopped := true;
      case ReturnedNone =>
        go := false;
      case Returned(code) =>
        if code < 0 || code >= |places| {
          go := false;
        } else {
          next := code;
        }
    }
    assert results + [] == results;
    ended := stopped;
  }

  // ---------------------------------------------------------------------------
  // The top-level loop

  /**
   * One turn of `ScenePlayer.play` on values: a main-menu session, then a
   * game with a new player, whose store starts empty, if the session
   * started one. `ended` is the input running out, in the menu or in a
   * place; `used` counts the lines of both.
   */
  datatype TurnRun = TurnRun(session: MenuOutcome, game: PlayRun, used: nat, ended: bool)

  function TurnOn(world: seq<seq<Item>>, boxes: seq<seq<seq<Item>>>, running: bool, at: nat, input: seq<Entry>): (r: TurnRun)
    requires Fitted(world, boxes)
    ensures r.used <= |input| && Fitted(world, r.game.boxes)
    ensures r.session == MenuSession(input)
    ensures r.session.Start? ==> 0 < r.session.used <= r.used
    ensures !r.ended ==> r.session.Start? || r.session.Quit?
  {
    var o := MenuSession(input);
    match o
    case Start(_, _, n) =>
      var g := GameOn(world, running, at, boxes, true, [], Choices(input[n..]));
      TurnRun(o, g, n + g.used, g.running && g.at < |world|)
    case Quit(n) => TurnRun(o, PlayRun([], 0, boxes, [], at, running), n, false)
    case MenuInputEnded => TurnRun(o, PlayRun([], 0, boxes, [], at, running), |input|, true)
  }

  /** A turn that runs out of input has read all of it. */
  lemma TurnOnEnded(world: seq<seq<Item>>, boxes: seq<seq<seq<Item>>>, running: bool, at: nat, input: seq<Entry>)
    requires Fitted(world, boxes)
    ensures var r := TurnOn(world, boxes, running, at, input); r.ended ==> r.used == |input|
  {
    var o := MenuSession(input);
    if o.Start? && running && at < |world| {
      PlayOnEnds(world, at, boxes, true, [], Choices(input[o.used..]));
    }
  }

  /**
   * What a turn does after its session: a quit, or the input running out at
   * the menu, leaves the sequencer and every store as they were; a start
   * runs the game, with a new player whose store is empty, on the lines
   * after the menu's, and the turn runs out of input exactly when the game
   * leaves the sequencer running at a place.
   */
  lemma TurnOnCases(world: seq<seq<Item>>, boxes: seq<seq<seq<Item>>>, running: bool, at: nat, input: seq<Entry>)
    requires Fitted(world, boxes)
    ensures var r := TurnOn(world, boxes, running, at, input);
      && (!r.session.Start? ==>
            r.game == PlayRun([], 0, boxes, [], at, running) && (r.ended <==> r.session.MenuInputEnded?))
      && (r.session.Quit? ==> r.used == r.session.used)
      && (r.session.Start? ==>
            && r.game == GameOn(world, running, at, boxes, true, [], Choices(input[r.session.used..]))
            && r.used == r.session.used + r.game.used
            && (r.ended <==> r.game.running && r.game.at < |world|))
  {
  }

  /**
   * A run of `ScenePlayer.play` on values: the menu sessions, the line each
   * began at, the game after each (nothing happens after a quit), the line
   * reading stopped at, the places' stores, the sequencer's placement and
   * `running`, and whether the input ran out.
   */
  datatype TopRun = TopRun(sessions: seq<MenuOutcome>, starts: seq<nat>, games: seq<PlayRun>, used: nat,
                           boxes: seq<seq<seq<Item>>>, at: nat, sceneRunning: bool, ended: bool)

  /** `t` after the sessions and games given. */
  function Ahead(sessions: seq<MenuOutcome>, starts: seq<nat>, games: seq<PlayRun>, t: TopRun): TopRun {
    TopRun(sessions + t.sessions, starts + t.starts, games + t.games, t.used, t.boxes, t.at, t.sceneRunning, t.ended)
  }

  /** Two `Ahead`s in a row are one. */
  lemma AheadAhead(s1: seq<MenuOutcome>, st1: seq<nat>, g1: seq<PlayRun>, s2: seq<MenuOutcome>, st2: seq<nat>, g2: seq<PlayRun>, t: TopRun)
    ensures Ahead(s1, st1, g1, Ahead(s2, st2, g2, t)) == Ahead(s1 + s2, st1 + st2, g1 + g2, t)
  {
    assert s1 + (s2 + t.sessions) == s1 + s2 + t.sessions;
    assert st1 + (st2 + t.starts) == st1 + st2 + t.starts;
    assert g1 + (g2 + t.games) == g1 + g2 + t.games;
  }

  /**
   * The loop of `ScenePlayer.play` on values, from line `from` on: turns
   * follow each other while each starts a game that does not run out of
   * input; a quit stops the loop, and so does the end of input.
   */
  function TopOn(world: seq<seq<Item>>, boxes: seq<seq<seq<Item>>>, running: bool, at: nat, input: seq<Entry>, from: nat): (t: TopRun)
    requires Fitted(world, boxes) && from <= |input|
    ensures from <= t.used <= |input| && Fitted(world, t.boxes)
    ensures |t.sessions| == |t.starts| == |t.games|
    ensures forall j :: 0 <= j < |t.games| ==> Fitted(world, t.games[j].boxes)
    decreases |input| - from, 1
  {
    var r := TurnOn(world, boxes, running, at, input[from..]);
    Ahead([r.session], [from], [r.game],
          TopFrom(world, r.session.Start? && !r.ended, r.ended, r.game.boxes, r.game.running, r.game.at, input, from + r.used))
  }

  /** What is left of `ScenePlayer.play` when its loop, which tests `going`, is about to run a turn at line `from`. */
  function TopFrom(world: seq<seq<Item>>, going: bool, ended: bool, boxes: seq<seq<seq<Item>>>, running: bool, at: nat,
                   input: seq<Entry>, from: nat): (t: TopRun)
    requires Fitted(world, boxes) && from <= |input|
    ensures from <= t.used <= |input| && Fitted(world, t.boxes)
    ensures |t.sessions| == |t.starts| == |t.games|
    ensures forall j :: 0 <= j < |t.games| ==> Fitted(world, t.games[j].boxes)
    decreases |input| - from, if going then 2 else 0
  {
    if going then TopOn(world, boxes, running, at, input, from)
    else TopRun([], [], [], from, boxes, at, running, ended)
  }

  /** One turn of `TopFrom`, with the turn named. */
  lemma TopFromStep(world: seq<seq<Item>>, boxes: seq<seq<seq<Item>>>, running: bool, at: nat, input: seq<Entry>, from: nat, r: TurnRun,
                    sessions: seq<MenuOutcome>, starts: seq<nat>, games: seq<PlayRun>)
    requires Fitted(world, boxes) && from <= |input| && r == TurnOn(world, boxes, running, at, input[from..])
    ensures Ahead(sessions, starts, games, TopFrom(world, true, false, boxes, running, at, input, from))
         == Ahead(sessions + [r.session], starts + [from], games + [r.game],
                  TopFrom(world, r.session.Start? && !r.ended, r.ended, r.game.boxes, r.game.running, r.game.at, input, from + r.used))
  {
    var t := TopFrom(world, r.session.Start? && !r.ended, r.ended, r.game.boxes, r.game.running, r.game.at, input, from + r.used);
    AheadAhead(sessions, starts, games, [r.session], [from], [r.game], t);
  }

  /** The sequencer's state before turn `j` of `t`, which began in state `(boxes, running, at)`. */
  function StateBefore(t: TopRun, j: nat, boxes: seq<seq<seq<Item>>>, running: bool, at: nat): (seq<seq<seq<Item>>>, bool, nat)
    requires j <= |t.games|
  {
    if j == 0 then (boxes, running, at) else (t.games[j - 1].boxes, t.games[j - 1].running, t.games[j - 1].at)
  }

  /** Each game of `t` leaves stores that fit the places. */
  predicate GamesFitted(world: seq<seq<Item>>, t: TopRun) {
    forall j :: 0 <= j < |t.games| ==> Fitted(world, t.games[j].boxes)
  }

  /**
   * `r` is turn `j` of `t`. The next turn starts where `r` stopped
   * reading, and only after a started game that did not run out of input;
   * the last is a quit or the end of input, and reading stops where it does.
   */
  predicate Follows(r: TurnRun, t: TopRun, j: nat)
    requires j < |t.sessions| == |t.starts| == |t.games|
  {
    && r.session == t.sessions[j] && r.game == t.games[j]
    && (j + 1 < |t.sessions| ==> r.session.Start? && !r.ended && t.starts[j + 1] == t.starts[j] + r.used)
    && (j + 1 == |t.sessions| ==> t.used == t.starts[j] + r.used && t.ended == r.ended && (r.session.Quit? || r.ended))
  }

  /** Turn `j` of `t` is the turn in the state the previous one left, on the lines from `starts[j]` on. */
  ghost predicate TurnFits(world: seq<seq<Item>>, boxes: seq<seq<seq<Item>>>, running: bool, at: nat, input: seq<Entry>, t: TopRun, j: nat)
    requires Fitted(world, boxes) && GamesFitted(world, t)
    requires j < |t.sessions| == |t.starts| == |t.games|
  {
    && t.starts[j] <= |input|
    && var (b, g, a) := StateBefore(t, j, boxes, running, at);
       Follows(TurnOn(world, b, g, a, input[t.starts[j]..]), t, j)
  }

  /**
   * `t` is the transcript of turns on `input` from line `from` and state
   * `(boxes, running, at)` on: it starts at line `from`, every turn fits,
   * and the final state is the one the last turn left.
   */
  ghost predicate Transcript(world: seq<seq<Item>>, boxes: seq<seq<seq<Item>>>, running: bool, at: nat, input: seq<Entry>, from: nat, t: TopRun)
    requires Fitted(world, boxes) && GamesFitted(world, t)
  {
    && |t.sessions| == |t.starts| == |t.games| > 0 && t.starts[0] == from
    && (forall j :: 0 <= j < |t.sessions| ==> TurnFits(world, boxes, running, at, input, t, j))
    && var last := t.games[|t.games| - 1];
       t.boxes == last.boxes && t.at == last.at && t.sceneRunning == last.running
  }

  /** A turn fits in `u`, after the turn `r`, as it did in `u` alone. */
  lemma TurnFitsAhead(world: seq<seq<Item>>, boxes: seq<seq<seq<Item>>>, running: bool, at: nat, input: seq<Entry>,
                       r: TurnRun, from: nat, u: TopRun, j: nat)
    requires Fitted(world, boxes) && Fitted(world, r.game.boxes)
    requires GamesFitted(world, u) && 0 < j <= |u.sessions| == |u.starts| == |u.games|
    requires TurnFits(world, r.game.boxes, r.game.running, r.game.at, input, u, j - 1)
    ensures GamesFitted(world, Ahead([r.session], [from], [r.game], u))
    ensures TurnFits(world, boxes, running, at, input, Ahead([r.session], [from], [r.game], u), j)
  {
    var t := Ahead([r.session], [from], [r.game], u);
    assert t.sessions[j] == u.sessions[j - 1] && t.games[j] == u.games[j - 1] && t.starts[j] == u.starts[j - 1];
    if j < |u.sessions| {
      assert t.starts[j + 1] == u.starts[j];
    }
    assert StateBefore(t, j, boxes, running, at) == StateBefore(u, j - 1, r.game.boxes, r.game.running, r.game.at);
  }

  /** After a turn `r`, a transcript `u` of the turns that follow has each of them fit and ends in `u`'s final state. */
  lemma TranscriptAhead(world: seq<seq<Item>>, boxes: seq<seq<seq<Item>>>, running: bool, at: nat, input: seq<Entry>,
                        r: TurnRun, from: nat, u: TopRun)
    requires Fitted(world, boxes) && Fitted(world, r.game.boxes) && GamesFitted(world, u)
    requires Transcript(world, r.game.boxes, r.game.running, r.game.at, input, from + r.used, u)
    ensures GamesFitted(world, Ahead([r.session], [from], [r.game], u))
    ensures forall j :: 1 <= j < |u.sessions| + 1 ==> TurnFits(world, boxes, running, at, input, Ahead([r.session], [from], [r.game], u), j)
    ensures var t := Ahead([r.session], [from], [r.game], u);
      t.games[|t.games| - 1] == u.games[|u.games| - 1]
  {
    var t := Ahead([r.session], [from], [r.game], u);
    forall j | 1 <= j < |t.sessions|
      ensures TurnFits(world, boxes, running, at, input, t, j)
    {
      TurnFitsAhead(world, boxes, running, at, input, r, from, u, j);
    }
  }

  /** The first turn fits in `u` after it. */
  lemma FirstFits(world: seq<seq<Item>>, boxes: seq<seq<seq<Item>>>, running: bool, at: nat, input: seq<Entry>, from: nat,
                  r: TurnRun, u: TopRun)
    requires Fitted(world, boxes) && from <= |input| && r == TurnOn(world, boxes, running, at, input[from..])
    requires GamesFitted(world, u) && Fitted(world, r.game.boxes) && |u.sessions| == |u.starts| == |u.games|
    requires r.session.Start? && !r.ended ==> |u.sessions| > 0 && u.starts[0] == from + r.used
    requires !(r.session.Start? && !r.ended) ==> u == TopRun([], [], [], from + r.used, r.game.boxes, r.game.at, r.game.running, r.ended)
    ensures TurnFits(world, boxes, running, at, input, Ahead([r.session], [from], [r.game], u), 0)
  {
    var t := Ahead([r.session], [from], [r.game], u);
    assert t.starts[0] == from && t.sessions[0] == r.session && t.games[0] == r.game;
    if |u.sessions| > 0 {
      assert t.starts[1] == u.starts[0];
    }
  }

  /** A turn, then the transcript of the turns that follow it, is a transcript. */
  lemma TranscriptCons(world: seq<seq<Item>>, boxes: seq<seq<seq<Item>>>, running: bool, at: nat, input: seq<Entry>, from: nat,
                       r: TurnRun, u: TopRun)
    requires Fitted(world, boxes) && from <= |input| && r == TurnOn(world, boxes, running, at, input[from..])
    requires GamesFitted(world, u) && Fitted(world, r.game.boxes) && |u.sessions| == |u.starts| == |u.games|
    requires r.session.Start? && !r.ended ==> Transcript(world, r.game.boxes, r.game.running, r.game.at, input, from + r.used, u)
    requires !(r.session.Start? && !r.ended) ==> u == TopRun([], [], [], from + r.used, r.game.boxes, r.game.at, r.game.running, r.ended)
    ensures GamesFitted(world, Ahead([r.session], [from], [r.game], u))
    ensures Transcript(world, boxes, running, at, input, from, Ahead([r.session], [from], [r.game], u))
  {
    if r.session.Start? && !r.ended {
      TranscriptAhead(world, boxes, running, at, input, r, from, u);
    }
    FirstFits(world, boxes, running, at, input, from, r, u);
  }

  /** `TopOn` is a transcript of turns, and the end of input reads all of it. */
  lemma {:induction false} TopOnTranscript(world: seq<seq<Item>>, boxes: seq<seq<seq<Item>>>, running: bool, at: nat, input: seq<Entry>, from: nat)
    requires Fitted(world, boxes) && from <= |input|
    ensures GamesFitted(world, TopOn(world, boxes, running, at, input, from))
    ensures Transcript(world, boxes, running, at, input, from, TopOn(world, boxes, running, at, input, from))
    ensures var t := TopOn(world, boxes, running, at, input, from); t.ended ==> t.used == |input|
    decreases |input| - from
  {
    var t := TopOn(world, boxes, running, at, input, from);
    var r := TurnOn(world, boxes, running, at, input[from..]);
    var u := TopFrom(world, r.session.Start? && !r.ended, r.ended, r.game.boxes, r.game.running, r.game.at, input, from + r.used);
    assert t == Ahead([r.session], [from], [r.game], u);
    TurnOnEnded(world, boxes, running, at, input[from..]);
    if r.session.Start? && !r.ended {
      TopOnTranscript(world, r.game.boxes, r.game.running, r.game.at, input, from + r.used);
    }
    TranscriptCons(world, boxes, running, at, input, from, r, u);
  }

  /** A turn conserves items: the places' stores and the new player's store hold what the places held. */
  lemma TurnConserves(world: seq<seq<Item>>, boxes: seq<seq<seq<Item>>>, running: bool, at: nat, input: seq<Entry>)
    requires Fitted(world, boxes)
    ensures var r := TurnOn(world, boxes, running, at, input);
      WorldTotal(r.game.boxes) + multiset(r.game.mine) == WorldTotal(boxes)
  {
    var o := MenuSession(input);
    if o.Start? && running && at < |world| {
      PlayConserves(world, at, boxes, true, [], Choices(input[o.used..]));
    }
  }

  /** The items the players of `games` took, all together. */
  function Mines(games: seq<PlayRun>): multiset<Item> {
    if |games| == 0 then multiset{} else multiset(games[0].mine) + Mines(games[1..])
  }

  /** A game that conserves items, before a run that does, gives a run that does. */
  lemma ConservedAhead(boxes: seq<seq<seq<Item>>>, g: PlayRun, u: TopRun)
    requires WorldTotal(g.boxes) + multiset(g.mine) == WorldTotal(boxes)
    requires WorldTotal(u.boxes) + Mines(u.games) == WorldTotal(g.boxes)
    ensures WorldTotal(u.boxes) + Mines([g] + u.games) == WorldTotal(boxes)
  {
    assert ([g] + u.games)[1..] == u.games;
  }

  /**
   * `ScenePlayer.play` conserves items: what the places' stores hold at
   * the end, and what every player of the run took, is what the places
   * held at the start.
   */
  lemma {:induction false} TopConserves(world: seq<seq<Item>>, boxes: seq<seq<seq<Item>>>, running: bool, at: nat, input: seq<Entry>, from: nat)
    requires Fitted(world, boxes) && from <= |input|
    ensures var t := TopOn(world, boxes, running, at, input, from); WorldTotal(t.boxes) + Mines(t.games) == WorldTotal(boxes)
    decreases |input| - from
  {
    var t := TopOn(world, boxes, running, at, input, from);
    var r := TurnOn(world, boxes, running, at, input[from..]);
    var u := TopFrom(world, r.session.Start? && !r.ended, r.ended, r.game.boxes, r.game.running, r.game.at, input, from + r.used);
    assert t == Ahead([r.session], [from], [r.game], u);
    TurnConserves(world, boxes, running, at, input[from..]);
    if r.session.Start? && !r.ended {
      TopConserves(world, r.game.boxes, r.game.running, r.game.at, input, from + r.used);
    }
    ConservedAhead(boxes, r.game, u);
  }

  /** A turn of the top-level loop, as `ScenePlayer.Turn` reports it, carries `TopFrom` on to the next. */
  lemma TurnStep(world: seq<seq<Item>>, boxes: seq<seq<seq<Item>>>, running: bool, at: nat, input: seq<Entry>, from: nat,
                 r: TurnRun, outcome: MenuOutcome, used: nat, ended: bool, going: bool,
                 sessions: seq<MenuOutcome>, starts: seq<nat>, games: seq<PlayRun>, whole: TopRun)
    requires Fitted(world, boxes) && from <= |input| && r == TurnOn(world, boxes, running, at, input[from..])
    requires outcome == r.session && used == r.used && ended == r.ended && going == !outcome.Quit?
    requires whole == Ahead(sessions, starts, games, TopFrom(world, true, false, boxes, running, at, input, from))
    ensures from + used <= |input|
    ensures whole == Ahead(sessions + [outcome], starts + [from], games + [r.game],
                           TopFrom(world, going && !ended, ended, r.game.boxes, r.game.running, r.game.at, input, from + used))
  {
    TopFromStep(world, boxes, running, at, input, from, r, sessions, starts, games);
  }

  class ScenePlayer {
    const menu: MainMenu
    const sceneManager: Scene
    var running: bool

    /** `ScenePlayer(menu, scene_manager)`: running. */
    constructor (menu: MainMenu, sceneManager: Scene)
      ensures this.menu == menu && this.sceneManager == sceneManager && running
    {
      this.menu := menu;
      this.sceneManager := sceneManager;
      running := true;
    }

    /**
     * `play_mainmenu()`: one session of the main menu (see `MainMenu.Run`).
     * The sequencer and every store are as they were; a new player's store
     * is none of the places'.
     */
    method PlayMainMenu(input: seq<Entry>) returns (outcome: MenuOutcome)
      requires WorldValid(sceneManager.places, null)
      modifies menu, menu.signaler
      ensures outcome == MenuSession(input)
      ensures outcome.Start? ==>
                && menu.player != null && fresh(menu.player) && fresh(menu.player.storage)
                && menu.player.core.id == outcome.id && menu.player.storage.inventory == []
                && menu.player.storage !in Storages(sceneManager.places) && menu.player.storage !in AllStores(sceneManager.places)
                && menu.signaler.sign
      ensures outcome.Quit? ==> !menu.signaler.sign
      ensures !outcome.MenuInputEnded? ==> (menu.signaler.sign <==> outcome.Start?)
      ensures WorldValid(sceneManager.places, null) && WorldBoxes(sceneManager.places) == old(WorldBoxes(sceneManager.places))
      ensures unchanged(sceneManager) && running == old(running)
    {
      outcome := menu.Run(input);
      StoresOld(sceneManager.places);
      WorldBoxesKept(sceneManager.places);
    }

    /**
     * `play_game()`: the scene sequencer with the menu's player, whose store
     * is none of the places' stores; it does what `GameOn` says.
     */
    method PlayGame(input: seq<Line>) returns (results: seq<RunResult>, used: nat, ended: bool)
      requires WorldValid(sceneManager.places, null) && menu.player != null
      requires menu.player.storage !in Storages(sceneManager.places) && menu.player.storage !in AllStores(sceneManager.places)
      modifies sceneManager, PlayFrame(sceneManager.places, null), menu.player.storage
      ensures WorldValid(sceneManager.places, null)
      ensures PlayRun(results, used, WorldBoxes(sceneManager.places), MineOf(old(menu.player)), sceneManager.playerPlacement, sceneManager.running)
           == GameOn(PlaceItems(sceneManager.places), old(sceneManager.running), old(sceneManager.playerPlacement),
                     old(WorldBoxes(sceneManager.places)), true, old(MineOf(menu.player)), input)
      ensures ended <==> results != [] && results[|results| - 1] == RunInputEnded
      ensures ended <==> sceneManager.running && sceneManager.playerPlacement < |sceneManager.places|
      ensures menu.player == old(menu.player)
    {
      var user := menu.player;
      MenuOutside(sceneManager.places, menu);
      PlayFrameWithUser(sceneManager.places, user);
      ApartWithUser(sceneManager.places, user);
      results, used, ended := sceneManager.Play(user, input);
      ApartWithUser(sceneManager.places, user);
      GameOnEnds(PlaceItems(sceneManager.places), old(sceneManager.running), old(sceneManager.playerPlacement),
                 old(WorldBoxes(sceneManager.places)), true, old(MineOf(user)), input,
                 PlayRun(results, used, WorldBoxes(sceneManager.places), MineOf(user), sceneManager.playerPlacement, sceneManager.running));
    }

    /** `self.running = False`: nothing else changes. */
    method Stop()
      requires WorldValid(sceneManager.places, null)
      modifies this
      ensures !running
      ensures WorldValid(sceneManager.places, null) && WorldBoxes(sceneManager.places) == old(WorldBoxes(sceneManager.places))
    {
      running := false;
    }

    /**
     * One pass of `play`'s loop: the main menu, then the game if the menu's
     * signal is set and otherwise `running` cleared. It does what
     * `TurnOn` says; a quit leaves the sequencer and every store as they
     * were, and a start runs the game, with the new player, on the lines
     * after the menu's.
     */
    method Turn(input: seq<Entry>) returns (outcome: MenuOutcome, results: seq<RunResult>, used: nat, ended: bool)
      requires WorldValid(sceneManager.places, null)
      modifies this, menu, menu.signaler, sceneManager, PlayFrame(sceneManager.places, null)
      ensures WorldValid(sceneManager.places, null)
      ensures var r := TurnOn(PlaceItems(sceneManager.places), old(WorldBoxes(sceneManager.places)),
                               old(sceneManager.running), old(sceneManager.playerPlacement), input);
        && outcome == r.session && results == r.game.results && used == r.used && ended == r.ended
        && WorldBoxes(sceneManager.places) == r.game.boxes
        && sceneManager.playerPlacement == r.game.at && sceneManager.running == r.game.running
        && (outcome.Start? ==> menu.player != null && menu.player.core.id == outcome.id && MineOf(menu.player) == r.game.mine)
      ensures running == (old(running) && !outcome.Quit?)
    {
      ghost var world, boxes := PlaceItems(sceneManager.places), WorldBoxes(sceneManager.places);
      outcome := PlayMainMenu(input);
      if outcome.MenuInputEnded? {
        return outcome, [], |input|, true;
      }
      results, used, ended := [], outcome.used, false;
      if menu.signaler.GetSignal() {
        var k;
        results, k, ended := PlayGame(Choices(input[used..]));
        used := used + k;
      } else {
        Stop();
      }
    }

    /**
     * What `play`'s loop keeps after the turns `sessions`, begun at lines
     * `starts`, whose games were `games` and answered `results`: the world
     * is whole, and the turns so far followed by what `TopFrom` says of the
     * rest make up `whole`; `running` is cleared once a session quits.
     */
    ghost predicate Tracks(input: seq<Entry>, go: bool, whole: TopRun, sessions: seq<MenuOutcome>, starts: seq<nat>,
                           games: seq<PlayRun>, results: seq<seq<RunResult>>, used: nat, ended: bool)
      reads this, sceneManager, Storages(sceneManager.places), AllStores(sceneManager.places)
    {
      && WorldValid(sceneManager.places, null) && used <= |input|
      && |results| == |games| && (forall j :: 0 <= j < |results| ==> results[j] == games[j].results)
      && whole == Ahead(sessions, starts, games,
                        TopFrom(PlaceItems(sceneManager.places), running && !ended, ended, WorldBoxes(sceneManager.places),
                                sceneManager.running, sceneManager.playerPlacement, input, used))
      && running == (go && (sessions == [] || !sessions[|sessions| - 1].Quit?))
    }

    /** When `play`'s loop stops, `whole` is the turns taken and the state they left. */
    lemma TracksDone(input: seq<Entry>, go: bool, whole: TopRun, sessions: seq<MenuOutcome>, starts: seq<nat>,
                     games: seq<PlayRun>, results: seq<seq<RunResult>>, used: nat, ended: bool)
      requires Tracks(input, go, whole, sessions, starts, games, results, used, ended) == true && !(running && !ended)
      ensures WorldValid(sceneManager.places, null)
      ensures sessions == whole.sessions && starts == whole.starts && used == whole.used && ended == whole.ended
      ensures |results| == |whole.games| && (forall j :: 0 <= j < |results| ==> results[j] == whole.games[j].results)
      ensures WorldBoxes(sceneManager.places) == whole.boxes
      ensures sceneManager.playerPlacement == whole.at && sceneManager.running == whole.sceneRunning
      ensures running == (go && (sessions == [] || !sessions[|sessions| - 1].Quit?))
    {
    }

    /** One pass of `play`'s loop, at line `from`: a turn, which keeps `Tracks`. */
    method Step(input: seq<Entry>, from: nat, ghost go: bool, ghost whole: TopRun, ghost sessions: seq<MenuOutcome>,
                ghost starts: seq<nat>, ghost games: seq<PlayRun>, ghost results: seq<seq<RunResult>>)
      returns (outcome: MenuOutcome, res: seq<RunResult>, used: nat, ended: bool, ghost game: PlayRun)
      requires running && Tracks(input, go, whole, sessions, starts, games, results, from, false) == true
      modifies this, menu, menu.signaler, sceneManager, PlayFrame(sceneManager.places, null)
      ensures Tracks(input, go, whole, sessions + [outcome], starts + [from], games + [game], results + [res], from + used, ended) == true
      ensures running && !ended ==> used > 0
    {
      ghost var world := PlaceItems(sceneManager.places);
      ghost var boxes, sr, at := WorldBoxes(sceneManager.places), sceneManager.running, sceneManager.playerPlacement;
      ghost var r := TurnOn(world, boxes, sr, at, input[from..]);
      outcome, res, used, ended := Turn(input[from..]);
      TurnStep(world, boxes, sr, at, input, from, r, outcome, used, ended, running, sessions, starts, games, whole);
      game := r.game;
      assert Tracks(input, go, whole, sessions + [outcome], starts + [from], games + [game], results + [res], from + used, ended);
    }

    /**
     * `play()`: turns, each a session of the main menu and, if it starts a
     * game, that game, while `running` is set and the input lasts. Every
     * turn reads on from where the last stopped: the turns, where each
     * began, what each game answered, the lines read, every store and the
     * sequencer's placement and `running` are those of `TopFrom`; `running`
     * is cleared by the first session that quits.
     */
    method Play(input: seq<Entry>) returns (sessions: seq<MenuOutcome>, starts: seq<nat>, results: seq<seq<RunResult>>,
                                           used: nat, ended: bool)
      requires WorldValid(sceneManager.places, null)
      modifies this, menu, menu.signaler, sceneManager, PlayFrame(sceneManager.places, null)
      ensures WorldValid(sceneManager.places, null)
      ensures var t := TopFrom(PlaceItems(sceneManager.places), old(running), false, old(WorldBoxes(sceneManager.places)),
                               old(sceneManager.running), old(sceneManager.playerPlacement), input, 0);
        && sessions == t.sessions && starts == t.starts && used == t.used && ended == t.ended
        && |results| == |t.games| && (forall j :: 0 <= j < |results| ==> results[j] == t.games[j].results)
        && WorldBoxes(sceneManager.places) == t.boxes
        && sceneManager.playerPlacement == t.at && sceneManager.running == t.sceneRunning
      ensures running == (old(running) && (sessions == [] || !sessions[|sessions| - 1].Quit?))
    {
      ghost var whole := TopFrom(PlaceItems(sceneManager.places), running, false, WorldBoxes(sceneManager.places),
                                 sceneManager.running, sceneManager.playerPlacement, input, 0);
      ghost var games: seq<PlayRun> := [];
      sessions, starts, results, used, ended := [], [], [], 0, false;
      while running && !ended
        invariant Tracks(input, old(running), whole, sessions, starts, games, results, used, ended) == true
        decreases |input| - used, if running && !ended then 1 else 0
      {
        var outcome, res, k, e, game := Step(input, used, old(running), whole, sessions, starts, games, results);
        sessions, starts, results, games := sessions + [outcome], starts + [used], results + [res], games + [game];
        used, ended := used + k, e;
      }
      TracksDone(input, old(running), whole, sessions, starts, games, results, used, ended);
    }
  }
}
