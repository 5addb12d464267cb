/**
 * The capabilities a game object can carry, and running one by name.
 *
 * `Storageable` is the item container used by world objects and by the
 * player alike; `Openable` moves one chosen item out of its store into the
 * player's store, the only place where items change hands; `Examinable`
 * holds a description; `Signaler` is a one-bit flag. `Capability` is the
 * closed set of capabilities a game object maps its names to.
 */
module Actionables {
  import opened Builtins
  import opened GameObjects
  import opened Console

  // ---------------------------------------------------------------------------
  // Storageable

  class Storageable<T> {
    var inventory: seq<T>

    /** `Storageable(inventory=None)`: `None` gives an empty list. */
    constructor (inventory: Option<seq<T>> := None)
      ensures this.inventory == if inventory.Some? then inventory.value else []
    {
      this.inventory := if inventory.Some? then inventory.value else [];
    }

    function GetInventory(): (r: seq<T>)
      reads this
    {
      inventory
    }

    method SetInventory(newInventory: seq<T>)
      modifies this
      ensures GetInventory() == newInventory
    {
      inventory := newInventory;
    }
  }

  // ---------------------------------------------------------------------------
  // The transfer rule

  /** `s` after `s.pop(i)`: the element at `i` is gone, the others keep their order. */
  function Removed<T>(s: seq<T>, i: nat): (r: seq<T>)
    requires i < |s|
    ensures |r| == |s| - 1
    ensures forall j :: 0 <= j < i ==> r[j] == s[j]
    ensures forall j :: i <= j < |r| ==> r[j] == s[j + 1]
  {
    s[..i] + s[i + 1..]
  }

  /** Popping an element loses nothing else: the rest plus that element is the old multiset. */
  lemma RemovedConserves<T>(s: seq<T>, i: nat)
    requires i < |s|
    ensures multiset(Removed(s, i)) + multiset{s[i]} == multiset(s)
  {
    assert s == s[..i] + [s[i]] + s[i + 1..];
  }

  /**
   * Moving the item at `i` of `source` to the end of `dest` conserves items:
   * the two stores together hold the same multiset, one fewer in `source`,
   * one more in `dest`.
   */
  lemma TransferConserves<T>(source: seq<T>, dest: seq<T>, i: nat)
    requires i < |source|
    ensures multiset(Removed(source, i)) + multiset(dest + [source[i]]) == multiset(source) + multiset(dest)
    ensures |Removed(source, i)| + 1 == |source| && |dest + [source[i]]| == |dest| + 1
  {
    RemovedConserves(source, i);
  }

  /** When source and destination are the same store the item only moves to the end. */
  lemma MoveToEndConserves<T>(s: seq<T>, i: nat)
    requires i < |s|
    ensures multiset(Removed(s, i) + [s[i]]) == multiset(s)
    ensures |Removed(s, i) + [s[i]]| == |s|
  {
    RemovedConserves(s, i);
  }

  /** What running a capability gives back. */
  datatype ExecResult<T> = NoResult | Message(text: string) | Taken(item: T) | InputEnded

  /**
   * One run of `Openable.exec` on values: the result, the console lines read,
   * and the new contents of the opened store and of the player's store.
   */
  datatype Opening<T> = Opening(result: ExecResult<T>, used: nat, store: seq<T>, mine: seq<T>)

  /**
   * Taking the item at `i`: popped from `store`, appended to `mine`. When the
   * player's store is the opened store itself (`shared`), both name the one
   * list, which ends with the item moved to its end.
   */
  function Take<T>(store: seq<T>, mine: seq<T>, shared: bool, i: nat, used: nat): Opening<T>
    requires i < |store|
  {
    if shared then Opening(Taken(store[i]), used, Removed(store, i) + [store[i]], Removed(store, i) + [store[i]])
    else Opening(Taken(store[i]), used, Removed(store, i), mine + [store[i]])
  }

  /**
   * `Openable.exec` on the contents of its store and of the player's store:
   * nothing inside takes nothing and reads nothing; otherwise one
   * `get_choice(1, len)` decides, `"esc"` takes nothing and a number takes
   * that item.
   */
  function OpenOn<T>(store: seq<T>, mine: seq<T>, shared: bool, input: seq<Line>): (r: Opening<T>)
    ensures r.used <= |input|
  {
    if |store| == 0 then Opening(NoResult, 0, store, mine)
    else
      var a := Prompt(1, |store|, input);
      if a.0.None? then Opening(InputEnded, a.1, store, mine)
      else if a.0.value.Esc? then Opening(NoResult, a.1, store, mine)
      else Take(store, mine, shared, a.0.value.n - 1, a.1)
  }

  /**
   * The cases of `exec`: an empty store reads no line; otherwise exactly the
   * lines of one prompt are read, the input running out gives `InputEnded`,
   * and an item is taken exactly when a number was answered, that number
   * naming the item (1-based). Anything but a take leaves both stores as
   * they were.
   */
  lemma OpenOnCases<T>(store: seq<T>, mine: seq<T>, shared: bool, input: seq<Line>)
    ensures var o := OpenOn(store, mine, shared, input);
      var a := Prompt(1, |store|, input);
      && (|store| == 0 ==> o.result == NoResult && o.used == 0)
      && (|store| > 0 ==> o.used == a.1)
      && (o.result == InputEnded <==> |store| > 0 && a.0.None?)
      && (o.result == InputEnded ==> o.used == |input|)
      && (o.result.Taken? <==> |store| > 0 && a.0.Some? && a.0.value.Picked?)
      && (o.result.Taken? ==> 1 <= a.0.value.n <= |store| && o.result.item == store[a.0.value.n - 1])
      && (!o.result.Taken? ==> o.store == store && o.mine == mine)
      && !o.result.Message?
  {
  }

  /**
   * `exec` conserves items: with two stores, the items of both together are
   * the same multiset and the player's store only grows at its end; with one
   * shared store, its items are the same multiset.
   */
  lemma OpenOnConserves<T>(store: seq<T>, mine: seq<T>, shared: bool, input: seq<Line>)
    requires shared ==> store == mine
    ensures var o := OpenOn(store, mine, shared, input);
      && (!shared ==> multiset(o.store) + multiset(o.mine) == multiset(store) + multiset(mine) && mine <= o.mine)
      && (shared ==> o.store == o.mine && multiset(o.mine) == multiset(mine))
  {
    var o := OpenOn(store, mine, shared, input);
    if o.result.Taken? {
      var i: nat := Prompt(1, |store|, input).0.value.n - 1;
      if shared {
        MoveToEndConserves(store, i);
      } else {
        TransferConserves(store, mine, i);
      }
    }
  }

  /** The outcome of Python code that may raise `TypeError`. */
  datatype Outcome<X> = Completed(value: X) | TypeErrorRaised

  /**
   * Python's chained comparison `1 <= pick <= n` on what `get_choice`
   * returns; comparing the string `"esc"` with an integer raises `TypeError`.
   */
  function GuardAsWritten(pick: Choice, n: int): Outcome<bool> {
    match pick
    case Esc => TypeErrorRaised
    case Picked(p) => Completed(1 <= p <= n)
  }

  /**
   * `Openable.exec` exactly as written: the guard `1 <= pick <= len(inventory)`
   * is evaluated on the answer of `get_choice`, `"esc"` included.
   */
  function OpenAsWritten<T>(store: seq<T>, mine: seq<T>, shared: bool, input: seq<Line>): Outcome<Opening<T>> {
    if |store| == 0 then Completed(Opening(NoResult, 0, store, mine))
    else
      var a := Prompt(1, |store|, input);
      if a.0.None? then Completed(Opening(InputEnded, a.1, store, mine))
      else match GuardAsWritten(a.0.value, |store|)
        case TypeErrorRaised => TypeErrorRaised
        case Completed(inRange) =>
          if inRange then Completed(Take(store, mine, shared, a.0.value.n - 1, a.1))
          else Completed(Opening(NoResult, a.1, store, mine))
  }

  /**
   * `exec` as written raises exactly when the store is not empty and the
   * answer is `"esc"`; on every other input it does what `OpenOn` does.
   */
  lemma OpenAsWrittenAgrees<T>(store: seq<T>, mine: seq<T>, shared: bool, input: seq<Line>)
    ensures OpenAsWritten(store, mine, shared, input) == TypeErrorRaised
        <==> |store| > 0 && Prompt(1, |store|, input).0 == Some(Esc)
    ensures OpenAsWritten(store, mine, shared, input) != TypeErrorRaised ==>
              OpenAsWritten(store, mine, shared, input) == Completed(OpenOn(store, mine, shared, input))
  {
  }

  /** Opening a store holding one item and answering `"esc"`: the code as written crashes, `OpenOn` takes nothing. */
  lemma EscCrashesAsWritten<T>(x: T, mine: seq<T>)
    ensures OpenAsWritten([x], mine, false, [EscLine]) == TypeErrorRaised
    ensures OpenOn([x], mine, false, [EscLine]) == Opening(NoResult, 1, [x], mine)
  {
    assert Prompt(1, 1, [EscLine]) == (Some(Esc), 1);
  }

  // ---------------------------------------------------------------------------
  // Openable

  class Openable<T> {
    const storageable: Storageable<T>

    /** `Openable(takeable_items)` wraps the items in a new store. */
    constructor (takeableItems: Option<seq<T>>)
      ensures fresh(storageable)
      ensures storageable.inventory == if takeableItems.Some? then takeableItems.value else []
    {
      storageable := new Storageable(takeableItems);
    }

    /**
     * `exec(player, obj_name)`: on a non-empty store, asks for an item number
     * in `[1, len]`; the chosen item is popped from this store and appended
     * to the player's store, and returned. An empty store, an `"esc"` answer
     * and the end of input take nothing. `player` is the player's store, the
     * only part of the player `exec` touches (through `get_inventory` and
     * `set_inventory`).
     */
    method Exec(player: Storageable<T>, input: seq<Line>) returns (r: ExecResult<T>, used: nat)
      modifies storageable, player
      ensures Opened(this, player, input, r, used)
    {
      var inventory := storageable.GetInventory();
      if |inventory| == 0 {
        // "There is nothing inside."
        return NoResult, 0;
      }
      var pick;
      pick, used := GetChoice(1, |inventory|, input);
      if pick.None? {
        return InputEnded, used;
      }
      if pick.value.Picked? && 1 <= pick.value.n <= |inventory| {
        var i: nat := pick.value.n - 1;
        var itemTaken := inventory[i];
        // `inventory.pop(pick - 1)` changes the stored list itself.
        storageable.SetInventory(Removed(inventory, i));
        var playerInventory := player.GetInventory();
        player.SetInventory(playerInventory + [itemTaken]);
        // The closing `set_inventory(inventory)` stores that same, already
        // updated, list object again and so changes nothing.
        return Taken(itemTaken), used;
      }
      r := NoResult;
    }
  }

  /**
   * The contract of `Openable.Exec`: its result, the lines it reads and the
   * new contents of both stores are those `OpenOn` gives on the old contents.
   */
  twostate predicate Opened<T>(o: Openable<T>, player: Storageable<T>, input: seq<Line>, new r: ExecResult<T>, used: nat)
    reads o.storageable, player
  {
    var out := OpenOn(old(o.storageable.inventory), old(player.inventory), player == o.storageable, input);
    && r == out.result && used == out.used
    && o.storageable.inventory == out.store && player.inventory == out.mine
  }

  // ---------------------------------------------------------------------------
  // Examinable and Signaler

  class Examinable {
    var message: string

    constructor (message: string)
      ensures this.message == message
    {
      this.message := message;
    }

    method SetMessage(newMessage: string)
      modifies this
      ensures Exec() == newMessage
    {
      message := newMessage;
    }

    /** `exec()`: the current message; it changes nothing, so repeated calls agree. */
    function Exec(): (r: string)
      reads this
      ensures r == message
    {
      message
    }
  }

  class Signaler {
    var sign: bool

    /** `Signaler(sign=False)`. */
    constructor (sign: bool := false)
      ensures this.sign == sign
    {
      this.sign := sign;
    }

    method SetSignaler(sign: bool)
      modifies this
      ensures GetSignal() == sign
    {
      this.sign := sign;
    }

    function GetSignal(): (r: bool)
      reads this
    {
      sign
    }

    /** The `next` property's getter: the same bit as `get_signal()`. */
    function Next(): (r: bool)
      reads this
    {
      sign
    }

    /** The `next` property's setter. */
    method SetNext(value: bool)
      modifies this
      ensures GetSignal() == value && Next() == value
    {
      sign := value;
    }
  }

  // ---------------------------------------------------------------------------
  // Dispatch by name

  /** The closed set of capabilities, by kind. */
  datatype Capability<T> = Examine(examinable: Examinable) | Open(openable: Openable<T>)

  /** `*params` of `execute_actionable`: nothing for `examine`, the player for `open`. */
  datatype Params<T> = NoParams | OpenParams(player: Storageable<T>)

  /** The arguments suit the capability's `exec` (otherwise Python raises `TypeError`). */
  predicate Fits<T>(c: Capability<T>, params: Params<T>) {
    (c.Examine? && params.NoParams?) || (c.Open? && params.OpenParams?)
  }

  /** What running capability `name` of `obj` may change: the two stores of an `open`, else nothing. */
  function ExecFrame<T>(obj: GameObject<Capability<T>>, name: string, params: Params<T>): set<object> {
    if name in obj.actionables && obj.actionables[name].Open? && params.OpenParams? then
      {obj.actionables[name].openable.storageable, params.player}
    else {}
  }

  /**
   * `GameObject.execute_actionable(name, *params)`: looks `name` up and runs
   * that capability's `exec`; a missing name gives `None` and, its frame
   * being empty, changes nothing.
   */
  method ExecuteActionable<T>(obj: GameObject<Capability<T>>, name: string, params: Params<T>, input: seq<Line>)
    returns (r: ExecResult<T>, used: nat)
    requires obj.HasActionable(name) ==> Fits(obj.actionables[name], params)
    modifies ExecFrame(obj, name, params)
    ensures used <= |input|
    ensures !obj.HasActionable(name) ==> r == NoResult && used == 0
    ensures obj.HasActionable(name) && obj.actionables[name].Examine? ==>
              r == Message(obj.actionables[name].examinable.message) && used == 0
    ensures obj.HasActionable(name) && obj.actionables[name].Open? ==>
              Opened(obj.actionables[name].openable, params.player, input, r, used)
  {
    var actionable := obj.GetActionable(name);
    match actionable
    case None =>
      r, used := NoResult, 0;
    case Some(Examine(e)) =>
      r, used := Message(e.Exec()), 0;
    case Some(Open(o)) =>
      r, used := o.Exec(params.player, input);
  }
}
