/**
 * `optionBox`: the per-object action menu. The menu lists one entry per
 * declared capability, examine before open, and always ends with "CLOSE
 * OPTION BOX"; it is re-shown until the close entry is picked, `"esc"` is
 * answered, or the input runs out.
 */
module Menus {
  import opened Builtins
  import opened GameObjects
  import opened Console
  import opened Actionables

  /** One entry of the action menu. */
  datatype Action = ExamineAction | OpenAction | CloseAction

  /** The capability names `optionBox` offers an entry for, in menu order. */
  const MenuNames: seq<string> := ["examine", "open"]

  function ActionOf(name: string): Action {
    if name == "examine" then ExamineAction else OpenAction
  }

  /** One action per name in `names` that `obj` declares, then the close action. */
  function ActionsFrom<T>(obj: GameObject<Capability<T>>, names: seq<string>): seq<Action> {
    if |names| == 0 then [CloseAction]
    else (if obj.HasActionable(names[0]) then [ActionOf(names[0])] else []) + ActionsFrom(obj, names[1..])
  }

  /** The actions, in the order `optionBox` registers them in `actions`. */
  function MenuActions<T>(obj: GameObject<Capability<T>>): seq<Action> {
    ActionsFrom(obj, MenuNames)
  }

  /** The menu for the two names, spelled out: examine entry, open entry, close entry. */
  lemma MenuUnfolded<T>(obj: GameObject<Capability<T>>)
    ensures MenuActions(obj) ==
              (if obj.HasActionable("examine") then [ExamineAction] else [])
              + (if obj.HasActionable("open") then [OpenAction] else []) + [CloseAction]
    ensures MenuLabels(obj) ==
              (if obj.HasActionable("examine") then ["EXAMINE " + obj.id] else [])
              + (if obj.HasActionable("open") then ["OPEN " + obj.id] else []) + ["CLOSE OPTION BOX"]
  {
    assert MenuNames[1..] == ["open"] && MenuNames[1..][1..] == [];
    assert ActionsFrom(obj, MenuNames[1..]) == (if obj.HasActionable("open") then [OpenAction] else []) + [CloseAction];
    assert LabelsFrom(obj, MenuNames[1..]) == (if obj.HasActionable("open") then ["OPEN " + obj.id] else []) + ["CLOSE OPTION BOX"];
  }

  /**
   * The menu has an examine entry iff the object can be examined, an open
   * entry iff it can be opened, examine before open, and the close entry
   * last and only last.
   */
  lemma MenuActionsShape<T>(obj: GameObject<Capability<T>>)
    ensures var r := MenuActions(obj);
      && |r| == 1 + (if obj.HasActionable("examine") then 1 else 0) + (if obj.HasActionable("open") then 1 else 0)
      && r[|r| - 1] == CloseAction
      && (forall i :: 0 <= i < |r| - 1 ==> r[i] != CloseAction)
      && (ExamineAction in r <==> obj.HasActionable("examine"))
      && (OpenAction in r <==> obj.HasActionable("open"))
      && (ExamineAction in r ==> r[0] == ExamineAction)
      && (OpenAction in r ==> r[|r| - 2] == OpenAction)
  {
    MenuUnfolded(obj);
  }

  /** The menu text of an action on the object with id `id`. */
  function LabelOf(a: Action, id: string): string {
    match a
    case ExamineAction => "EXAMINE " + id
    case OpenAction => "OPEN " + id
    case CloseAction => "CLOSE OPTION BOX"
  }

  /** The label text `optionBox` writes for a capability name. */
  function NameLabel(name: string, id: string): string {
    if name == "examine" then "EXAMINE " + id else "OPEN " + id
  }

  /** One label per name in `names` that `obj` declares, then the close label. */
  function LabelsFrom<T>(obj: GameObject<Capability<T>>, names: seq<string>): seq<string> {
    if |names| == 0 then ["CLOSE OPTION BOX"]
    else (if obj.HasActionable(names[0]) then [NameLabel(names[0], obj.GetId())] else []) + LabelsFrom(obj, names[1..])
  }

  /** The labels, in the order `optionBox` appends them to `string_actions`. */
  function MenuLabels<T>(obj: GameObject<Capability<T>>): seq<string> {
    LabelsFrom(obj, MenuNames)
  }

  /** Labels and actions built from the same names line up entry by entry. */
  lemma {:induction false} LabelsFromMatch<T>(obj: GameObject<Capability<T>>, names: seq<string>)
    ensures |LabelsFrom(obj, names)| == |ActionsFrom(obj, names)|
    ensures forall i :: 0 <= i < |LabelsFrom(obj, names)| ==>
              LabelsFrom(obj, names)[i] == LabelOf(ActionsFrom(obj, names)[i], obj.GetId())
  {
    if |names| > 0 {
      LabelsFromMatch(obj, names[1..]);
    }
  }

  /** There are as many labels as actions, and label `i` describes action `i`. */
  lemma LabelsMatchActions<T>(obj: GameObject<Capability<T>>)
    ensures |MenuLabels(obj)| == |MenuActions(obj)|
    ensures forall i :: 0 <= i < |MenuLabels(obj)| ==> MenuLabels(obj)[i] == LabelOf(MenuActions(obj)[i], obj.GetId())
  {
    LabelsFromMatch(obj, MenuNames);
  }

  /** The menu for an object with both capabilities, spelled out. */
  lemma FullMenu<T>(obj: GameObject<Capability<T>>)
    requires obj.HasActionable("examine") && obj.HasActionable("open")
    ensures MenuLabels(obj) == ["EXAMINE " + obj.id, "OPEN " + obj.id, "CLOSE OPTION BOX"]
    ensures MenuActions(obj) == [ExamineAction, OpenAction, CloseAction]
  {
    MenuUnfolded(obj);
  }

  /** An object without capabilities offers only the close entry. */
  lemma EmptyMenu<T>(obj: GameObject<Capability<T>>)
    requires obj.actionables == map[]
    ensures MenuLabels(obj) == ["CLOSE OPTION BOX"]
  {
    MenuUnfolded(obj);
  }

  /** `"examine"` and `"open"` are bound to capabilities of those kinds. */
  predicate WellWired<T>(obj: GameObject<Capability<T>>) {
    && (obj.HasActionable("examine") ==> obj.actionables["examine"].Examine?)
    && (obj.HasActionable("open") ==> obj.actionables["open"].Open?)
  }

  /** The store an `open` entry takes items from, if the object has one. */
  function OpenStore<T>(obj: GameObject<Capability<T>>): Option<Storageable<T>> {
    if obj.HasActionable("open") && obj.actionables["open"].Open? then
      Some(obj.actionables["open"].openable.storageable)
    else None
  }

  /** What a session with the menu may change: the object's store and the player's. */
  function BoxFrame<T>(obj: GameObject<Capability<T>>, player: Storageable<T>): set<object> {
    if OpenStore(obj).Some? then {OpenStore(obj).value, player} else {}
  }

  /** The contents of the store an `open` entry takes from; none is an empty one. */
  function BoxOf<T>(obj: GameObject<Capability<T>>): seq<T>
    reads if OpenStore(obj).Some? then {OpenStore(obj).value} else {}
  {
    if OpenStore(obj).Some? then OpenStore(obj).value.inventory else []
  }

  /** The player's store is the object's store itself. */
  predicate Shared<T>(obj: GameObject<Capability<T>>, player: Storageable<T>) {
    OpenStore(obj) == Some(player)
  }

  /** One run of a menu entry on values: input ran out, lines read, the two stores after. */
  datatype Step<T> = Step(ended: bool, used: nat, store: seq<T>, mine: seq<T>)

  /**
   * A menu entry other than close on the contents of the object's store and
   * the player's: `open` runs `Openable.exec`, `examine` only shows its
   * message.
   */
  function ActionOn<T>(act: Action, store: seq<T>, mine: seq<T>, shared: bool, input: seq<Line>): (r: Step<T>)
    ensures r.used <= |input|
  {
    if act == OpenAction then
      var o := OpenOn(store, mine, shared, input);
      Step(o.result == InputEnded, o.used, o.store, o.mine)
    else Step(false, 0, store, mine)
  }

  /**
   * Runs one menu entry other than close: `examine` shows its message and
   * changes nothing, `open` runs the transfer. `ended` is the input running
   * out inside `open`.
   */
  method RunAction<T>(obj: GameObject<Capability<T>>, player: Storageable<T>, i: nat, input: seq<Line>)
    returns (ended: bool, k: nat)
    requires WellWired(obj)
    requires i < |MenuActions(obj)| && MenuActions(obj)[i] != CloseAction
    modifies BoxFrame(obj, player)
    ensures Step(ended, k, BoxOf(obj), player.inventory)
         == ActionOn(MenuActions(obj)[i], old(BoxOf(obj)), old(player.inventory), Shared(obj, player), input)
  {
    var action := MenuActions(obj)[i];
    MenuActionsShape(obj);
    assert action in MenuActions(obj);
    if action == ExamineAction {
      // The message is shown on the console; nothing changes.
      var _, _ := ExecuteActionable(obj, "examine", NoParams, input);
      return false, 0;
    }
    var r;
    r, k := ExecuteActionable(obj, "open", OpenParams(player), input);
    ended := r == InputEnded;
  }

  /**
   * Menu number `choices[k]` ran action `dispatched[k]`: number `c` is entry
   * `c - 1` of `actions`, and every number is on the menu.
   */
  predicate Dispatched(actions: seq<Action>, choices: seq<int>, dispatched: seq<Action>) {
    && |choices| == |dispatched|
    && forall k :: 0 <= k < |choices| ==> 1 <= choices[k] <= |actions| && dispatched[k] == actions[choices[k] - 1]
  }

  /** What one showing of the menu came to. */
  datatype Round = InputGone | EscAnswered | Ran(choice: int, action: Action, ended: bool)

  /** One showing of the menu on values: what it came to, lines read, the two stores after. */
  datatype RoundRun<T> = RoundRun(round: Round, used: nat, store: seq<T>, mine: seq<T>)

  /**
   * One pass of the `while open_box` loop on values: `get_choice(1,
   * len(actions))` picks an entry, which runs on the lines after the answer;
   * the close entry runs nothing here.
   */
  function RoundOn<T>(actions: seq<Action>, store: seq<T>, mine: seq<T>, shared: bool, input: seq<Line>): (r: RoundRun<T>)
    ensures r.used <= |input|
    ensures r.round == InputGone ==> r.used == |input|
    ensures r.round != InputGone ==> 0 < r.used
  {
    var a := Prompt(1, |actions|, input);
    if a.0.None? then RoundRun(InputGone, a.1, store, mine)
    else if a.0.value.Esc? then RoundRun(EscAnswered, a.1, store, mine)
    else
      var c := a.0.value.n;
      if actions[c - 1] == CloseAction then RoundRun(Ran(c, CloseAction, false), a.1, store, mine)
      else
        var s := ActionOn(actions[c - 1], store, mine, shared, input[a.1..]);
        RoundRun(Ran(c, actions[c - 1], s.ended), a.1 + s.used, s.store, s.mine)
  }

  /**
   * One pass of the `while open_box` loop: shows the menu, reads a number
   * in `[1, len(string_actions)]` or `"esc"`, and runs the picked entry
   * (`ended`: the input ran out inside it). Closing is left to the caller,
   * which owns the `open_box` flag.
   */
  method MenuRound<T>(obj: GameObject<Capability<T>>, player: Storageable<T>, input: seq<Line>)
    returns (round: Round, k: nat)
    requires WellWired(obj)
    modifies BoxFrame(obj, player)
    ensures |MenuLabels(obj)| == |MenuActions(obj)|
    ensures RoundRun(round, k, BoxOf(obj), player.inventory)
         == RoundOn(MenuActions(obj), old(BoxOf(obj)), old(player.inventory), Shared(obj, player), input)
  {
    var actions := MenuActions(obj);
    MenuActionsShape(obj);
    LabelsMatchActions(obj);
    var pick, n := GetChoice(1, |MenuLabels(obj)|, input);
    if pick.None? {
      return InputGone, n;
    }
    if pick.value.Esc? {
      return EscAnswered, n;
    }
    var c := pick.value.n;
    if actions[c - 1] == CloseAction {
      return Ran(c, CloseAction, false), n;
    }
    var ended, m := RunAction(obj, player, c - 1, input[n..]);
    return Ran(c, actions[c - 1], ended), n + m;
  }

  /** Why a session with the menu ended. */
  datatype BoxExit = Closed | Escaped | BoxInputEnded

  /** A whole session with the menu on values. */
  datatype BoxRun<T> = BoxRun(exit: BoxExit, choices: seq<int>, dispatched: seq<Action>, used: nat, store: seq<T>, mine: seq<T>)

  /** Earlier rounds in front of a session: their menu numbers, actions and lines come first. */
  function Prepend<T>(choices: seq<int>, dispatched: seq<Action>, used: nat, r: BoxRun<T>): BoxRun<T> {
    r.(choices := choices + r.choices, dispatched := dispatched + r.dispatched, used := used + r.used)
  }

  /** The round ran an entry other than close and the input did not run out: the menu is shown again. */
  predicate Continues(r: Round) {
    r.Ran? && !r.ended && r.action != CloseAction
  }

  /** Why a last round ends the session. */
  function ExitOf(r: Round): BoxExit {
    match r
    case InputGone => BoxInputEnded
    case EscAnswered => Escaped
    case Ran(_, _, ended) => if ended then BoxInputEnded else Closed
  }

  /** The menu number a round accepted, if it ran an entry. */
  function Picks(r: Round): seq<int> {
    if r.Ran? then [r.choice] else []
  }

  /** The action a round ran, if any. */
  function Runs(r: Round): seq<Action> {
    if r.Ran? then [r.action] else []
  }

  /**
   * `optionBox` on values: rounds follow one another on consecutive stretches
   * of the input until the close entry, `"esc"`, or the input running out
   * (at the prompt or inside `open`).
   */
  function BoxSession<T>(actions: seq<Action>, store: seq<T>, mine: seq<T>, shared: bool, input: seq<Line>): (b: BoxRun<T>)
    ensures b.used <= |input|
    decreases |input|
  {
    var r := RoundOn(actions, store, mine, shared, input);
    if Continues(r.round) then
      Prepend(Picks(r.round), Runs(r.round), r.used, BoxSession(actions, r.store, r.mine, shared, input[r.used..]))
    else BoxRun(ExitOf(r.round), Picks(r.round), Runs(r.round), r.used, r.store, r.mine)
  }

  /** The shape `optionBox` gives its menu: the close entry last and only last. */
  predicate MenuShaped(actions: seq<Action>) {
    && |actions| > 0 && actions[|actions| - 1] == CloseAction
    && forall i :: 0 <= i < |actions| - 1 ==> actions[i] != CloseAction
  }

  /**
   * How one round ends: `"esc"` is its last line; a number picks the entry it
   * names; the close entry is picked by the line naming the last entry and
   * runs nothing; running out of input inside `open` reads all of it.
   */
  lemma RoundOnShape<T>(actions: seq<Action>, store: seq<T>, mine: seq<T>, shared: bool, input: seq<Line>)
    requires MenuShaped(actions)
    ensures var r := RoundOn(actions, store, mine, shared, input);
      && (r.round == EscAnswered ==> input[r.used - 1] == EscLine)
      && (r.round.Ran? ==> 1 <= r.round.choice <= |actions| && r.round.action == actions[r.round.choice - 1])
      && (r.round.Ran? && r.round.action == CloseAction ==>
            !r.round.ended && r.round.choice == |actions| && input[r.used - 1] == NumberLine(|actions|))
      && (r.round.Ran? && r.round.ended ==> r.used == |input|)
  {
    var a := Prompt(1, |actions|, input);
    PromptAnswers(1, |actions|, input);
    if a.0.Some? && a.0.value.Picked? && actions[a.0.value.n - 1] != CloseAction {
      OpenOnCases(store, mine, shared, input[a.1..]);
    }
  }

  /**
   * How a session `b` on `input` ended: every number picked an entry of the
   * menu; it ended closed exactly when the last entry run is the close
   * entry, which no earlier round picked, on the line naming that last
   * entry; `"esc"` is the last line read; running out of input reads all of
   * it.
   */
  predicate EndedWell<T>(actions: seq<Action>, input: seq<Line>, b: BoxRun<T>) {
    && b.used <= |input|
    && Dispatched(actions, b.choices, b.dispatched)
    && (b.exit == Closed <==> |b.dispatched| > 0 && b.dispatched[|b.dispatched| - 1] == CloseAction)
    && (forall k :: 0 <= k < |b.dispatched| - 1 ==> b.dispatched[k] != CloseAction)
    && (b.exit == Closed ==> b.used > 0 && input[b.used - 1] == NumberLine(|actions|))
    && (b.exit == Escaped ==> b.used > 0 && input[b.used - 1] == EscLine)
    && (b.exit == BoxInputEnded ==> b.used == |input|)
  }

  /** Every session on a menu of `optionBox`'s shape ends well. */
  lemma {:induction false} BoxSessionShape<T>(actions: seq<Action>, store: seq<T>, mine: seq<T>, shared: bool, input: seq<Line>)
    requires MenuShaped(actions)
    ensures EndedWell(actions, input, BoxSession(actions, store, mine, shared, input))
    decreases |input|
  {
    var r := RoundOn(actions, store, mine, shared, input);
    if Continues(r.round) {
      var rest := input[r.used..];
      BoxSessionShape(actions, r.store, r.mine, shared, rest);
      var b := BoxSession(actions, r.store, r.mine, shared, rest);
      assert BoxSession(actions, store, mine, shared, input) == Prepend([r.round.choice], [r.round.action], r.used, b);
      PrependEndsWell(actions, r.round.choice, r.round.action, input, r.used, rest, b);
    } else {
      LastRoundEndsWell(actions, store, mine, shared, input);
    }
  }

  /** A round after which the menu is not shown again ends the session well. */
  lemma LastRoundEndsWell<T>(actions: seq<Action>, store: seq<T>, mine: seq<T>, shared: bool, input: seq<Line>)
    requires MenuShaped(actions)
    requires !Continues(RoundOn(actions, store, mine, shared, input).round)
    ensures var r := RoundOn(actions, store, mine, shared, input);
      EndedWell(actions, input, BoxRun(ExitOf(r.round), Picks(r.round), Runs(r.round), r.used, r.store, r.mine))
  {
    RoundOnShape(actions, store, mine, shared, input);
  }

  /** A round that ran an entry other than close, in front of a session that ended well. */
  lemma PrependEndsWell<T>(actions: seq<Action>, c: int, act: Action, input: seq<Line>, k: nat, rest: seq<Line>, b: BoxRun<T>)
    requires 1 <= c <= |actions| && act == actions[c - 1] && act != CloseAction
    requires k <= |input| && rest == input[k..] && EndedWell(actions, rest, b)
    ensures EndedWell(actions, input, Prepend([c], [act], k, b))
  {
    DispatchedCons(actions, c, act, b.choices, b.dispatched);
    if b.exit != BoxInputEnded {
      assert input[k + b.used - 1] == rest[b.used - 1];
    }
  }

  /**
   * A round that ran an entry other than close, in front of a recorded
   * session: the record stays well formed and its last entry is the
   * session's.
   */
  lemma DispatchedCons(actions: seq<Action>, c: int, act: Action, choices: seq<int>, dispatched: seq<Action>)
    requires 1 <= c <= |actions| && act == actions[c - 1] && act != CloseAction
    requires Dispatched(actions, choices, dispatched)
    requires forall k :: 0 <= k < |dispatched| - 1 ==> dispatched[k] != CloseAction
    ensures Dispatched(actions, [c] + choices, [act] + dispatched)
    ensures forall k :: 0 <= k < |[act] + dispatched| - 1 ==> ([act] + dispatched)[k] != CloseAction
    ensures (|dispatched| > 0 && dispatched[|dispatched| - 1] == CloseAction)
        <==> ([act] + dispatched)[|[act] + dispatched| - 1] == CloseAction
  {
    var cs, ds := [c] + choices, [act] + dispatched;
    assert forall k :: 1 <= k < |cs| ==> cs[k] == choices[k - 1] && ds[k] == dispatched[k - 1];
  }

  /**
   * A session conserves items: with two stores, the items of both together
   * are the same multiset and the player's store only grows at its end; with
   * one shared store, its items are the same multiset.
   */
  lemma {:induction false} BoxSessionConserves<T>(actions: seq<Action>, store: seq<T>, mine: seq<T>, shared: bool, input: seq<Line>)
    requires shared ==> store == mine
    ensures var b := BoxSession(actions, store, mine, shared, input);
      && (!shared ==> multiset(b.store) + multiset(b.mine) == multiset(store) + multiset(mine) && mine <= b.mine)
      && (shared ==> b.store == b.mine && multiset(b.mine) == multiset(mine))
    decreases |input|
  {
    var r := RoundOn(actions, store, mine, shared, input);
    var a := Prompt(1, |actions|, input);
    if r.round.Ran? && r.round.action != CloseAction {
      OpenOnConserves(store, mine, shared, input[a.1..]);
      if Continues(r.round) {
        BoxSessionConserves(actions, r.store, r.mine, shared, input[r.used..]);
      }
    }
  }

  /**
   * `optionBox(gameObject, player)`: shows the menu and runs the picked
   * entry until the close entry or `"esc"`. `choices` are the accepted menu
   * numbers and `dispatched` the actions they ran: number `c` runs action
   * `c - 1`. `used` counts the console lines read, by the menu and by
   * `open` together.
   */
  method OptionBox<T>(obj: GameObject<Capability<T>>, player: Storageable<T>, input: seq<Line>)
    returns (exit: BoxExit, choices: seq<int>, dispatched: seq<Action>, used: nat)
    requires WellWired(obj)
    modifies BoxFrame(obj, player)
    ensures BoxRun(exit, choices, dispatched, used, BoxOf(obj), player.inventory)
         == BoxSession(MenuActions(obj), old(BoxOf(obj)), old(player.inventory), Shared(obj, player), input)
  {
    var actions := MenuActions(obj);
    ghost var shared := Shared(obj, player);
    ghost var whole := BoxSession(actions, BoxOf(obj), player.inventory, shared, input);
    ghost var pending, st, mi := whole, BoxOf(obj), player.inventory;
    choices, dispatched, used := [], [], 0;
    exit := Closed;
    var openBox := true;
    var rest := input;
    while openBox
      invariant used <= |input| && rest == input[used..]
      invariant st == BoxOf(obj) && mi == player.inventory
      invariant openBox ==> exit == Closed
      invariant openBox ==> pending == BoxSession(actions, st, mi, shared, rest)
      invariant openBox ==> whole == Prepend(choices, dispatched, used, pending)
      invariant !openBox ==> whole == BoxRun(exit, choices, dispatched, used, st, mi)
      decreases |rest|, openBox
    {
      ghost var rr := RoundOn(actions, st, mi, shared, rest);
      var round, k := MenuRound(obj, player, rest);
      assert RoundRun(round, k, BoxOf(obj), player.inventory) == rr;
      BoxSessionStep(actions, st, mi, shared, rest, round, k, rr.store, rr.mine, rest[k..]);
      if Continues(round) {
        ghost var after := BoxSession(actions, rr.store, rr.mine, shared, rest[k..]);
        PrependTwice(choices, dispatched, used, [round.choice], [round.action], k, after);
        choices, dispatched := choices + [round.choice], dispatched + [round.action];
        pending := after;
      } else {
        // `"esc"` breaks out of the loop, the close entry clears `open_box`,
        // and running out of input ends the session.
        choices, dispatched := choices + Picks(round), dispatched + Runs(round);
        exit, openBox := ExitOf(round), false;
      }
      used, rest := used + k, rest[k..];
      st, mi := rr.store, rr.mine;
    }
  }

  /** One round of a session, unfolded: a round that continues is followed by the session on the rest of the input. */
  lemma BoxSessionStep<T>(actions: seq<Action>, store: seq<T>, mine: seq<T>, shared: bool, input: seq<Line>,
                          round: Round, k: nat, store': seq<T>, mine': seq<T>, rest: seq<Line>)
    requires RoundRun(round, k, store', mine') == RoundOn(actions, store, mine, shared, input)
    requires rest == input[k..]
    ensures Continues(round) ==>
              BoxSession(actions, store, mine, shared, input)
              == Prepend([round.choice], [round.action], k, BoxSession(actions, store', mine', shared, rest))
    ensures !Continues(round) ==>
              BoxSession(actions, store, mine, shared, input) == BoxRun(ExitOf(round), Picks(round), Runs(round), k, store', mine')
  {
  }

  /** Prepending twice is prepending the joined records. */
  lemma PrependTwice<T>(c1: seq<int>, d1: seq<Action>, u1: nat, c2: seq<int>, d2: seq<Action>, u2: nat, r: BoxRun<T>)
    ensures Prepend(c1, d1, u1, Prepend(c2, d2, u2, r)) == Prepend(c1 + c2, d1 + d2, u1 + u2, r)
  {
    assert c1 + (c2 + r.choices) == (c1 + c2) + r.choices;
    assert d1 + (d2 + r.dispatched) == (d1 + d2) + r.dispatched;
  }
}
