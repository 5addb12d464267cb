# OnlySon, modelled in Dafny

OnlySon is a small text adventure. A main menu creates or logs in a player
by name. A scene sequencer then runs the scenes. The one scene, "Courtyard
South", shows its description and asks which stored item to approach. The
approached item's option box lists what can be done with it: examine it,
open it and take one of the items inside into the player's inventory, or
close the box. Every prompt reads a number in range or `esc` and asks
again on anything else. Besides the game itself, the repository holds:

- a player progression class that gains experience, levels up and
  rewrites the player's line in `players.txt`;
- a pygame "paper" window whose key handler edits a typed line and
  commits it to the shown text.

The modules follow the program:

- `Builtins`: the Python string operations the program relies on (`join`,
  `split`, `in`, `str(int)`, `int(str)`, `strip`, `lower`).
- `GameObjects`: `GameObject` (api/core/game_object.py; main.py's copy has no name, which is `""` here).
- `Console`: `format_list` and `get_choice`.
- `Actionables`: `Storageable`, `Openable`, `Examinable`, `Signaler`, and
  running a capability by name.
- `Menus`: `optionBox`.
- `CorePlayer`: the player of api/core/player.py and main.py.
- `Game`: the world objects and `CourtyardSouth`.
- `MainLoop`: `MainMenu`, `Scene`, `ScenePlayer`.
- `Progression`: api/player.py.
- `Materials`: api/Materials.py.

main.py holds its own copies of the helpers and the actionables. They are
the same code as api/helpers.py and api/actionables.py, with two
exceptions. main.py's `Examinable.exec` prints the message where the api
copy returns it; the model returns it. The api copy of `optionBox`
calls `gameObject.core(...)` at api/helpers.py:116-118 where main.py reads
`gameObject.core.has_actionable`; the model follows main.py.

The console is a finite sequence of input lines. Classifying a line as
`get_choice` sees it (`esc`, a number, or anything else) is the function
`Console.Classify`. The main loop reads each line once into an `Entry`
that records what the main menu, the name prompt and `get_choice` make of
it. Running out of lines is Python's `EOFError`. The model carries that
upwards as an explicit "input ended" outcome, so that every loop
terminates.

Ownership of items is a central invariant. `Openable.exec` is the only
place where items change hands: it pops one item from the object's store
and appends it to the player's. Each loop above it is specified by a
function on values: `BoxSession` for `optionBox`, `VisitOn` for a scene's
`run`, `GameOn` for `Scene.play`, and `TurnOn` and `TopOn` for
`ScenePlayer.play`. The methods are proved to do what these functions
say. Lemmas prove that each function conserves the multiset of items
across the stores it touches: `OpenOnConserves`, `BoxSessionConserves`,
`VisitConserves`, `PlayConserves`, `TurnConserves` and `TopConserves`.
For `ScenePlayer.play`, the count includes the stores of every player the
run created. Every scene's own store is proved untouched.

## Model

| member | source | states |
|---|---|---|
| GameObjects.NewGameObject | api/core/game_object.py:15-18 | the object keeps the id and name given; no dictionary or an empty one gives an object without capabilities, any other dictionary is kept as is |
| GameObjects.GameObject.GetActionable | api/core/game_object.py:39-48 | a name that is present gives its own capability, and only a present name gives anything; a missing name gives `None` |
| GameObjects.HasIffGet | api/core/game_object.py:39-60 | `has_actionable(n)` holds exactly when `get_actionable(n)` finds something, and then it finds the dictionary's entry |
| Console.FormatList | main.py:4-9 | the empty list formats as the empty string; a single item formats as itself |
| Console.FormatListSnoc | main.py:4-9 | one more item at the end adds `", "` and that item to the text |
| Console.FormatListRoundTrip | main.py:4-9 | splitting the formatted text at the separators gives back the items, when none contains a comma |
| Console.SplitList | main.py:4-9 | the inverse of `format_list` used by the round trip: splitting any text gives at least one piece |
| Console.FormatListEmptyAmbiguous | main.py:4-9 | the empty list and a list holding one empty string format alike, so the comma-free condition of the round trip is not enough on its own: the list must also be non-empty |
| Console.Classify | main.py:20-29 | after `strip().lower()`, `esc` and only `esc` is the escape line; a line is a number exactly when it is not `esc` and `int()` accepts it, and then it is that integer; every other line is invalid |
| Console.ClassifyDecimal | main.py:20-26 | typing `str(n)` at a prompt reads back as the number `n` |
| Console.EscAlwaysAccepted | main.py:20-22 | `esc` in any case and with surrounding white space is accepted whatever the range, and ends the prompt after one line |
| Console.Prompt | main.py:12-29 | the prompt reads no more lines than there are; no answer means every line was read; an answer was read from at least one line; a number answered is in range |
| Console.PromptAnswers | main.py:17-29 | the answer is the first acceptable line (`esc` or a number in range) and every earlier line is rejected; there is no answer exactly when no line is acceptable |
| Console.GetChoice | main.py:12-29 | the prompt loop answers what `Prompt` specifies and reads as many lines as it says |
| Actionables.Storageable.constructor | main.py:53-57 | no inventory gives an empty one; a given list is kept |
| Actionables.Storageable.SetInventory | main.py:59-63 | after `set_inventory(x)`, `get_inventory()` gives `x` |
| Actionables.Removed | main.py:84 | `pop(i)` removes exactly the element at `i`; the others keep their order |
| Actionables.RemovedConserves | main.py:84 | the rest and the popped element together are the original multiset |
| Actionables.TransferConserves | main.py:84-91 | moving an item from one store to the end of another conserves the two stores' joint multiset and moves exactly one item |
| Actionables.MoveToEndConserves | main.py:84-91 | when the player's store is the object's own store, the item only moves to the end |
| Actionables.OpenOn | main.py:74-95 | `exec` on values reads no more lines than there are |
| Actionables.OpenOnCases | main.py:77-95 | an empty store reads no line and takes nothing; otherwise exactly the lines of one prompt are read; the input ends exactly when that prompt finds no answer, and then all lines were read; an item is taken exactly when a number is answered, and it is the item that number names; anything but a take leaves both stores as they were; `exec` never answers a message |
| Actionables.OpenOnConserves | main.py:84-91 | with two stores, their joint multiset is kept and the player's store only grows at its end; with one shared store, its multiset is kept |
| Actionables.OpenAsWrittenAgrees | main.py:79-95 | as written, `exec` raises exactly when the store is not empty and the answer is `esc`; on every other input it does what `OpenOn` does |
| Actionables.EscCrashesAsWritten | main.py:82-83 | one stored item and the answer `esc`: as written `exec` raises; `OpenOn` reads that one line and takes nothing |
| Actionables.Openable.constructor | main.py:71-72 | the takeable items go into a new store of the openable |
| Actionables.Openable.Exec | main.py:74-95 | the result and new contents of both stores, by case: an empty store reads nothing and takes nothing; `esc` or the end of input takes nothing; a number `p` in range pops item `p` into the player's store and returns it; two distinct stores conserve their joint multiset, and a shared store keeps its own |
| Actionables.Examinable.constructor | main.py:103-104 | the message is the one given |
| Actionables.Examinable.SetMessage | main.py:106-110 | `exec()` afterwards gives the new message |
| Actionables.Examinable.Exec | api/actionables.py:63-64 | `exec()` gives the message last given to the constructor or `set_message` |
| Actionables.Signaler.constructor | main.py:118-119 | the signal starts as given, off by default |
| Actionables.Signaler.SetSignaler | main.py:121-125 | `get_signal()` afterwards gives the value set |
| Actionables.Signaler.SetNext | main.py:128-134 | the `next` setter and getter and `get_signal` are the same bit |
| Actionables.ExecuteActionable | main.py:159-172 | a missing name gives `None`, reads nothing and changes nothing; `examine` gives the message and changes nothing; `open` behaves as `Openable.exec` with the player given |
| Menus.MenuUnfolded | main.py:262-278 | the menu lists an examine entry if the object can be examined, an open entry if it can be opened, then the close entry, with labels and actions in step |
| Menus.MenuActionsShape | main.py:262-278 | there is an examine entry exactly when the object can be examined and an open entry exactly when it can be opened; examine comes first; the close entry is last and only last |
| Menus.LabelsMatchActions | main.py:262-278 | there are as many menu labels as actions, and label `i` names action `i` on the object's id |
| Menus.FullMenu | main.py:262-278 | an examinable, openable object shows `EXAMINE <id>`, `OPEN <id>`, `CLOSE OPTION BOX` |
| Menus.EmptyMenu | main.py:262-278 | an object without capabilities shows only `CLOSE OPTION BOX` |
| Menus.ActionOn | main.py:264-271 | an entry other than close, run on values, reads no more lines than there are |
| Menus.RunAction | main.py:264-271 | running entry `i`, which is not close, does to the object's store and the player's what `ActionOn` says, and reads the lines it says |
| Menus.RoundOn | main.py:280-285 | one showing reads no more lines than there are; when the input runs out it has read all of them; otherwise it read at least one |
| Menus.RoundOnShape | main.py:280-285 | `esc` is the last line a round reads; a number `c` picks entry `c` and runs action `c - 1`; the close entry is picked by the line naming the last entry, and the input does not run out in it; running out of input inside `open` reads all lines |
| Menus.MenuRound | main.py:280-285 | one showing of the menu does what `RoundOn` says to both stores and reads the lines it says; there are as many labels as actions |
| Menus.BoxSession | main.py:257-285 | a whole session with the menu reads no more lines than there are |
| Menus.BoxSessionStep | main.py:280-285 | a round after which the menu is shown again is followed by the session on the rest of the input; a round after which it is not is the whole session |
| Menus.BoxSessionShape | main.py:280-285 | on a menu of `optionBox`'s shape, number `c` runs action `c - 1` for every answer; the session ends closed exactly when the last action run is close, and no earlier action is close; `esc` is the last line read; running out of input reads every line |
| Menus.BoxSessionConserves | main.py:264-285 | a session conserves items: with two stores their joint multiset is kept and the player's store only grows at its end; with one shared store its multiset is kept |
| Menus.OptionBox | main.py:257-285 | how the box ended, the menu numbers accepted, the actions run, the lines read and both stores afterwards are those of `BoxSession` on the menu `optionBox` builds |
| CorePlayer.Player.constructor | api/core/player.py:2-12 | the core has the id and name given and the one capability `examine` with the player message; the store is new and holds the initial items, or nothing |
| CorePlayer.Player.SetInventory | api/core/player.py:17-21 | `get_inventory()` afterwards gives the list set |
| CorePlayer.Player.ToString | api/core/player.py:23-24 | `str(player)` is `Player(`, the id and `)`, and the id can be read back from it |
| CorePlayer.ToStringInjective | api/core/player.py:23-24 | players with different ids print differently |
| Game.NewNote | main.py:220-231 | the note's id and `str()` are "A Weary Note"; it can only be examined, with its message |
| Game.NewStatue | main.py:234-240 | the statue's id is "A Statue" and its `str()` is "A Bed"; it can only be examined |
| Game.NewDeadTree | main.py:243-254 | the tree can be examined and opened; its new store holds one note |
| Game.ApproachLabels | main.py:322-326 | the scene menu has one entry per stored item |
| Game.ApproachLabelsAt | main.py:322-326 | entry `i` of the scene menu is `APPROACH` and the id of item `i` |
| Game.VisitOn | main.py:339-349 | a visit reads no more lines than there are and keeps one store per item; a code it answers is `0`, after reading a line |
| Game.VisitOnShape | main.py:339-349 | the input running out at the approach prompt reads every line and changes no store; `esc` answers `None` and changes no store; a number `n` runs item `n - 1`'s option box, only that item's store changes, and the visit runs out of input exactly when that box did and otherwise answers `0` |
| Game.VisitOnPicked | main.py:344-349 | approaching item `i` runs its option box on the lines after the answer, into the player's store; item `i`'s store becomes the box's result |
| Game.VisitOnUnpicked | main.py:340-343 | `esc` or the end of input at the approach prompt reads that prompt's lines and changes no store |
| Game.VisitConserves | main.py:339-349 | a visit conserves items: the item stores and the player's store together hold the same multiset, and the player's store only grows at its end |
| Game.CourtyardSouth.constructor | main.py:289-308 | the signal is off, the scene has not been introduced, the description is the introduction text, and the store holds the statue and then the dead tree; the scene's invariant holds |
| Game.CourtyardSouth.Run | main.py:313-349 | without a player: `-1`, nothing shown and nothing changed; with one, the description is shown (the introduction on the first visit, the revisit text ever after) and the visit does to the item stores and the player's what `VisitOn` says; the signal is set after an answer `0` and otherwise kept; the scene's own store never changes and its invariant is kept |
| Game.CourtyardSouth.Introduce | main.py:328-337 | the first visit shows the current message; later visits first replace it by the revisit text; the scene is introduced afterwards |
| Game.CourtyardSouth.Visit | main.py:339-349 | the approach prompt and the option box do what `VisitOn` says, to the item stores and the player's; the signal is set after an answer `0` and otherwise kept; the scene's own store and message are kept |
| Game.CourtyardSouth.OpenItem | main.py:344-348 | item `i`'s option box does to that item's store and the player's what `BoxSession` says, and no other store changes; the signal is set unless the input ran out |
| MainLoop.KeyOf | main.py:362-379 | after `strip().lower()`, `1`, `2` and `3` select new user, login and quit, and only those lines do |
| MainLoop.Read | main.py:384 | an entry records the stripped line the name prompt reads and what `get_choice` makes of the line |
| MainLoop.NameEntry | main.py:383-390 | the name read is the first non-blank stripped line; no name when the input runs out |
| MainLoop.NameEntryBlanks | main.py:383-401 | every line the name loop skips is blank, and it finds no name exactly when every line is blank |
| MainLoop.MenuSession | main.py:357-379 | a started game reads the choice and at least one name line, a quit reads at least one line, and neither reads more lines than there are |
| MainLoop.MenuSessionShape | main.py:357-379 | a started game has a non-blank name; any session reads at least one line; a quit is its last line, and no earlier line selected anything |
| MainLoop.EscAtMainMenu | main.py:376-377 | `esc` at the main menu only shows the menu again: the session goes on with the next line |
| MainLoop.LoginLikeNewUser | main.py:363-372 | "Login" starts a game exactly when "New user" would, with the same name and lines read |
| MainLoop.MainMenu.constructor | main.py:353-355 | signal off, no player |
| MainLoop.MainMenu.Run | main.py:357-379 | the loop ends as `MenuSession` says; a start makes a new player with the name read and an empty store, and sets the signal; a quit clears the signal; the end of input changes neither |
| MainLoop.ReadName | main.py:381-401 | the name loop gives the name and line count of `NameEntry`, and no name exactly when `NameEntry` has none |
| MainLoop.OutsideFootprint | main.py:415 | running place `i` touches no place's own store, and of the places' item stores only its own |
| MainLoop.PlaceOn | main.py:313-349 | one place's `run` on values reads no more lines than there are and keeps one store per item; a non-negative answer is `0` and comes after reading a line |
| MainLoop.RunPlace | main.py:415 | one place's `run` keeps the world valid and does to place `i`'s item stores and the user's store what `PlaceOn` says; no other place's store changes |
| MainLoop.PlayOn | main.py:414-421 | the loop, once it runs a place, gives at least one answer and reads no more lines than there are |
| MainLoop.PlayFrom | main.py:414 | no place runs exactly when the sequencer is stopped or past the last place |
| MainLoop.GameOn | main.py:413-421 | `play(user)` answers nothing exactly when the sequencer is stopped or past the last place |
| MainLoop.PlayOnStep | main.py:414-421 | after place `at` answers, play goes on at the index answered when that is a place and otherwise stops, leaving `running` set only when the input ran out |
| MainLoop.PlayFromStep | main.py:414-421 | the same step with the answers and lines of earlier passes in front |
| MainLoop.PlaceOnEnded | main.py:415 | a place's run that ends with the input has read all of it |
| MainLoop.PlayOnEnds | main.py:414-421 | every answer but the last moves on to a place; the last stops the sequencer or is the end of input, which alone leaves `running` set and then reads every line; the placement is left at a place |
| MainLoop.GameOnEnds | main.py:413-421 | after `play(user)` the sequencer is still running at a place exactly when its last answer was the end of input |
| MainLoop.PlayOnAnswers | main.py:339-349 | with a user, every answer but the last is `0`, so after the first run play stays at place `0`; the last answer is `None` or the end of input |
| MainLoop.PlayOnWithoutUser | main.py:314-320 | without a user, `play`'s only answer is `-1`, which stops the sequencer and changes nothing |
| MainLoop.PlayConserves | main.py:413-421 | `play` conserves items: the places' item stores and the user's store together hold the same multiset, and the user's store only grows at its end |
| MainLoop.Scene.constructor | main.py:405-411 | at place `0`, running |
| MainLoop.Scene.Play | main.py:413-421 | the answers, the lines read, every store, the user's store, the new placement and `running` are those of `GameOn`; the input ran out exactly when the last answer says so; the world stays valid |
| MainLoop.Sequence | main.py:414-421 | the loop with `running` and the placement in locals does what `GameOn` says; it ends with the input exactly when it is still running at a place |
| MainLoop.TurnOn | main.py:438-443 | a turn's session is `MenuSession` of its lines; a start reads the menu's lines before the game's; a turn that does not run out of input started a game or quit |
| MainLoop.TurnOnCases | main.py:438-443 | a quit, or the input running out at the menu, leaves the sequencer and every store as they were; a start runs `play` with a new, empty-handed player on the lines after the menu's, and the turn runs out of input exactly when that game leaves the sequencer running at a place |
| MainLoop.TurnOnEnded | main.py:438-443 | a turn that runs out of input has read all of it |
| MainLoop.TopOn | main.py:437-443 | the loop from line `from` reads within the input from there on, with one start line and one game per session |
| MainLoop.TopFrom | main.py:438 | the rest of the loop, about to test `running`, reads within the input from its line on, with one start line and one game per session |
| MainLoop.TopFromStep | main.py:438-443 | the loop from a turn on is that turn, then the loop after it on the following lines and in the state it left |
| MainLoop.TopOnTranscript | main.py:437-443 | turn `j` is `TurnOn` on the lines from `starts[j]`, in the state turn `j - 1` left; turn `j + 1` starts where turn `j` stopped reading, and only after a started game that did not run out of input; the last turn is a quit or the end of input; the final state is the one the last game left; running out of input reads every line |
| MainLoop.TurnConserves | main.py:438-443 | a turn conserves items: the places' stores and the new player's store hold what the places held, the new player starting with nothing |
| MainLoop.TopConserves | main.py:437-443 | what the places' stores hold at the end, together with what every player of the run took, is what the places held at the start |
| MainLoop.TurnStep | main.py:438-443 | a turn as `ScenePlayer.Turn` reports it carries the rest of the loop on to the next line and state |
| MainLoop.ScenePlayer.constructor | main.py:425-429 | keeps the menu and the sequencer given and is running |
| MainLoop.ScenePlayer.PlayMainMenu | main.py:431-432 | one session as `MenuSession` says; a start makes a fresh player with the name read and an empty store that is none of the places' stores, and sets the signal; a quit clears it; the sequencer and every store are unchanged |
| MainLoop.ScenePlayer.PlayGame | main.py:434-435 | the sequencer with the menu's player does what `GameOn` says; the input ran out exactly when the last answer says so, which is exactly when the sequencer is still running at a place; the menu's player is kept |
| MainLoop.ScenePlayer.Stop | main.py:443 | `running` is cleared and every store is kept |
| MainLoop.ScenePlayer.Turn | main.py:438-443 | one pass does what `TurnOn` says: the session, the game's answers, the lines read, every store, the placement and the sequencer's `running`; a started game belongs to the player with the name read; `running` is cleared exactly by a quit |
| MainLoop.ScenePlayer.Step | main.py:438-443 | a pass of the loop keeps the invariant that the turns so far, followed by the rest of the loop from the current line and state, are the whole run; a pass that does not end play reads a line |
| MainLoop.ScenePlayer.TracksDone | main.py:438 | when the loop stops, the turns taken and the state they left are the whole run |
| MainLoop.ScenePlayer.Play | main.py:437-443 | the sessions, the line each began at, what each game answered, the lines read, every store, the placement and the sequencer's `running` are those of `TopFrom` from line `0`; `running` is cleared by the first session that quits |
| Progression.PlayersFile.constructor | api/player.py:51-54 | the file holds the lines given |
| Progression.RecordLine | api/player.py:57-66 | the saved line starts with the player's name and a space and ends with a newline |
| Progression.RecordRoundTrip | api/player.py:57-66 | a saved line reads back as the record it was written from, when name, password and type name contain no spaces or newlines |
| Progression.RewriteLines | api/player.py:50-67 | the rewrite keeps the number of lines |
| Progression.RewriteLinesAt | api/player.py:55-67 | after the rewrite, the player's own lines are its new record and every other line stays, in order |
| Progression.RewriteLinesLastWins | api/player.py:50-67 | saving twice is saving once with the later record, when the earlier record is itself a line of the player |
| Progression.RewriteLinesAsWritten | api/player.py:55-67 | as written, the rewrite keeps the number of lines, and each line either stays or becomes the new record |
| Progression.RewriteLinesAsWrittenAt | api/player.py:56 | as written, every line in which the name occurs anywhere is replaced |
| Progression.SubstringMatchClobbers | api/player.py:56 | player `player` saving over the line of `player1` replaces it as written; the corrected rewrite keeps it |
| Progression.SaveExample | tests/test_player.py:53-80 | saving `test_player` over the test's two lines rewrites only its own line |
| Progression.Threshold | api/player.py:47-48 | the experience that ends a level is that level in hundreds |
| Progression.Levelled | api/player.py:19-23 | a level the loop reaches is at or above the start, and its threshold exceeds the experience |
| Progression.LevelledSpec | api/player.py:19-23 | the level loop aborts exactly when it starts at level `0` or below with non-negative experience; otherwise it reaches the lowest level, at or above the start, whose threshold exceeds the experience |
| Progression.LevelUpExample | tests/test_player.py:21-39 | 500 experience take a new player from level 1 to level 6; 20 keep it at level 1 |
| Progression.CharacterType.constructor | tests/test_charactertype.py:5-11 | the name and the three stats are the ones given |
| Progression.Player.constructor | api/player.py:4-11 | no experience, level 1, an empty inventory, and the password and character type given |
| Progression.Player.SaveToFile | api/player.py:50-67 | the file's lines become the rewrite of the old lines with the player's current record |
| Progression.Player.LevelUp | api/player.py:28-40 | at level `0` it aborts with nothing changed; otherwise the level rises by one and the file is saved |
| Progression.Player.LevelUpWhile | api/player.py:22-23 | the loop ends at the level `Levelled` gives, or aborts at level `0` exactly when `Levelled` has no level; the file is saved whenever the level changed |
| Progression.Player.GainXp | api/player.py:19-26 | the new level is the one `Levelled` gives for the new total, the total is stored and the file is saved; an abort leaves level `0` and the old experience, and the file holds the last level saved |
| Progression.Player.UpdatePlayerStats | api/player.py:42-45 | the three combat stats become exactly the values given |
| Materials.Paper.constructor | api/Materials.py:6-12 | the window settings given, empty text, a zero line count, not running |
| Materials.Paper.Init | api/Materials.py:14-19 | the paper is running; the text is unchanged |
| Materials.Paper.Print | api/Materials.py:34-38 | `get_buffer()` afterwards gives the text printed; nothing else changes |
| Materials.Step | api/Materials.py:53-62 | Return commits the typed line and a newline to the shown text and clears the line; every other event keeps the shown text; Backspace drops the last typed character, if any; any other key appends its text |
| Materials.Paper.HandleKey | api/Materials.py:53-62 | Return commits the typed line and a newline to the shown text and clears it; Backspace drops the last typed character, if any; any other key appends its text |
| Materials.Paper.Read | api/Materials.py:46-62 | the text is the replay of the events handled; handling stops at the first quit event, which stops the paper; the paper is still running exactly when no quit event came |
| Materials.ReplayAppend | api/Materials.py:46-62 | replaying two runs of events one after the other is replaying them together |
| Materials.OnlyReturnCommits | api/Materials.py:53-62 | without a Return key the shown text stays as it was |
| Materials.BufferGrows | api/Materials.py:53-62 | committed text is never taken back: the old shown text stays a prefix of the new |
| Materials.BackspaceUndoesChar | api/Materials.py:58-62 | Backspace after typing one character restores the text |
| Materials.TypingExample | api/Materials.py:53-62 | typing `a`, `b`, Backspace, `c` and Return on a new paper shows `ac` and a newline |

## Left out

- Console output is not modelled: the `print` calls, `stringformatter` and the menus' messages. The one exception is the scene description that `CourtyardSouth.run` shows, which is the `shown` result of `Run`.
- `clicksimulator` is `get_choice` with another message, so `GetChoice` stands for both.
- Interrupting with Ctrl-C (main.py:450-453) is left out.
- Console input is a finite list of lines. An `EOFError` at the end of it, which would crash the program, is an explicit "input ended" result.
- The main-menu prompt appears as a classified entry (`MainLoop.Read`), and `get_choice` sees already-classified lines. `Classify` ties them to the raw text.
- Actionables.Openable.Exec: the `obj_name` argument only reaches the "Inside ..." message and is not a parameter.
- Actionables.Openable.Exec: the player is represented by its store, the only part of it that `exec` uses (`get_inventory`, `set_inventory`).
- Actionables.Openable.Exec: `esc` at the take prompt takes nothing; see Findings for what the code does instead.
- Python's aliasing of the list returned by `get_inventory` is not modelled. Each `set_inventory` sets the lists explicitly, which gives the same final contents.
- The `optionBox` of api/helpers.py calls `gameObject.core` on the object itself at lines 116-118, where main.py's copy reads `gameObject.core.has_actionable` throughout. The model follows main.py, whose scene calls it.
- The player of api/core/player.py passes two arguments to the one-argument `Examinable` at line 10, which would raise `TypeError`. The model builds it with the message alone, as main.py:202 does.
- That player's `io` argument only reaches output and is not a parameter.
- MainLoop.Scene.Play: `play` moves to the index that `run` returns; it does not advance one scene per completed visit. Every scene returns `0`, so after the first run play stays at place `0` until a `None`, a `-1` or the end of input.
- MainLoop.Scene.Play: `running` is never set back to true, so a later `play_game` runs nothing. That is proved as written.
- Reading and writing `players.txt` are left out. The file is an object holding the list that `readlines()` gives, and `save_to_file` replaces it. A missing file (`FileNotFoundError`) is not modelled.
- Progression.Player.LevelUp: `sys.exit(1)` at api/player.py:33 (with `sys` not imported there) is modelled as an abort that returns `ok == false` and changes nothing more. The program would stop there.
- The `WorldObject` class of api/player.py is not part of this model. Its `ign` and its `xp`, `level` and `inventory` attributes are fields of the player.
- The `CharacterType` class is not part of the sources here. It is modelled from its test as a name and three mutable stats.
- Progression.Player.LevelUp: the "Level Up!" message is left out.
- The XML parsing of api/helpers.py:5-56, api/core/IO.py and api/WritingAs.py are outside the modelled core.
- The pygame window (`refresh`, `draw_text`, fonts, the frame clock) is left out. The events it would deliver are a finite sequence given to `Read`.
- `Read` requires a running paper: before `init()` the attribute `running` does not exist and Python raises `AttributeError`.
- At a quit event the source calls `pygame.quit()` and `sys.exit()`. The model stops the paper.
- Integers are unbounded, as Python's are.
- The places are assumed to be built as `CourtyardSouth` builds them: the item stores are distinct objects, none of them is the player's store, and no two places share one. The world's validity (`WorldValid`) states this and every operation keeps it, but nothing in the source checks it.
- A player made at the main menu is dropped when the next session makes a new one, and so are the items it took. `TopConserves` counts them through the finished games rather than through a store that still exists.
- `lower()` is ASCII case folding: other letters keep their case. `strip()` removes the characters Python's `isspace()` accepts, Unicode white space included.
- `int()` accepts an optional sign and ASCII digits. Python also accepts `_` separators and other Unicode digits; the model does not.

## Findings

| source | as written | input that shows it | evidently intended | confidence | as-written member | corrected member |
|---|---|---|---|---|---|---|
| main.py:82-83 (also api/actionables.py:36-37) | `get_choice` may return the string `"esc"`, and `1 <= pick <= len(inventory)` then compares a string with an integer, which raises `TypeError` | open the dead tree and answer `esc` at "What would you like to take?" | `esc` takes nothing and returns `None`, as at every other prompt | not executed | Actionables.OpenAsWrittenAgrees, Actionables.EscCrashesAsWritten | Actionables.Openable.Exec |
| api/player.py:56 | a line is the player's when the name occurs anywhere in it (`self.core.ign in line`) | player `player` saving over the file line `player1 pass1 witch 10 100 5 1 0` replaces that other player's account | only the line that starts with the player's name and a space is replaced | not executed | Progression.RewriteLinesAsWritten, Progression.SubstringMatchClobbers | Progression.RewriteLines, Progression.RewriteLinesLastWins |
