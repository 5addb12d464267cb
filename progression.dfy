/**
 * Player progression and the account file: experience and levels, the
 * combat stats of the character type, and the rewrite of `players.txt`
 * that every level-up and every experience gain ends with. The file is an
 * object holding its list of lines; reading and writing it is left out.
 */
module Progression {
  import opened Builtins

  // ---------------------------------------------------------------------------
  // The account file

  /** `players.txt` as the list `readlines()` gives. */
  class PlayersFile {
    var lines: seq<string>

    constructor (lines: seq<string>)
      ensures this.lines == lines
    {
      this.lines := lines;
    }
  }

  /** The eight values of one account line. */
  datatype Record = Record(
    ign: string, password: string, typeName: string,
    attack: int, health: int, defense: int, level: int, xp: int)

  /** The values of a record as text, in file order. */
  function Fields(r: Record): seq<string> {
    [r.ign, r.password, r.typeName] + Decimals([r.attack, r.health, r.defense, r.level, r.xp])
  }

  /** `str(n)` of each number, in order. */
  function Decimals(ns: seq<int>): (r: seq<string>)
    ensures |r| == |ns|
  {
    if |ns| == 0 then [] else [IntToDecimal(ns[0])] + Decimals(ns[1..])
  }

  /** Entry `i` of `Decimals(ns)` is `str(ns[i])`. */
  lemma {:induction false} DecimalsAt(ns: seq<int>, i: nat)
    requires i < |ns|
    ensures Decimals(ns)[i] == IntToDecimal(ns[i])
  {
    if i > 0 {
      DecimalsAt(ns[1..], i - 1);
    }
  }

  /**
   * The line `save_to_file` writes for a player: the values separated by
   * single spaces and ended by a newline. It starts with the in-game name
   * and a space.
   */
  function RecordLine(r: Record): (line: string)
    ensures IsPrefix(r.ign + " ", line)
    ensures |line| > 0 && line[|line| - 1] == '\n'
  {
    var f := Fields(r);
    assert Join(" ", f) == f[0] + " " + Join(" ", f[1..]);
    Join(" ", f) + "\n"
  }

  /**
   * Reads an account line back: eight space-separated values, the last
   * five of them integers, then a newline. Anything else is `None`.
   */
  function ParseRecord(line: string): Option<Record> {
    if |line| == 0 || line[|line| - 1] != '\n' then None
    else
      var f := Split(line[..|line| - 1], ' ');
      if |f| != 8 then None
      else
        var attack, health, defense, level, xp :=
          ParseInt(f[3]), ParseInt(f[4]), ParseInt(f[5]), ParseInt(f[6]), ParseInt(f[7]);
        if attack.None? || health.None? || defense.None? || level.None? || xp.None? then None
        else Some(Record(f[0], f[1], f[2], attack.value, health.value, defense.value, level.value, xp.value))
  }

  /** Text that can stand as one value of an account line. */
  predicate Word(s: string) {
    ' ' !in s && '\n' !in s
  }

  /** `str(n)` has neither spaces nor newlines. */
  lemma DecimalWord(n: int)
    ensures Word(IntToDecimal(n))
  {
    var s := IntToDecimal(n);
    if n < 0 {
      assert s == [s[0]] + s[1..];
    }
  }

  /** The fields of a record, one by one. */
  lemma FieldsDisplay(r: Record)
    ensures Fields(r) == [r.ign, r.password, r.typeName, IntToDecimal(r.attack), IntToDecimal(r.health),
                          IntToDecimal(r.defense), IntToDecimal(r.level), IntToDecimal(r.xp)]
  {
    var ns := [r.attack, r.health, r.defense, r.level, r.xp];
    DecimalsAt(ns, 0);
    DecimalsAt(ns, 1);
    DecimalsAt(ns, 2);
    DecimalsAt(ns, 3);
    DecimalsAt(ns, 4);
  }

  /** A saved line reads back as the record it was written from. */
  lemma RecordRoundTrip(r: Record)
    requires Word(r.ign) && Word(r.password) && Word(r.typeName)
    ensures ParseRecord(RecordLine(r)) == Some(r)
  {
    var f := Fields(r);
    FieldsDisplay(r);
    DecimalWord(r.attack);
    DecimalWord(r.health);
    DecimalWord(r.defense);
    DecimalWord(r.level);
    DecimalWord(r.xp);
    var line := RecordLine(r);
    assert line[..|line| - 1] == Join([' '], f);
    SplitJoin(f, ' ');
    IntToDecimalRoundTrip(r.attack);
    IntToDecimalRoundTrip(r.health);
    IntToDecimalRoundTrip(r.defense);
    IntToDecimalRoundTrip(r.level);
    IntToDecimalRoundTrip(r.xp);
  }

  // ---------------------------------------------------------------------------
  // The rewrite of the account file

  /** `line` is the account line of the player named `ign`. */
  predicate Owns(line: string, ign: string) {
    IsPrefix(ign + " ", line)
  }

  /**
   * The rewrite `save_to_file` means: the player's own lines become
   * `record`, every other line is kept, in order.
   */
  function RewriteLines(lines: seq<string>, ign: string, record: string): (r: seq<string>)
    ensures |r| == |lines|
  {
    if |lines| == 0 then []
    else
      var last := lines[|lines| - 1];
      RewriteLines(lines[..|lines| - 1], ign, record) + [if Owns(last, ign) then record else last]
  }

  /** Line `i` after the rewrite: `record` for the player's line, the old line otherwise. */
  lemma {:induction false} RewriteLinesAt(lines: seq<string>, ign: string, record: string, i: nat)
    requires i < |lines|
    ensures RewriteLines(lines, ign, record)[i] == if Owns(lines[i], ign) then record else lines[i]
  {
    if i < |lines| - 1 {
      RewriteLinesAt(lines[..|lines| - 1], ign, record, i);
    }
  }

  /**
   * Saving twice is saving once with the later record, as long as the
   * earlier record is itself the player's line.
   */
  lemma {:induction false} RewriteLinesLastWins(lines: seq<string>, ign: string, first: string, second: string)
    requires Owns(first, ign)
    ensures RewriteLines(RewriteLines(lines, ign, first), ign, second) == RewriteLines(lines, ign, second)
  {
    if |lines| > 0 {
      var init := lines[..|lines| - 1];
      var once := RewriteLines(lines, ign, first);
      assert once[..|once| - 1] == RewriteLines(init, ign, first);
      RewriteLinesLastWins(init, ign, first, second);
    }
  }

  /**
   * `save_to_file` as written replaces every line in which the name occurs
   * anywhere (`self.core.ign in line`).
   */
  function RewriteLinesAsWritten(lines: seq<string>, ign: string, record: string): (r: seq<string>)
    ensures |r| == |lines|
    ensures forall i :: 0 <= i < |r| ==> r[i] == record || r[i] == lines[i]
  {
    if |lines| == 0 then []
    else
      var last := lines[|lines| - 1];
      RewriteLinesAsWritten(lines[..|lines| - 1], ign, record) + [if Contains(last, ign) then record else last]
  }

  /** As written, every line in which the name occurs at some position is replaced. */
  lemma {:induction false} RewriteLinesAsWrittenAt(lines: seq<string>, ign: string, record: string, i: nat)
    requires i < |lines|
    ensures RewriteLinesAsWritten(lines, ign, record)[i] ==
              if exists k :: OccursAt(lines[i], ign, k) then record else lines[i]
  {
    ContainsIff(lines[i], ign);
    if i < |lines| - 1 {
      RewriteLinesAsWrittenAt(lines[..|lines| - 1], ign, record, i);
    }
  }

  /**
   * The player `"player"` saving over the file of the account test
   * overwrites the account of `"player1"` as written; the rewrite by
   * ownership leaves that line alone.
   */
  lemma SubstringMatchClobbers(record: string)
    ensures var lines := ["player1 pass1 witch 10 100 5 1 0\n"];
            && RewriteLinesAsWritten(lines, "player", record) == [record]
            && RewriteLines(lines, "player", record) == lines
  {
    var line := "player1 pass1 witch 10 100 5 1 0\n";
    assert IsPrefix("player", line) by {
      assert line[..6] == "player";
    }
    assert !Owns(line, "player") by {
      assert line[6] == '1' && ("player" + " ")[6] == ' ';
    }
  }

  /**
   * The account test: saving `test_player` rewrites only its own line
   * and keeps the other.
   */
  lemma SaveExample(record: string)
    ensures var lines := ["player1 pass1 witch 10 100 5 1 0\n", "test_player oldpass demon 15 150 10 2 20\n"];
            RewriteLines(lines, "test_player", record) == [lines[0], record]
  {
    var first := "player1 pass1 witch 10 100 5 1 0\n";
    var second := "test_player oldpass demon 15 150 10 2 20\n";
    var lines := [first, second];
    assert !Owns(first, "test_player") by {
      assert first[0] == 'p' && ("test_player" + " ")[0] == 't';
    }
    assert Owns(second, "test_player") by {
      assert "test_player" + " " == "test_player ";
      assert second[..12] == "test_player ";
    }
    assert lines[..1] == [first] && lines[..1][..0] == [];
  }

  // ---------------------------------------------------------------------------
  // Levels

  /** `calculate_level()` for a level: the experience that reaches the next one. */
  function Threshold(level: int): (r: int)
    ensures r % 100 == 0 && r / 100 == level
  {
    level * 100
  }

  /**
   * Where `gain_xp`'s loop stops for a player at `level` with `xp`
   * experience: the level reached, or `None` when it reaches level `0`
   * with the experience still at the threshold, where `level_up` aborts.
   */
  function Levelled(level: int, xp: int): (r: Option<int>)
    ensures r.Some? ==> level <= r.value && xp < Threshold(r.value)
    decreases xp - Threshold(level)
  {
    if xp < Threshold(level) then Some(level)
    else if level == 0 then None
    else Levelled(level + 1, xp)
  }

  /**
   * The loop aborts exactly when it starts at or below level `0` with
   * non-negative experience. Otherwise it reaches the lowest level at or
   * above the start whose threshold is above the experience.
   */
  lemma {:induction false} LevelledSpec(level: int, xp: int)
    ensures Levelled(level, xp).None? <==> level <= 0 <= xp
    ensures Levelled(level, xp).Some? ==>
              var reached := Levelled(level, xp).value;
              && level <= reached && xp < Threshold(reached)
              && (level < reached ==> Threshold(reached - 1) <= xp)
    decreases xp - Threshold(level)
  {
    if xp >= Threshold(level) && level != 0 {
      LevelledSpec(level + 1, xp);
    }
  }

  /** The level-up test: 500 experience take a new player from level 1 to level 6. */
  lemma LevelUpExample()
    ensures Levelled(1, 0 + 500) == Some(6)
    ensures Levelled(1, 0 + 20) == Some(1)
  {
  }

  // ---------------------------------------------------------------------------
  // The player

  /** A character type: its name and the three combat stats. */
  class CharacterType {
    const name: string
    var attack: int
    var health: int
    var defense: int

    constructor (name: string, attack: int, health: int, defense: int)
      ensures this.name == name && this.attack == attack && this.health == health && this.defense == defense
    {
      this.name := name;
      this.attack := attack;
      this.health := health;
      this.defense := defense;
    }
  }

  /**
   * `Player(worldobject_instance, character_type, password)`. The world
   * object contributes its in-game name `ign` and holds the attributes
   * `"xp"`, `"level"` and `"inventory"`, which are fields here.
   */
  class Player<T> {
    const ign: string
    const password: string
    const characterType: CharacterType
    const file: PlayersFile
    var xp: int
    var level: int
    var inventory: seq<T>

    /** A new player has no experience, level 1 and an empty inventory. */
    constructor (ign: string, characterType: CharacterType, password: string, file: PlayersFile)
      ensures this.ign == ign && this.characterType == characterType && this.password == password
      ensures this.file == file
      ensures xp == 0 && level == 1 && inventory == []
    {
      this.ign := ign;
      this.characterType := characterType;
      this.password := password;
      this.file := file;
      xp := 0;
      level := 1;
      inventory := [];
    }

    /** The account record of the player as it stands. */
    function Current(): Record
      reads this, characterType
    {
      Record(ign, password, characterType.name, characterType.attack, characterType.health,
             characterType.defense, level, xp)
    }

    /** `save_to_file()`: the player's lines in the file become its current record. */
    method SaveToFile()
      modifies file
      ensures file.lines == RewriteLines(old(file.lines), ign, RecordLine(Current()))
    {
      file.lines := RewriteLines(file.lines, ign, RecordLine(Current()));
    }

    /**
     * `level_up()`: at level `0` it reports the error and aborts (`ok` is
     * false) with nothing changed; otherwise the level rises by one and the
     * file is saved.
     */
    method LevelUp() returns (ok: bool)
      modifies this, file
      ensures ok <==> old(level) != 0
      ensures ok ==> level == old(level) + 1 && file.lines == RewriteLines(old(file.lines), ign, RecordLine(Current()))
      ensures !ok ==> level == old(level) && file.lines == old(file.lines)
      ensures xp == old(xp) && inventory == old(inventory)
    {
      if level == 0 {
        return false;
      }
      level := level + 1;
      SaveToFile();
      ok := true;
    }

    /**
     * The loop of `gain_xp(amount)` for the new total `total`: levels up
     * while the total reaches the threshold of the current level, to the
     * level `Levelled` gives. Level `0` aborts it part-way.
     */
    method LevelUpWhile(total: int) returns (ok: bool)
      modifies this, file
      ensures ok <==> Levelled(old(level), total).Some?
      ensures ok ==> level == Levelled(old(level), total).value
      ensures !ok ==> level == 0
      ensures xp == old(xp) && inventory == old(inventory)
      ensures file.lines == if level == old(level) then old(file.lines)
                            else RewriteLines(old(file.lines), ign, RecordLine(Current()))
    {
      while total >= Threshold(level)
        invariant xp == old(xp) && inventory == old(inventory)
        invariant Levelled(level, total) == Levelled(old(level), total)
        invariant file.lines == if level == old(level) then old(file.lines)
                                else RewriteLines(old(file.lines), ign, RecordLine(Current()))
        decreases total - Threshold(level)
      {
        ghost var saved := RecordLine(Current());
        ok := LevelUp();
        if !ok {
          return;
        }
        if level - 1 != old(level) {
          RewriteLinesLastWins(old(file.lines), ign, saved, RecordLine(Current()));
        }
      }
      ok := true;
    }

    /**
     * `gain_xp(amount)`: levels up while the new total reaches the
     * threshold of the current level, then stores the total and saves.
     * When level `0` aborts the program part-way (`ok` false), the total
     * is never stored.
     */
    method GainXp(amount: int) returns (ok: bool)
      modifies this, file
      ensures ok <==> Levelled(old(level), old(xp) + amount).Some?
      ensures ok ==> && level == Levelled(old(level), old(xp) + amount).value
                     && xp == old(xp) + amount
                     && file.lines == RewriteLines(old(file.lines), ign, RecordLine(Current()))
      ensures !ok ==> && level == 0 && xp == old(xp)
                      && file.lines == if old(level) == 0 then old(file.lines)
                                       else RewriteLines(old(file.lines), ign, RecordLine(Current()))
      ensures inventory == old(inventory)
    {
      var total := xp + amount;
      ok := LevelUpWhile(total);
      if !ok {
        return;
      }
      ghost var saved := RecordLine(Current());
      xp := total;
      SaveToFile();
      if level != old(level) {
        RewriteLinesLastWins(old(file.lines), ign, saved, RecordLine(Current()));
      }
    }

    /** `update_player_stats(a, h, d)`: the three stats become exactly the given values. */
    method UpdatePlayerStats(newAttack: int, newHealth: int, newDefense: int)
      modifies characterType
      ensures characterType.attack == newAttack && characterType.health == newHealth
      ensures characterType.defense == newDefense
    {
      characterType.attack := newAttack;
      characterType.health := newHealth;
      characterType.defense := newDefense;
    }
  }
}
