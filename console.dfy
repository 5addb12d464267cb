/**
 * The console helpers shared by every menu: `format_list` and `get_choice`.
 * The console supplies a finite sequence of lines, each as `get_choice`
 * sees it (`Classify` says how a raw `input()` string is seen); running out
 * of lines is Python's `EOFError`, which the callers pass upwards as "input
 * ended".
 */
module Console {
  import opened Builtins

  // ---------------------------------------------------------------------------
  // format_list

  /** `format_list(items)`: the `str` of each item joined by `", "`. */
  function FormatList(items: seq<string>): (r: string)
    ensures |items| == 0 ==> r == ""
    ensures |items| == 1 ==> r == items[0]
  {
    Join(", ", items)
  }

  /** Appending an item to a non-empty list appends `", "` and that item to the text. */
  lemma FormatListSnoc(items: seq<string>, last: string)
    requires |items| > 0
    ensures FormatList(items + [last]) == FormatList(items) + ", " + last
  {
    JoinSnoc(", ", items, last);
  }

  /** `format_list` cannot tell an empty list from a list holding one empty string. */
  lemma FormatListEmptyAmbiguous()
    ensures FormatList([]) == FormatList([""])
  {
  }

  /**
   * Splits a text at every `", "`: the inverse of `FormatList` on lists of
   * comma-free items (see `FormatListRoundTrip`).
   */
  function SplitList(s: string): (r: seq<string>)
    ensures |r| > 0
  {
    if |s| == 0 then [""]
    else if |s| >= 2 && s[0] == ',' && s[1] == ' ' then [""] + SplitList(s[2..])
    else
      var rest := SplitList(s[1..]);
      [[s[0]] + rest[0]] + rest[1..]
  }

  /** Splitting a comma-free prefix glues it onto the first piece. */
  lemma {:induction false} SplitListPrefix(x: string, t: string)
    requires ',' !in x
    ensures SplitList(x + t) == [x + SplitList(t)[0]] + SplitList(t)[1..]
  {
    var r := SplitList(t);
    if |x| > 0 {
      var u := x + t;
      assert x[0] in x;
      assert u[0] == x[0] && u[1..] == x[1..] + t;
      assert ',' !in x[1..] by {
        forall i | 0 <= i < |x[1..]| ensures x[1..][i] != ',' {
          assert x[1..][i] in x;
        }
      }
      SplitListPrefix(x[1..], t);
      var rest := SplitList(u[1..]);
      assert SplitList(u) == [[u[0]] + rest[0]] + rest[1..];
      assert rest[0] == x[1..] + r[0] && rest[1..] == r[1..];
      assert [x[0]] + (x[1..] + r[0]) == x + r[0];
    } else {
      assert x == [];
      assert x + t == t && x + r[0] == r[0];
      assert [r[0]] + r[1..] == r;
    }
  }

  /** `SplitList(FormatList(items)) == items` when no item contains a comma. */
  lemma {:induction false} FormatListRoundTrip(items: seq<string>)
    requires |items| > 0
    requires forall i :: 0 <= i < |items| ==> ',' !in items[i]
    ensures SplitList(FormatList(items)) == items
  {
    if |items| == 1 {
      SplitListPrefix(items[0], "");
      assert items[0] + "" == items[0];
    } else {
      var tail := FormatList(items[1..]);
      FormatListRoundTrip(items[1..]);
      assert FormatList(items) == items[0] + (", " + tail);
      SplitListPrefix(items[0], ", " + tail);
      var sep := ", " + tail;
      assert sep[0] == ',' && sep[1] == ' ' && sep[2..] == tail;
      assert SplitList(sep) == [""] + items[1..];
      assert items[0] + "" == items[0];
      assert items == [items[0]] + items[1..];
    }
  }

  // ---------------------------------------------------------------------------
  // get_choice

  /** What `get_choice` makes of one console line: `"esc"`, a number, or neither. */
  datatype Line = EscLine | NumberLine(value: int) | InvalidLine

  /** `get_choice`'s answer: the string `"esc"` or a number in range. */
  datatype Choice = Esc | Picked(n: int)

  /**
   * `input().strip().lower()`, then `"esc"`, else `int(...)`, else the
   * `ValueError` branch.
   */
  function Classify(line: string): (r: Line)
    ensures r == EscLine <==> Lower(Strip(line)) == "esc"
    ensures r.NumberLine? <==> Lower(Strip(line)) != "esc" && ParseInt(Lower(Strip(line))).Some?
    ensures r.NumberLine? ==> ParseInt(Lower(Strip(line))) == Some(r.value)
  {
    var c := Lower(Strip(line));
    if c == "esc" then EscLine
    else match ParseInt(c)
      case Some(n) => NumberLine(n)
      case None => InvalidLine
  }

  /** Every `str(n)` typed at the prompt reads back as the number `n`. */
  lemma ClassifyDecimal(n: int)
    ensures Classify(IntToDecimal(n)) == NumberLine(n)
  {
    var s := IntToDecimal(n);
    StripTrimmed(s);
    assert Lower(s) == s;
    IntToDecimalRoundTrip(n);
    assert s != "esc" by {
      if n < 0 { assert s[0] == '-'; } else { assert IsDigit(s[0]); }
    }
  }

  /** A line `get_choice` returns on: `"esc"`, or a number in `[lo, hi]`. */
  predicate Accepts(lo: int, hi: int, line: Line) {
    match line
    case EscLine => true
    case NumberLine(n) => lo <= n <= hi
    case InvalidLine => false
  }

  function ChoiceOf(line: Line): Choice
    requires line != InvalidLine
  {
    match line
    case EscLine => Esc
    case NumberLine(n) => Picked(n)
  }

  /**
   * What `get_choice(lo, hi)` answers on the console lines `lines`, and how
   * many lines it reads: rejected lines are re-prompted, the
   * first accepted one decides; `None` is the input running out first,
   * after reading every line. A number answered is in range.
   */
  function Prompt(lo: int, hi: int, lines: seq<Line>): (r: (Option<Choice>, nat))
    ensures r.1 <= |lines|
    ensures r.0.None? ==> r.1 == |lines|
    ensures r.0.Some? ==> 0 < r.1
    ensures r.0.Some? && r.0.value.Picked? ==> lo <= r.0.value.n <= hi
    decreases |lines|
  {
    if |lines| == 0 then (None, 0)
    else if Accepts(lo, hi, lines[0]) then (Some(ChoiceOf(lines[0])), 1)
    else
      var rest := Prompt(lo, hi, lines[1..]);
      (rest.0, rest.1 + 1)
  }

  /**
   * The answer of `Prompt` is the first acceptable line and every line
   * before it is rejected; there is no answer exactly when no line is
   * acceptable.
   */
  lemma {:induction false} PromptAnswers(lo: int, hi: int, lines: seq<Line>)
    ensures var r := Prompt(lo, hi, lines);
      && (r.0.None? <==> forall i :: 0 <= i < |lines| ==> !Accepts(lo, hi, lines[i]))
      && (r.0.Some? ==> Accepts(lo, hi, lines[r.1 - 1]) && r.0.value == ChoiceOf(lines[r.1 - 1]))
      && (forall i :: 0 <= i < r.1 - 1 ==> !Accepts(lo, hi, lines[i]))
    decreases |lines|
  {
    if |lines| > 0 && !Accepts(lo, hi, lines[0]) {
      PromptAnswers(lo, hi, lines[1..]);
      assert forall i :: 1 <= i < |lines| ==> lines[i] == lines[1..][i - 1];
    }
  }

  /** `"esc"`, in any case and with any surrounding white space, is accepted whatever the range. */
  lemma EscAlwaysAccepted(lo: int, hi: int, line: string)
    requires Lower(Strip(line)) == "esc"
    ensures Accepts(lo, hi, Classify(line)) && ChoiceOf(Classify(line)) == Esc
    ensures Prompt(lo, hi, [Classify(line)]) == (Some(Esc), 1)
  {
  }

  /**
   * `get_choice(range_min, range_max)`: reads lines until one is `"esc"` or
   * a number in range; `used` is how many lines it read.
   */
  method GetChoice(lo: int, hi: int, input: seq<Line>) returns (r: Option<Choice>, used: nat)
    ensures (r, used) == Prompt(lo, hi, input)
    ensures r.Some? && r.value.Picked? ==> lo <= r.value.n <= hi
    ensures r.Some? ==> 0 < used <= |input|
    ensures r.None? ==> used == |input|
  {
    used := 0;
    while used < |input|
      invariant used <= |input|
      invariant Prompt(lo, hi, input) == (Prompt(lo, hi, input[used..]).0, Prompt(lo, hi, input[used..]).1 + used)
    {
      var c := input[used];
      assert input[used..][1..] == input[used + 1..];
      used := used + 1;
      if c == EscLine {
        return Some(Esc), used;
      }
      if c.NumberLine? && lo <= c.value <= hi {
        return Some(Picked(c.value)), used;
      }
      // Out of range or not a number: the source prints an error and asks again.
    }
    r := None;
  }
}
