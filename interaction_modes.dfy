/** The command-line panel of `InteractionModes` (src/components/InteractionModes.tsx): the
    Enter, ArrowUp and ArrowDown handlers over the command history, the history cursor
    `historyIndex`, the output lines and the value of the input box. The React state of one
    render is a `Cli` value; `CommandLine` is the component, whose key handler moves that
    state one event at a time. The `onCommand` callback is recorded as the list of commands
    handed to it. */
module InteractionModes {
  import Text

  /** The component's state: `commandHistory`, `historyIndex`, `output`, the input box's
      value and the commands passed to `onCommand`. */
  datatype Cli = Cli(history: seq<string>, index: int, output: seq<string>, input: string, sent: seq<string>)

  datatype Key = Enter | ArrowUp | ArrowDown | OtherKey

  /** The cursor is -1 (not browsing) or a position counted back from the newest command. */
  predicate CursorInRange(c: Cli) {
    -1 <= c.index <= |c.history| - 1
  }

  /** The history entry the cursor points at: position 0 is the newest command. */
  function Recalled(c: Cli): string
    requires CursorInRange(c) && c.index >= 0
  {
    c.history[|c.history| - 1 - c.index]
  }

  const Welcome: seq<string> := ["Welcome to FastAPI Load Tester CLI!", "Type \"help\" for available commands.", ""]

  /** The state of the first render. */
  function Initial(): (c: Cli)
    ensures CursorInRange(c) && c.history == [] && c.index == -1 && c.sent == []
  {
    Cli([], -1, Welcome, "", [])
  }

  /** `handleCommand(command)`: the command is recorded, the cursor reset, `$ command` and
      an empty line are printed and the command is passed on. */
  function CommandHandled(c: Cli, command: string): (r: Cli)
    ensures CursorInRange(r) && r.index == -1
    ensures r.history == c.history + [command] && r.sent == c.sent + [command]
    ensures r.output == c.output + ["$ " + command, ""]
  {
    Cli(c.history + [command], -1, c.output + ["$ " + command, ""], c.input, c.sent + [command])
  }

  /** Enter: a command that is not blank after trimming is handled and the box cleared; a
      blank one changes nothing. */
  function OnEnter(c: Cli): (r: Cli) {
    var command := Text.Trim(c.input);
    if command != "" then CommandHandled(c, command).(input := "") else c
  }

  /** ArrowUp: one step back in history, unless the cursor is at the oldest command. */
  function OnArrowUp(c: Cli): (r: Cli)
    requires CursorInRange(c)
  {
    if c.index < |c.history| - 1 then
      var newIndex := c.index + 1;
      c.(index := newIndex, input := c.history[|c.history| - 1 - newIndex])
    else c
  }

  /** ArrowDown: one step forward; from the newest command back to an empty box; nothing
      when not browsing. */
  function OnArrowDown(c: Cli): (r: Cli)
    requires CursorInRange(c)
  {
    if c.index > 0 then
      var newIndex := c.index - 1;
      c.(index := newIndex, input := c.history[|c.history| - 1 - newIndex])
    else if c.index == 0 then c.(index := -1, input := "")
    else c
  }

  /** `handleKeyDown` */
  function OnKey(c: Cli, key: Key): (r: Cli)
    requires CursorInRange(c)
  {
    match key
    case Enter => OnEnter(c)
    case ArrowUp => OnArrowUp(c)
    case ArrowDown => OnArrowDown(c)
    case OtherKey => c
  }

  // ------------------------------------------------------------------
  // Properties of the handlers

  /** Every key keeps the cursor within `-1 .. |history| - 1`, and the history and the sent
      commands grow together. */
  lemma KeyKeepsValid(c: Cli, key: Key)
    requires CursorInRange(c)
    ensures CursorInRange(OnKey(c, key))
    ensures c.history == c.sent ==> OnKey(c, key).history == OnKey(c, key).sent
  {
  }

  /** Only Enter on a non-blank input changes the history and the output, and then by
      exactly the trimmed command. */
  lemma EnterRecords(c: Cli)
    ensures var command := Text.Trim(c.input);
            var r := OnEnter(c);
            (command == "" ==> r == c)
            && (command != "" ==> r.history == c.history + [command] && r.index == -1 && r.input == ""
                                  && r.output == c.output + ["$ " + command, ""] && r.sent == c.sent + [command])
  {
  }

  /** The arrows never touch the history, the output or the sent commands. */
  lemma ArrowsOnlyMoveCursor(c: Cli)
    requires CursorInRange(c)
    ensures var u, d := OnArrowUp(c), OnArrowDown(c);
            u.history == c.history && u.output == c.output && u.sent == c.sent
            && d.history == c.history && d.output == c.output && d.sent == c.sent
  {
  }

  /** A step that moves the cursor shows the entry it lands on; a cursor moved to -1 shows
      an empty box. */
  lemma ArrowsShowRecalled(c: Cli)
    requires CursorInRange(c)
    ensures var u := OnArrowUp(c);
            CursorInRange(u) && (c.index < |c.history| - 1 ==> u.index == c.index + 1 && u.input == Recalled(u))
            && (c.index >= |c.history| - 1 ==> u == c)
    ensures var d := OnArrowDown(c);
            CursorInRange(d) && (c.index > 0 ==> d.index == c.index - 1 && d.input == Recalled(d))
            && (c.index == 0 ==> d.index == -1 && d.input == "")
            && (c.index == -1 ==> d == c)
  {
  }

  /** `k` presses of ArrowUp. */
  function UpPresses(c: Cli, k: nat): (r: Cli)
    requires CursorInRange(c)
    ensures CursorInRange(r)
  {
    if k == 0 then c else OnArrowUp(UpPresses(c, k - 1))
  }

  /** From a fresh cursor, the `k`-th press of ArrowUp shows the `k`-th newest command; once
      the oldest is reached further presses change nothing. */
  lemma {:induction false} UpPressesRecall(c: Cli, k: nat)
    requires CursorInRange(c) && c.index == -1
    ensures var r := UpPresses(c, k);
            r.history == c.history
            && (0 < k <= |c.history| ==> r.index == k - 1 && r.input == c.history[|c.history| - k])
            && (k > |c.history| ==> r == UpPresses(c, |c.history|))
  {
    if k > 0 {
      UpPressesRecall(c, k - 1);
      if k > |c.history| {
        UpPressesRecall(c, |c.history|);
        assert UpPresses(c, |c.history|).index == |c.history| - 1;
      }
    }
  }

  /** ArrowDown undoes an ArrowUp that moved the cursor: the cursor and the box are as
      browsing left them. */
  lemma DownUndoesUp(c: Cli)
    requires CursorInRange(c) && c.index < |c.history| - 1
    ensures var r := OnArrowDown(OnArrowUp(c));
            r.index == c.index && r.history == c.history
            && (c.index >= 0 ==> r.input == Recalled(c)) && (c.index == -1 ==> r.input == "")
  {
  }

  /** Right after a command is entered, ArrowUp shows it again. */
  lemma UpAfterEnterShowsLast(c: Cli)
    requires CursorInRange(c) && Text.Trim(c.input) != ""
    ensures var r := OnArrowUp(OnEnter(c));
            r.index == 0 && r.input == Text.Trim(c.input)
  {
  }

  // ------------------------------------------------------------------
  // The component

  class CommandLine {
    var history: seq<string>
    var historyIndex: int
    var output: seq<string>
    var input: string
    var sent: seq<string>

    function State(): Cli
      reads this
    {
      Cli(history, historyIndex, output, input, sent)
    }

    predicate Valid()
      reads this
    {
      CursorInRange(State()) && history == sent
    }

    /** The first render: no history, cursor -1, the welcome lines, an empty box. */
    constructor ()
      ensures Valid() && State() == Initial()
    {
      history, historyIndex, output, input, sent := [], -1, Welcome, "", [];
    }

    /** The user edits the box. */
    method Type(text: string)
      requires Valid()
      modifies this
      ensures Valid() && State() == old(State()).(input := text)
    {
      input := text;
    }

    method HandleCommand(command: string)
      requires Valid()
      modifies this
      ensures Valid() && State() == CommandHandled(old(State()), command)
    {
      history := history + [command];
      historyIndex := -1;
      output := output + ["$ " + command, ""];
      sent := sent + [command];
    }

    /** `handleKeyDown` */
    method HandleKeyDown(key: Key)
      requires Valid()
      modifies this
      ensures Valid() && State() == OnKey(old(State()), key)
    {
      match key {
        case Enter =>
          var command := Text.Trim(input);
          if command != "" {
            HandleCommand(command);
            input := "";
          }
        case ArrowUp =>
          if historyIndex < |history| - 1 {
            var newIndex := historyIndex + 1;
            historyIndex := newIndex;
            input := history[|history| - 1 - newIndex];
          }
        case ArrowDown =>
          if historyIndex > 0 {
            var newIndex := historyIndex - 1;
            historyIndex := newIndex;
            input := history[|history| - 1 - newIndex];
          } else if historyIndex == 0 {
            historyIndex := -1;
            input := "";
          }
        case OtherKey =>
      }
    }
  }
}
