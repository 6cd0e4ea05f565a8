/** The monitor's command-line interface (monitor.go): the command
    registry, the help listing, the carriage-return line assembly of the
    input loop, the dispatch of a typed line, the `show` command and the
    `exit` handler.

    Every byte the interface writes goes to the input channel of the serial
    it is connected to (`sconnected`), which the model keeps as the log
    `sent`. Handlers whose text is built with `%v` (the test handler and
    `showCurrentTunnelID`) are recorded as calls in `calls` instead of being
    rendered. */
module Monitor {
  import opened Basics
  import opened Words

  /** The command functions monitor.go defines. */
  datatype Handler = Test | Show | ShowCurrentTunnelId | Exit

  /** A registered command (monitor.go:13-17). */
  datatype Command = Command(name: seq<Byte>, helpText: seq<Byte>, handler: Handler)

  /** One invocation of a handler with its arguments. */
  datatype Call = Call(handler: Handler, args: seq<seq<Byte>>)

  const HELP: seq<Byte> := Ascii("help")
  const QUIT: seq<Byte> := Ascii("quit")
  const QUESTION: seq<Byte> := Ascii("?")
  const AVAILABLE_COMMANDS: seq<Byte> := Ascii("Available commands:\n")
  const SHOW_OPTIONS: seq<Byte> := Ascii("Available options for 'show':\n")
  const UNKNOWN_OPTION: seq<Byte> := Ascii("Unknown option. Use 'show ?' for help.\n")
  const DISCONNECTED: seq<Byte> := Ascii("Disconnected!\n")

  /** Column widths of the two help listings (`%-15s` and `%-25s`). */
  const COMMAND_WIDTH: nat := 15
  const OPTION_WIDTH: nat := 25

  /** The subcommands of `show` (monitor.go:156-163). */
  const SHOW_SUBCOMMANDS: seq<Command> :=
    [Command(Ascii("current_tunnel_id"), Ascii("Show current tunnel ID"), ShowCurrentTunnelId)]

  const UNKNOWN_COMMAND: seq<Byte> := Ascii("Unknown command: ")

  /** The reply to a command nobody registered (monitor.go:137): the name
      is echoed verbatim between the fixed prefix and the line feed. */
  function UnknownCommand(name: seq<Byte>): (r: seq<Byte>)
    ensures |r| == |UNKNOWN_COMMAND| + |name| + 1
    ensures r[..|UNKNOWN_COMMAND|] == UNKNOWN_COMMAND
    ensures r[|UNKNOWN_COMMAND|..|r| - 1] == name
    ensures r[|r| - 1] == LF
  {
    UNKNOWN_COMMAND + name + [LF]
  }

  /** `s` left-justified in a field of `width` bytes, as `%-<width>s`. */
  function PadRight(s: seq<Byte>, width: nat): (r: seq<Byte>)
    ensures |r| == if |s| < width then width else |s|
    ensures r[..|s|] == s
    ensures forall i | |s| <= i < |r| :: r[i] == SPACE
  {
    if |s| < width then s + seq(width - |s|, _ => SPACE) else s
  }

  /** One line of a help listing: padded name, a space, the help text and a
      line feed. */
  function Row(width: nat, c: Command): seq<Byte>
  {
    PadRight(c.name, width) + [SPACE] + c.helpText + [LF]
  }

  /** The columns of a help row, as `%-<width>s %s\n` lays them out: the
      name from column 0, spaces up to and including column `col` (the
      width, or the name's length if longer), the help text from column
      `col + 1`, and a final line feed. */
  lemma RowColumns(width: nat, c: Command)
    ensures var r, col := Row(width, c), if |c.name| < width then width else |c.name|;
      && |r| == col + |c.helpText| + 2
      && r[..|c.name|] == c.name
      && (forall i | |c.name| <= i <= col :: r[i] == SPACE)
      && r[col + 1..|r| - 1] == c.helpText
      && r[|r| - 1] == LF
  {
  }

  /** The rows of the commands, in the given order. */
  function Table(width: nat, cmds: seq<Command>): (r: seq<Byte>)
    ensures r == [] <==> cmds == []
    ensures cmds != [] ==> r[|r| - 1] == LF
  {
    if cmds == [] then [] else Table(width, cmds[..|cmds| - 1]) + Row(width, cmds[|cmds| - 1])
  }

  /** Every name of `order` is registered. */
  predicate Listable(commands: map<seq<Byte>, Command>, order: seq<seq<Byte>>)
  {
    forall i | 0 <= i < |order| :: order[i] in commands
  }

  /** The registered commands in the order their names are listed. */
  function Entries(commands: map<seq<Byte>, Command>, order: seq<seq<Byte>>): seq<Command>
    requires Listable(commands, order)
  {
    seq(|order|, i requires 0 <= i < |order| => commands[order[i]])
  }

  /** `order` lists every key exactly once: Go's map iteration order is
      unspecified, so the listing is fixed only up to this ordering. */
  ghost predicate IsEnumeration(order: seq<seq<Byte>>, keys: set<seq<Byte>>)
  {
    && (forall i, j | 0 <= i < j < |order| :: order[i] != order[j])
    && (forall i | 0 <= i < |order| :: order[i] in keys)
    && (forall k | k in keys :: k in order)
  }

  /** The first subcommand with the given name. */
  function FindSubcommand(subs: seq<Command>, name: seq<Byte>): (r: Option<Command>)
    ensures r.None? <==> forall i | 0 <= i < |subs| :: subs[i].name != name
    ensures r.Some? ==> exists i | 0 <= i < |subs| ::
      subs[i] == r.value && r.value.name == name && forall j | 0 <= j < i :: subs[j].name != name
  {
    if subs == [] then None
    else if subs[0].name == name then Some(subs[0])
    else
      var r := FindSubcommand(subs[1..], name);
      assert forall i | 1 <= i < |subs| :: subs[i] == subs[1..][i - 1];
      r
  }

  /** What a handler does for the connected serial: write the given text,
      or run a handler whose text the model does not render. */
  datatype Reaction = Reply(text: seq<Byte>) | Runs(call: Call)

  /** `showHandler` (monitor.go:155-189): no argument or "?" lists the
      options, an exact subcommand name runs that subcommand with the
      remaining arguments, anything else is refused. */
  function ShowHandler(args: seq<seq<Byte>>): (r: Reaction)
    ensures r == Reply(SHOW_OPTIONS + Table(OPTION_WIDTH, SHOW_SUBCOMMANDS)) <==> |args| == 0 || args[0] == QUESTION
    ensures r.Runs? <==> (|args| > 0 && args[0] != QUESTION &&
      exists i | 0 <= i < |SHOW_SUBCOMMANDS| :: SHOW_SUBCOMMANDS[i].name == args[0])
    ensures r.Runs? ==> exists i | 0 <= i < |SHOW_SUBCOMMANDS| ::
      SHOW_SUBCOMMANDS[i].name == args[0] && r.call == Call(SHOW_SUBCOMMANDS[i].handler, args[1..])
    ensures r == Reply(UNKNOWN_OPTION) <==> (|args| > 0 && args[0] != QUESTION &&
      forall i | 0 <= i < |SHOW_SUBCOMMANDS| :: SHOW_SUBCOMMANDS[i].name != args[0])
  {
    if |args| == 0 || args[0] == QUESTION then Reply(SHOW_OPTIONS + Table(OPTION_WIDTH, SHOW_SUBCOMMANDS))
    else
      match FindSubcommand(SHOW_SUBCOMMANDS, args[0])
      case Some(c) => Runs(Call(c.handler, args[1..]))
      case None => Reply(UNKNOWN_OPTION)
  }

  /** Calling a handler with its arguments. The `exit` handler also clears
      the caller's diversion flag; see `Cli.ExitMonitor`. */
  function Handle(h: Handler, args: seq<seq<Byte>>): (r: Reaction)
    ensures r.Runs? ==> r.call.handler == Test || r.call.handler == ShowCurrentTunnelId
    ensures r.Runs? && h == Show ==> |args| > 0 && r.call.args == args[1..]
    ensures r.Runs? && h != Show ==> r.call == Call(h, args)
    ensures r.Reply? ==> h == Show || h == Exit
    ensures h == Exit ==> r == Reply(DISCONNECTED)
  {
    match h
    case Test => Runs(Call(Test, args))
    case ShowCurrentTunnelId => Runs(Call(ShowCurrentTunnelId, args))
    case Show => ShowHandler(args)
    case Exit => Reply(DISCONNECTED)
  }

  /** The decision `parseInput` takes for one line (monitor.go:115-142). */
  datatype Action =
    | Ignore
    | ListHelp
    | Quit
    | Invoke(command: Command, args: seq<seq<Byte>>)
    | Unknown(name: seq<Byte>)

  function Dispatch(commands: map<seq<Byte>, Command>, line: seq<Byte>): (a: Action)
    ensures a.Ignore? <==> AllSpace(line)
  {
    FieldsEmptyIffBlank(line);
    var words := Fields(line);
    if words == [] then Ignore
    else if words[0] == HELP then ListHelp
    else if words[0] == QUIT then Quit
    else if words[0] in commands then Invoke(commands[words[0]], words[1..])
    else Unknown(words[0])
  }

  /** The bytes an action writes to the connected serial, except the help
      listing, whose order is not fixed. */
  function Written(a: Action): seq<Byte>
  {
    match a
    case Unknown(name) => UnknownCommand(name)
    case Invoke(c, args) => (match Handle(c.handler, args) case Reply(t) => t case Runs(_) => [])
    case _ => []
  }

  /** The bytes an action writes to the connected serial, the help
      listing given in the order `order`. */
  function Said(commands: map<seq<Byte>, Command>, a: Action, order: seq<seq<Byte>>): seq<Byte>
    requires Listable(commands, order)
  {
    if a.ListHelp? then AVAILABLE_COMMANDS + Table(COMMAND_WIDTH, Entries(commands, order)) else Written(a)
  }

  /** The handler calls an action makes whose text is not rendered. */
  function CallsOf(a: Action): seq<Call>
  {
    match a
    case Invoke(c, args) => (match Handle(c.handler, args) case Reply(_) => [] case Runs(call) => [call])
    case _ => []
  }

  /** The action runs the `exit` handler. */
  predicate Detaches(a: Action)
  {
    a.Invoke? && a.command.handler == Exit
  }

  /** The action does not dereference a nil pointer: everything that writes
      needs a connected serial, and the `exit` handler needs the diversion
      map, which `NewCLI` never allocates. */
  predicate Runnable(a: Action, connected: Option<int>, hasDiversionMap: bool)
  {
    && ((a.ListHelp? || a.Unknown? || a.Invoke?) ==> connected.Some?)
    && (Detaches(a) ==> hasDiversionMap)
  }

  /** The CLI's diversion map after an action: `exit` clears the connected
      serial's entry; nothing else touches the map. */
  function AfterExit(m: Option<map<int, bool>>, connected: Option<int>, a: Action): Option<map<int, bool>>
  {
    if Detaches(a) && m.Some? && connected.Some? then Some(m.value[connected.value := false]) else m
  }

  /** What the CLI has done so far: the bytes written to the connected
      serial, the unrendered handler calls, the quit signals sent, and its
      diversion map. */
  datatype Effects = Effects(sent: seq<Byte>, calls: seq<Call>, quitSignals: nat, dteToMonitor: Option<map<int, bool>>)

  /** The effects after carrying out action `a`, a help listing naming the
      commands in the order `order`. */
  ghost function Apply(commands: map<seq<Byte>, Command>, connected: Option<int>, e: Effects, a: Action, order: seq<seq<Byte>>): Effects
    requires IsEnumeration(order, commands.Keys)
  {
    Effects(e.sent + Said(commands, a, order),
            e.calls + CallsOf(a),
            e.quitSignals + (if a.Quit? then 1 else 0),
            AfterExit(e.dteToMonitor, connected, a))
  }

  /** The effects after carrying out the lines in order, line `k` listing
      help in the order `orders[k]`. */
  ghost function Fold(commands: map<seq<Byte>, Command>, connected: Option<int>, e: Effects,
                      lines: seq<seq<Byte>>, orders: seq<seq<seq<Byte>>>): Effects
    requires |orders| == |lines|
    requires forall k | 0 <= k < |orders| :: IsEnumeration(orders[k], commands.Keys)
  {
    if lines == [] then e
    else
      var n := |lines| - 1;
      Apply(commands, connected, Fold(commands, connected, e, lines[..n], orders[..n]), Dispatch(commands, lines[n]), orders[n])
  }

  /** An order that lists every name of `keys` once. */
  ghost function SomeEnumeration(keys: set<seq<Byte>>): (order: seq<seq<Byte>>)
    ensures IsEnumeration(order, keys)
    decreases |keys|
  {
    if keys == {} then []
    else
      var k :| k in keys;
      var order := SomeEnumeration(keys - {k});
      assert ListedSoFar(order, {k}, keys);
      ListedStep(order, {k}, keys, k);
      order + [k]
  }

  /** The result of the carriage-return line assembly of `inputLoop`: the
      lines handed over so far and the bytes still buffered. */
  datatype Lines = Lines(complete: seq<seq<Byte>>, pending: seq<Byte>)

  /** Feeding `s` to the input loop byte by byte from an empty buffer
      (monitor.go:97-106). The carriage returns are consumed: no line handed
      over and not the buffer contains one. */
  function Split(s: seq<Byte>): (r: Lines)
    ensures NoCR(r.pending)
    ensures forall k | 0 <= k < |r.complete| :: NoCR(r.complete[k])
  {
    if s == [] then Lines([], [])
    else
      var before := Split(s[..|s| - 1]);
      var b := s[|s| - 1];
      if b == CR then Lines(before.complete + [before.pending], [])
      else Lines(before.complete, before.pending + [b])
  }

  /** The stream the lines came from: each line followed by a carriage
      return, then the buffered bytes. */
  function Unsplit(complete: seq<seq<Byte>>, pending: seq<Byte>): seq<Byte>
  {
    if complete == [] then pending
    else complete[0] + [CR] + Unsplit(complete[1..], pending)
  }

  predicate NoCR(s: seq<Byte>)
  {
    forall i | 0 <= i < |s| :: s[i] != CR
  }

  /** Appending one byte to the stream. */
  lemma {:induction false} UnsplitSnoc(complete: seq<seq<Byte>>, pending: seq<Byte>, b: Byte)
    ensures Unsplit(complete, pending) + [b] == Unsplit(complete, pending + [b])
    ensures Unsplit(complete, pending) + [CR] == Unsplit(complete + [pending], [])
    decreases |complete|
  {
    if complete != [] {
      UnsplitSnoc(complete[1..], pending, b);
      assert (complete + [pending])[1..] == complete[1..] + [pending];
    }
  }

  /** Line assembly loses nothing and adds nothing: the lines, each with its
      carriage return, followed by the buffer, are the input stream. */
  lemma {:induction false} SplitRoundTrip(s: seq<Byte>)
    ensures Unsplit(Split(s).complete, Split(s).pending) == s
    decreases |s|
  {
    if s != [] {
      var init := s[..|s| - 1];
      SplitRoundTrip(init);
      var before := Split(init);
      UnsplitSnoc(before.complete, before.pending, s[|s| - 1]);
      assert init + [s[|s| - 1]] == s;
    }
  }

  /** The lines completed by a prefix of the stream are a prefix of the
      lines of the whole stream. */
  lemma {:induction false} SplitPrefix(s: seq<Byte>, i: nat)
    requires i <= |s|
    ensures Split(s[..i]).complete <= Split(s).complete
    decreases |s|
  {
    if i < |s| {
      var init := s[..|s| - 1];
      SplitPrefix(init, i);
      assert init[..i] == s[..i];
      var a, b, c := Split(s[..i]).complete, Split(init).complete, Split(s).complete;
      assert b <= c;
      assert forall k | 0 <= k < |a| :: a[k] == b[k] == c[k];
    } else {
      assert s[..i] == s;
    }
  }

  /** The names listed so far by a walk over `keys` that still has `rest`
      to visit: each listed once, and exactly the visited ones. */
  ghost predicate ListedSoFar(order: seq<seq<Byte>>, rest: set<seq<Byte>>, keys: set<seq<Byte>>)
  {
    && rest <= keys
    && (forall i | 0 <= i < |order| :: order[i] in keys && order[i] !in rest)
    && (forall i, j | 0 <= i < j < |order| :: order[i] != order[j])
    && (forall k | k in keys && k !in rest :: k in order)
  }

  /** Visiting one more name keeps the walk consistent; a finished walk is
      an enumeration. */
  lemma ListedStep(order: seq<seq<Byte>>, rest: set<seq<Byte>>, keys: set<seq<Byte>>, name: seq<Byte>)
    requires ListedSoFar(order, rest, keys) && name in rest
    ensures ListedSoFar(order + [name], rest - {name}, keys)
    ensures rest - {name} == {} ==> IsEnumeration(order + [name], keys)
  {
  }

  /** Listing one more command appends its row. */
  lemma TableSnoc(commands: map<seq<Byte>, Command>, order: seq<seq<Byte>>, name: seq<Byte>)
    requires forall i | 0 <= i < |order| :: order[i] in commands
    requires name in commands
    ensures Table(COMMAND_WIDTH, Entries(commands, order + [name])) ==
      Table(COMMAND_WIDTH, Entries(commands, order)) + Row(COMMAND_WIDTH, commands[name])
  {
    var e := Entries(commands, order + [name]);
    assert e[..|e| - 1] == Entries(commands, order);
  }

  /** Bytes without a carriage return stay buffered. */
  lemma {:induction false} SplitNoCR(s: seq<Byte>)
    requires NoCR(s)
    ensures Split(s) == Lines([], s)
    decreases |s|
  {
    if s != [] {
      SplitNoCR(s[..|s| - 1]);
      assert s[..|s| - 1] + [s[|s| - 1]] == s;
    }
  }

  /** A word ended with a carriage return is handed over as one line. */
  lemma TypedWordIsOneLine(name: seq<Byte>)
    requires IsWord(name)
    ensures Split(name + [CR]) == Lines([name], [])
  {
    assert NoCR(name);
    SplitNoCR(name);
    assert (name + [CR])[..|name|] == name;
  }

  /** A lone word nobody registered is an unknown command. */
  lemma UnregisteredWordIsUnknown(commands: map<seq<Byte>, Command>, name: seq<Byte>)
    requires IsWord(name) && name != HELP && name != QUIT && name !in commands
    ensures Dispatch(commands, name) == Unknown(name)
  {
    FieldsOfLayout([name], [[], []]);
    assert Layout([name], [[], []]) == name;
  }

  /** A name nobody registered, typed and ended with a carriage return, is
      handed over as one line and answered with the unknown-command reply;
      nothing else happens. */
  lemma UnknownNameIsAnswered(commands: map<seq<Byte>, Command>, connected: Option<int>, e: Effects,
                              name: seq<Byte>, orders: seq<seq<seq<Byte>>>)
    requires IsWord(name) && name != HELP && name != QUIT && name !in commands
    requires |orders| == 1 && IsEnumeration(orders[0], commands.Keys)
    ensures Split(name + [CR]) == Lines([name], [])
    ensures Fold(commands, connected, e, Split(name + [CR]).complete, orders) ==
      e.(sent := e.sent + UnknownCommand(name))
  {
    TypedWordIsOneLine(name);
    UnregisteredWordIsUnknown(commands, name);
    var lines: seq<seq<Byte>> := [name];
    assert lines[..0] == [] && orders[..0] == [];
  }

  /** Handling one more line applies its action to the folded effects. */
  lemma FoldSnoc(commands: map<seq<Byte>, Command>, connected: Option<int>, e: Effects,
                 lines: seq<seq<Byte>>, line: seq<Byte>, orders: seq<seq<seq<Byte>>>, order: seq<seq<Byte>>)
    requires |orders| == |lines|
    requires forall k | 0 <= k < |orders| :: IsEnumeration(orders[k], commands.Keys)
    requires IsEnumeration(order, commands.Keys)
    ensures forall k | 0 <= k < |orders| + 1 :: IsEnumeration((orders + [order])[k], commands.Keys)
    ensures Fold(commands, connected, e, lines + [line], orders + [order]) ==
      Apply(commands, connected, Fold(commands, connected, e, lines, orders), Dispatch(commands, line), order)
  {
    assert (lines + [line])[..|lines|] == lines;
    assert (orders + [order])[..|orders|] == orders;
  }

  /** The CLI state (monitor.go:20-31). */
  class Cli {
    /** The command registry. */
    var commands: map<seq<Byte>, Command>
    /** The serial whose input channel the monitor's output is wired to. */
    var stdout: Option<int>
    /** `sconnected`: the serial the interface answers; never assigned by
        the source, so it stays nil after `NewCLI`. */
    var connected: Option<int>
    /** `Used`: read by the tunnel router, never assigned true. */
    var used: bool
    /** `DTEToMonitor`: the CLI's own diversion map, nil after `NewCLI`. */
    var dteToMonitor: Option<map<int, bool>>
    /** Bytes written to the connected serial's input channel. */
    var sent: seq<Byte>
    /** Handler calls whose text is not rendered. */
    var calls: seq<Call>
    /** Signals sent on the quit channel. */
    var quitSignals: nat
    /** The lines handed to `parseInput`, in order. */
    ghost var parsed: seq<seq<Byte>>

    /** The effect fields, together. */
    function Outputs(): Effects
      reads this
    {
      Effects(sent, calls, quitSignals, dteToMonitor)
    }

    /** `NewCLI` (monitor.go:34-42). */
    constructor (stdout: Option<int>)
      ensures commands == map[] && this.stdout == stdout && connected == None
      ensures !used && dteToMonitor == None
      ensures sent == [] && calls == [] && quitSignals == 0 && parsed == []
    {
      commands := map[];
      this.stdout := stdout;
      connected := None;
      used := false;
      dteToMonitor := None;
      sent := [];
      calls := [];
      quitSignals := 0;
      parsed := [];
    }

    /** `RegisterCommand` (monitor.go:45-55): a later registration under
        the same name replaces the earlier one; no other entry changes. */
    method RegisterCommand(name: seq<Byte>, helpText: seq<Byte>, handler: Handler)
      modifies this`commands
      ensures name in commands && commands[name] == Command(name, helpText, handler)
      ensures commands.Keys == old(commands.Keys) + {name}
      ensures forall other | other in old(commands) && other != name :: commands[other] == old(commands[other])
    {
      commands := commands[name := Command(name, helpText, handler)];
    }

    /** `ListCommands` (monitor.go:58-69): the heading, then one row per
        registered command, in an unspecified order. */
    method ListCommands() returns (text: seq<Byte>, ghost order: seq<seq<Byte>>)
      ensures |text| >= |AVAILABLE_COMMANDS| && text[..|AVAILABLE_COMMANDS|] == AVAILABLE_COMMANDS
      ensures commands == map[] ==> text == AVAILABLE_COMMANDS
      ensures IsEnumeration(order, commands.Keys)
      ensures text == AVAILABLE_COMMANDS + Table(COMMAND_WIDTH, Entries(commands, order))
    {
      ghost var keys := commands.Keys;
      var rows: seq<Byte> := [];
      order := [];
      var rest := commands.Keys;
      while rest != {}
        invariant ListedSoFar(order, rest, keys)
        invariant rest == {} ==> IsEnumeration(order, keys)
        invariant rows == Table(COMMAND_WIDTH, Entries(commands, order))
        decreases rest
      {
        var name :| name in rest;
        ListedStep(order, rest, keys, name);
        TableSnoc(commands, order, name);
        order := order + [name];
        rows := rows + Row(COMMAND_WIDTH, commands[name]);
        rest := rest - {name};
      }
      text := AVAILABLE_COMMANDS + rows;
    }

    /** `exitMonitor` (monitor.go:202-211): tell the connected serial it is
        disconnected, then clear its entry in the CLI's diversion map. */
    method ExitMonitor(args: seq<seq<Byte>>)
      requires connected.Some? && dteToMonitor.Some?
      modifies this`sent, this`dteToMonitor
      ensures sent == old(sent) + DISCONNECTED
      ensures dteToMonitor.Some?
      ensures dteToMonitor.value == old(dteToMonitor.value)[connected.value := false]
    {
      sent := sent + DISCONNECTED;
      dteToMonitor := Some(dteToMonitor.value[connected.value := false]);
    }

    /** A registered command's handler run on the connected serial
        (monitor.go:135): `exit` detaches it, the other handlers reply or
        are recorded as calls. */
    method RunHandler(c: Command, args: seq<seq<Byte>>)
      requires connected.Some?
      requires c.handler == Exit ==> dteToMonitor.Some?
      modifies this`sent, this`calls, this`dteToMonitor
      ensures var a := Invoke(c, args);
        && sent == old(sent) + Written(a)
        && calls == old(calls) + CallsOf(a)
        && dteToMonitor == AfterExit(old(dteToMonitor), connected, a)
    {
      if c.handler == Exit {
        ExitMonitor(args);
      } else {
        match Handle(c.handler, args)
        case Reply(t) => sent := sent + t;
        case Runs(call) => calls := calls + [call];
      }
    }

    /** The `help` case of `parseInput` (monitor.go:124-127): the listing
        goes to the connected serial. */
    method SendHelp() returns (ghost order: seq<seq<Byte>>)
      modifies this`sent
      ensures IsEnumeration(order, commands.Keys)
      ensures sent == old(sent) + Said(commands, ListHelp, order)
    {
      var text;
      text, order := ListCommands();
      sent := sent + text;
    }

    /** The `switch` of `parseInput` (monitor.go:122-141) for the decided
        action. `order` is the order in which a help listing names the
        commands (any enumeration of them when the action is not help). */
    method Perform(a: Action) returns (ghost order: seq<seq<Byte>>)
      requires Runnable(a, connected, dteToMonitor.Some?)
      modifies this`sent, this`calls, this`quitSignals, this`dteToMonitor
      ensures IsEnumeration(order, commands.Keys)
      ensures Outputs() == Apply(commands, connected, old(Outputs()), a, order)
    {
      ghost var before := Outputs();
      match a
      case Ignore =>
        order := SomeEnumeration(commands.Keys);
      case ListHelp =>
        order := SendHelp();
        assert Outputs() == Apply(commands, connected, before, a, order);
      case Quit =>
        order := SomeEnumeration(commands.Keys);
        quitSignals := quitSignals + 1;
        assert Outputs() == Apply(commands, connected, before, a, order);
      case Unknown(name) =>
        order := SomeEnumeration(commands.Keys);
        sent := sent + UnknownCommand(name);
        assert Outputs() == Apply(commands, connected, before, a, order);
      case Invoke(c, args) =>
        order := SomeEnumeration(commands.Keys);
        RunHandler(c, args);
        assert Outputs() == Apply(commands, connected, before, a, order);
    }

    /** `parseInput` (monitor.go:115-142): tokenise the line, decide with
        `Dispatch`, and carry the decision out. */
    method ParseInput(line: seq<Byte>) returns (ghost order: seq<seq<Byte>>)
      requires Runnable(Dispatch(commands, line), connected, dteToMonitor.Some?)
      modifies this`sent, this`calls, this`quitSignals, this`dteToMonitor, this`parsed
      ensures parsed == old(parsed) + [line]
      ensures IsEnumeration(order, commands.Keys)
      ensures Outputs() == Apply(commands, connected, old(Outputs()), Dispatch(commands, line), order)
    {
      parsed := parsed + [line];
      var a := Dispatch(commands, line);
      order := Perform(a);
    }

    /** `inputLoop` (monitor.go:92-112) over a finite stream: bytes other
        than carriage return are buffered; a carriage return hands the
        buffered bytes to `parseInput` and empties the buffer. Returns what
        is still buffered, and the order each help listing used. */
    method InputLoop(stream: seq<Byte>) returns (pending: seq<Byte>, ghost orders: seq<seq<seq<Byte>>>)
      requires forall line | line in Split(stream).complete ::
        Runnable(Dispatch(commands, line), connected, dteToMonitor.Some?)
      modifies this`sent, this`calls, this`quitSignals, this`dteToMonitor, this`parsed
      ensures parsed == old(parsed) + Split(stream).complete
      ensures pending == Split(stream).pending
      ensures |orders| == |Split(stream).complete|
      ensures forall k | 0 <= k < |orders| :: IsEnumeration(orders[k], commands.Keys)
      ensures Outputs() == Fold(commands, connected, old(Outputs()), Split(stream).complete, orders)
    {
      pending := [];
      orders := [];
      ghost var lines: seq<seq<Byte>> := [];
      for i := 0 to |stream|
        invariant lines == Split(stream[..i]).complete
        invariant pending == Split(stream[..i]).pending
        invariant parsed == old(parsed) + lines
        invariant |orders| == |lines|
        invariant forall k | 0 <= k < |orders| :: IsEnumeration(orders[k], commands.Keys)
        invariant Outputs() == Fold(commands, connected, old(Outputs()), lines, orders)
        invariant dteToMonitor.Some? == old(dteToMonitor).Some?
      {
        assert stream[..i + 1][..i] == stream[..i];
        if stream[i] == CR {
          SplitPrefix(stream, i + 1);
          assert pending == Split(stream).complete[|lines|];
          var order := ParseInput(pending);
          FoldSnoc(commands, connected, old(Outputs()), lines, pending, orders, order);
          lines := lines + [pending];
          orders := orders + [order];
          pending := [];
        } else {
          pending := pending + [stream[i]];
        }
      }
      assert stream[..|stream|] == stream;
    }
  }

  /** A typed command line `name args...`: "help" and "quit" are matched
      before the registry, so a command registered under either name is
      never run; otherwise a registered name runs its command with exactly
      the remaining words, and any other name is unknown. */
  lemma DispatchTypedLine(commands: map<seq<Byte>, Command>, name: seq<Byte>, args: seq<seq<Byte>>, gaps: seq<seq<Byte>>)
    requires IsWord(name)
    requires forall k | 0 <= k < |args| :: IsWord(args[k])
    requires Separates([name] + args, gaps)
    ensures Dispatch(commands, Layout([name] + args, gaps)) ==
      if name == HELP then ListHelp
      else if name == QUIT then Quit
      else if name in commands then Invoke(commands[name], args)
      else Unknown(name)
  {
    var ws := [name] + args;
    assert forall k | 0 <= k < |ws| :: IsWord(ws[k]);
    FieldsOfLayout(ws, gaps);
    assert ws[1..] == args;
  }

  /** Typing `show` followed by an exact subcommand name, with `show`
      registered, runs that subcommand with the words after it. */
  lemma ShowRunsSubcommand(commands: map<seq<Byte>, Command>, show: seq<Byte>, args: seq<seq<Byte>>, gaps: seq<seq<Byte>>)
    requires show in commands && commands[show].handler == Show
    requires IsWord(show) && show != HELP && show != QUIT
    requires |args| > 0 && args[0] == SHOW_SUBCOMMANDS[0].name
    requires forall k | 0 <= k < |args| :: IsWord(args[k])
    requires Separates([show] + args, gaps)
    ensures var a := Dispatch(commands, Layout([show] + args, gaps));
      && a == Invoke(commands[show], args)
      && CallsOf(a) == [Call(ShowCurrentTunnelId, args[1..])]
      && Written(a) == []
  {
    DispatchTypedLine(commands, show, args, gaps);
    assert args[0] != QUESTION;
  }
}
