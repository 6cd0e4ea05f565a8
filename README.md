# serial_tunnel core, modelled in Dafny

serial_tunnel multiplexes serial lines. Each *tunnel* joins one DCE (the
device) to several DTEs (the terminals). Every byte a DTE sends is forwarded
to the DCE, and every byte the DCE sends is broadcast to all of the tunnel's
DTEs. A DTE can type a two-byte escape sequence to divert its keystrokes to
a built-in *monitor*, a small command-line interface.

This project models three parts of the Go program:

- **Configuration** (`configuration.dfy`, `main.go` `initialize`) turns the
  decoded JSON configuration into linked tunnels. It does this in three
  steps:
  - It hashes the serials by ID. When IDs repeat, the last record wins.
  - It resolves every tunnel's DCE reference, then every DTE reference.
  - It gives each serial five fresh channels.

  A Go pointer into the serial list is modelled as the index of the serial
  it points to. A fresh `make(chan byte)` is modelled as a token naming its
  owner and slot. The method `Initialize` keeps the source's nested loops.
  It is proved equal to the declarative function `Resolve`, and lemmas
  state what `Resolve` guarantees.
- **Router** (`router.dfy`, `main.go` `TunnelManager`) covers two loops:
  - The per-DTE loop runs each byte through the escape detector and routes
    it to the DCE or to the monitor. This is the pure function `Step` over
    a `Switch` state. The method `TunnelManager.OnDteByte` updates the
    object's fields and is proved to agree with `Step`.
  - The DCE loop broadcasts each byte, in `TunnelManager.OnDceByte`.

  Channel writes are recorded as events.
- **Monitor** (`monitor.dfy`, `words.dfy`, `monitor.go`) covers:
  - the command registry;
  - the help listing;
  - the carriage-return line assembly of `inputLoop`;
  - the whitespace tokenising done by `strings.Fields`;
  - the dispatch done by `parseInput`;
  - the `show` and `exit` handlers.

  The class `Monitor.Cli` holds the CLI's fields. Bytes written to the
  connected serial go to the log `sent`. Handler calls whose output is
  formatted with `%v` go to `calls`.

The model follows the Go code as written, including behaviour that
departs from the documented design:

- **Escape byte release.** When a held first escape byte is not followed by
  the second, it is written to the DCE's *output* channel (`main.go:272`).
  That is the channel the DCE loop reads, not the DCE's input.
  `HeldEscapeGoesToDceOutput` states this.
- **`escaped` stays set.** After a matched second escape byte, the
  `continue` at `main.go:265` or `main.go:268` skips the reset at
  `main.go:270`, so `escaped` stays set. As a result the next byte from any
  DTE, other than the second escape byte, releases a spurious escape byte.
  `AttachLeavesEscapeHeld` and `TwoDteScenario` state this. A lone second
  escape byte from any DTE instead attaches that DTE too, without a first
  escape byte of its own; `LoneSecondByteAttaches` states this.
- **Attach is not exclusive.** `Used` is never set, so a second DTE can
  also attach and take over the monitor's output. `SecondDteAlsoAttaches`
  states this.
- **Shared escape flag.** The `escaped` flag is shared by all DTEs of a
  tunnel. `EscapeFlagIsShared` states this.
- **Two diversion maps.** The router's diversion map is local to
  `TunnelManager` (`main.go:246`). `exitMonitor` clears a different map,
  the CLI's own `DTEToMonitor`. `NewCLI` never allocates that map, so
  `ExitMonitor` requires it to exist.
- **The CLI is never connected.** The CLI's `sconnected` is never
  assigned, so every write the monitor makes needs a precondition that it
  is connected (`Runnable`).
- **Error messages.** The DTE error message prints the tunnel's ID, not
  the missing serial's ID (`main.go:137`).
- **DCE errors come first.** The DCE references of all tunnels are checked
  before any DTE reference.
- **Repeated linking.** The outer loop at `main.go:125` repeats the whole
  linking pass once per tunnel. Later passes rewrite identical pointers.
- **No check on DCE/DTE overlap.** Nothing checks that a tunnel's DTE list
  leaves out its DCE.

## Model

| member | source | states |
|---|---|---|
| Configuration.IdMap | main.go:100-103 | every serial ID is a key, and it maps to the last position holding that ID |
| Configuration.HashSerials | main.go:100-103 | the loop builds exactly the ID map, later records overwriting earlier ones |
| Configuration.FirstMissingDce | main.go:107-122 | none iff every tunnel's DCE ID is known; otherwise the ID of the first tunnel whose DCE is unknown |
| Configuration.BuildShells | main.go:107-122 | fails iff some DCE is unknown, naming the first such tunnel; otherwise one tunnel per record, in order, with its DCE resolved and every DTE slot nil |
| Configuration.FirstMissingDte | main.go:125-141 | none iff every DTE ID of every tunnel is known; otherwise the ID of the first tunnel listing an unknown DTE |
| Configuration.LinkTunnel | main.go:129-139 | linking one tunnel's DTE slots succeeds iff all its DTE IDs are known, and then every slot points at its serial; a repeated pass leaves the links unchanged |
| Configuration.LinkDtes | main.go:125-141 | the nested loops fail iff some DTE ID is unknown, naming the first such tunnel by its own ID; otherwise every DTE slot of every tunnel is linked |
| Configuration.MakeChannels | main.go:146-154 | every serial gets its own five fresh channels, and nothing else about it changes |
| Configuration.Initialize | main.go:100-159 | the whole resolution returns exactly the declarative result `Resolve` |
| Configuration.Resolve | main.go:100-159 | resolution fails iff some DCE or DTE reference names an unknown serial; the error is a DCE error iff some DCE reference is unknown |
| Configuration.ResolveNamesFirstFailingTunnel | main.go:107-141 | a DCE error names the first tunnel with an unknown DCE; a DTE error arises only when all DCEs are known, and names the first tunnel with an unknown DTE, by the tunnel's own ID |
| Configuration.ResolveLinksLastListedSerial | main.go:100-159 | on success, tunnels keep their order, IDs, descriptions and escape bytes, every DCE and DTE slot points at the last listed serial with the requested ID, and every serial gets fresh channels |
| Configuration.ChannelsAreDistinct | main.go:146-154 | each serial has five channels, and no two channel slots in the configuration share a channel |
| Words.WordLength | monitor.go:116 | the leading run of non-space bytes: all non-space, ended by a space or the end |
| Words.Fields | monitor.go:116 | every field is a non-empty word free of white space (`FieldsOfLayout` and `LayoutOfFields` show the fields are exactly the maximal such runs) |
| Words.FieldsEmptyIffBlank | monitor.go:116-119 | a line has no fields iff it is all white space |
| Words.FieldsKeepNonSpace | monitor.go:116 | the fields, concatenated, are exactly the line's non-space bytes in order |
| Words.NonSpaceOfWord | monitor.go:116 | a leading word contributes exactly its own bytes to the non-space bytes |
| Words.WordLengthOfWord | monitor.go:116 | the leading run of a word followed by a space or the end is the whole word |
| Words.FieldsSkipSpace | monitor.go:116 | white space in front of a line changes none of its fields |
| Words.FieldsOfWordFirst | monitor.go:116 | a word followed by white space or the end is the first field, and the fields of the rest follow it |
| Words.FieldsOfLayout | monitor.go:116 | words laid out with white-space runs of any length between them (non-empty between two words, possibly empty at the ends) split back into exactly those words |
| Words.LayoutOfFields | monitor.go:116 | every line is its own fields laid out with such white-space runs, so the fields are exactly the maximal runs of non-space bytes |
| Monitor.PadRight | monitor.go:66 | `%-Ns`: the string, then spaces up to the width, never truncated |
| Monitor.RowColumns | monitor.go:66 | a help row is the name, padded with spaces to the column width (never truncated), a space, the help text and a line feed |
| Monitor.Table | monitor.go:64-67 | the rows are empty iff there are no commands, and otherwise end with a line feed |
| Monitor.TableSnoc | monitor.go:65-67 | listing one more command appends exactly its row |
| Monitor.FindSubcommand | monitor.go:178-183 | none iff no subcommand has the name; otherwise the first subcommand with exactly that name |
| Monitor.ShowHandler | monitor.go:155-189 | `show` lists its options iff there is no argument or it is "?"; otherwise it runs the subcommand named exactly, with the remaining arguments, iff one has that name; otherwise it replies with the unknown-option text |
| Monitor.Handle | monitor.go:135-211 | a handler either replies with text or runs a formatting handler (test or current tunnel ID); test runs with exactly its arguments, `show` runs a subcommand with the arguments after its name, and `exit` replies "Disconnected!" |
| Monitor.UnknownCommand | monitor.go:137 | the reply is "Unknown command: ", the name exactly, and a line feed |
| Monitor.Dispatch | monitor.go:116-119 | a line is ignored iff it is blank |
| Monitor.DispatchTypedLine | monitor.go:115-142 | for a line of words separated by any white space: "help" and "quit" are matched before the registry; a registered name runs its command with exactly the remaining words; any other name is unknown |
| Monitor.ShowRunsSubcommand | monitor.go:135 | `show current_tunnel_id ...`, with any white space between the words, runs that subcommand with the words after it and writes nothing itself |
| Monitor.Split | monitor.go:97-106 | neither the buffered bytes nor any line handed over contains a carriage return |
| Monitor.UnsplitSnoc | monitor.go:97-106 | appending a byte or a carriage return to a stream extends the buffer or completes a line |
| Monitor.SplitRoundTrip | monitor.go:97-106 | the lines, each with its carriage return, followed by the buffer, are the input stream |
| Monitor.SplitPrefix | monitor.go:97-106 | lines handed over stay handed over: a prefix of the stream yields a prefix of the lines |
| Monitor.SplitNoCR | monitor.go:97-106 | a stream without a carriage return hands over no line and stays buffered whole |
| Monitor.UnknownNameIsAnswered | monitor.go:92-142 | a name nobody registered, typed and ended with a carriage return, is handed over as one line and answered with exactly the unknown-command reply; nothing else changes |
| Monitor.Cli.constructor | monitor.go:34-42 | empty registry, given output, not used, not connected, no diversion map |
| Monitor.Cli.RegisterCommand | monitor.go:45-55 | the command is stored under its name and replaces any earlier one; no other entry changes; every entry stays under its own name |
| Monitor.Cli.ListCommands | monitor.go:58-69 | the text starts with the heading (and is only the heading when nothing is registered), then one row per registered command, each command exactly once, in some order |
| Monitor.Cli.ExitMonitor | monitor.go:202-211 | writes "Disconnected!" to the connected serial and clears its entry in the CLI's diversion map |
| Monitor.Cli.RunHandler | monitor.go:134-135 | running a registered command writes exactly its reply, records exactly its formatting call, and only `exit` touches the diversion map |
| Monitor.Cli.SendHelp | monitor.go:124-127 | the heading and one row per registered command, each exactly once in some order, are written to the connected serial |
| Monitor.Cli.Perform | monitor.go:122-141 | the bytes written, calls made, quit signals and diversion map change exactly as the action prescribes: help writes the listing, quit signals once, an unknown name gets the reply, a command runs its handler |
| Monitor.Cli.ParseInput | monitor.go:115-142 | the line is handled by the action `Dispatch` decides, with exactly that action's effects: blank lines do nothing; help writes a listing of every command; quit signals once; unknown names get the unknown-command reply; a registered command runs its handler |
| Monitor.Cli.InputLoop | monitor.go:92-112 | the lines handed to `parseInput` are exactly the carriage-return-terminated lines of the stream, in order, and the rest stays buffered; the bytes written, calls, quit signals and diversion map are exactly those of handling those lines one after another |
| Router.Step | main.go:253-281 | a step writes at most two bytes, two only when a held escape byte is released before the current byte; a warning comes only when the monitor is in use, alone, and changes nothing; a step diverts at most the current DTE and wires the monitor output only to it |
| Router.StepForwardsPlainByte | main.go:277-281 | a byte outside any escape sequence is written once, to the DCE's input or, for a diverted DTE, to the monitor's input |
| Router.RunAppend | main.go:251-253 | processing two streams one after the other is processing their concatenation |
| Router.PlainStreamReachesDce | main.go:277-278 | a non-diverted DTE's bytes without escape bytes all reach the DCE's input, once each, in order |
| Router.DivertedStreamReachesMonitor | main.go:279-280 | a diverted DTE's bytes, escape bytes included, all reach the monitor's input, once each, in order |
| Router.HeldEscapeGoesToDceOutput | main.go:271-274 | a broken escape sequence writes the held byte to the DCE's output channel, then the current byte to the DCE's input |
| Router.EscapeSequenceAttaches | main.go:255-265 | with the monitor free, the escape sequence diverts the DTE, wires the monitor's output to it, writes nothing, and leaves `escaped` set |
| Router.EscapeSequenceWhileUsedWarns | main.go:266-268 | with the monitor in use, the escape sequence only warns and leaves `escaped` set |
| Router.AttachLeavesEscapeHeld | main.go:259-273 | after attaching, the next byte other than the second escape byte releases a spurious escape byte to the DCE's output |
| Router.EscapeFlagIsShared | main.go:244-265 | a first escape byte from one DTE and a second from another divert the second DTE |
| Router.LoneSecondByteAttaches | main.go:255-265 | after one DTE attaches, a second escape byte alone from another DTE attaches that DTE as well, writing nothing |
| Router.SecondDteAlsoAttaches | main.go:261-265 | attaching is not exclusive: a second DTE can attach after the first and take the monitor's output |
| Router.TwoDteScenario | main.go:253-281 | for escape bytes 0x1B 0x54: DTE 1 attaches; DTE 2's escape sequence then reaches the DCE instead of warning |
| Router.TunnelManager.constructor | main.go:243-246 | nothing held, no DTE diverted |
| Router.TunnelManager.OnDteByte | main.go:253-281 | the new fields and the writes are exactly one `Step` from the old state |
| Router.TunnelManager.OnDceByte | main.go:294-298 | the byte is written to every DTE's input, once per DTE entry, in DTE order, whatever the diversion state |

## Left out

- Serial port I/O (`SerialManager`, device opening, speed and framing). The model starts and ends at the byte channels.
- JSON decoding and file reading in `initialize`. `Initialize` receives the decoded serial and tunnel records. Decoding errors are not modelled.
- Goroutines, channel blocking and the unsynchronised sharing of `escaped` and the diversion map between DTE loops. The model runs steps one at a time, in any interleaving the caller chooses. It claims nothing about atomicity or data races.
- Shutdown: the `RTERMINATE` and `CONTROL` cases of the router loops, and the `quit` case of `inputLoop`. The `quit` send at `monitor.go:128` goes to a channel nobody else reads, so in the program it would block. The model counts the signal instead.
- The tunnel's `QuitRequest` and `MonitorChan` channels: `initialize` creates them and nothing in the core uses them.
- Logging. The "monitor already used" warning appears only as the event `MonitorBusy`.
- Monitor.Cli.ParseInput: the output text of `testHandler` and `showCurrentTunnelID` is not rendered. Both format their arguments with `%v`, so they are recorded as calls with their arguments.
- Configuration.ConfigError: carries the tunnel ID, not the rendered error message.
- Words.Fields: recognises only ASCII white space (tab, line feed, vertical tab, form feed, carriage return, space). It does not recognise the Unicode spaces `strings.Fields` also splits on.
- Monitor.PadRight: pads by bytes, where `%-15s` counts runes. The two differ only for non-ASCII names.
- Monitor.Cli.ListCommands: Go's map iteration order is unspecified, so the listing is fixed only up to an enumeration of the registered names.
- The `registerMu` mutex, `Run`, and the CLI's `tconnected` and `ConnectedID` fields, which the core never reads in a way that affects its output.
