/** The tunnel router (`TunnelManager` in main.go:243-304): the body of the
    per-DTE loop, which runs each byte through the escape-sequence detector
    and routes it, and the body of the DCE loop, which broadcasts each DCE
    byte to every DTE.

    The DTE loops of one tunnel run concurrently and share the `escaped`
    flag and the `DTEToMonitor` map without synchronisation; the model runs
    their steps one after another, in any interleaving the caller chooses,
    and claims nothing about atomicity. Channel writes are recorded as
    events, in the order they are made. */
module Router {
  import opened Basics
  import Monitor

  /** A write the router makes. `DceOutput` is the DCE's output channel,
      the one the DCE loop reads from: the held first escape byte is sent
      there (main.go:272), not to the DCE's input. `MonitorBusy` is the
      warning logged when the monitor is in use. */
  datatype Event =
    | DceInput(b: Byte)
    | DceOutput(b: Byte)
    | MonitorInput(b: Byte)
    | MonitorBusy(dte: int)

  /** The tunnel's escape sequence (`EscapeChar1`, `EscapeChar2`). */
  datatype Escapes = Escapes(first: Byte, second: Byte)

  /** The routing state: the tunnel-wide `escaped` flag, the tunnel's
      `DTEToMonitor` map, and the serial (by ID) whose input channel the
      monitor's `stdout` points to. */
  datatype Switch = Switch(escaped: bool, diverted: map<int, bool>, stdout: Option<int>)

  /** `DTEToMonitor[dte]`, which reads false for a missing key. */
  predicate IsDiverted(s: Switch, dte: int)
  {
    dte in s.diverted && s.diverted[dte]
  }

  /** main.go:277-281: a byte goes to the DCE's input, or to the monitor's
      input when the DTE is diverted. */
  function Route(s: Switch, dte: int, b: Byte): Event
  {
    if IsDiverted(s, dte) then MonitorInput(b) else DceInput(b)
  }

  datatype Outcome = Outcome(next: Switch, events: seq<Event>)

  /** One iteration of the DTE loop (main.go:253-281) for byte `b` from
      the DTE with ID `dte`; `used` is the monitor's `Used` flag. A matched
      second escape byte leaves `escaped` set: the `continue`s at
      main.go:265 and main.go:268 skip the reset at main.go:270.

      A step writes at most two bytes; the only step that writes two
      releases a held first escape byte before the current byte, and a step
      that warns writes nothing else and changes nothing. The only change to
      the diversion map is diverting the sender, and the monitor's output is
      only ever wired to the sender. */
  function Step(e: Escapes, used: bool, s: Switch, dte: int, b: Byte): (o: Outcome)
    ensures |o.events| <= 2
    ensures |o.events| == 2 ==> s.escaped && !o.next.escaped && o.events == [DceOutput(e.first), Route(s, dte, b)]
    ensures MonitorBusy(dte) in o.events ==> used && o.events == [MonitorBusy(dte)] && o.next == s
    ensures o.next.diverted == s.diverted || o.next.diverted == s.diverted[dte := true]
    ensures o.next.stdout == s.stdout || o.next.stdout == Some(dte)
  {
    if b == e.first && !s.escaped && !IsDiverted(s, dte) then
      Outcome(s.(escaped := true), [])
    else if s.escaped && b == e.second then
      if !used then Outcome(s.(diverted := s.diverted[dte := true], stdout := Some(dte)), [])
      else Outcome(s, [MonitorBusy(dte)])
    else if s.escaped then
      Outcome(s.(escaped := false), [DceOutput(e.first), Route(s, dte, b)])
    else
      Outcome(s, [Route(s, dte, b)])
  }

  /** A byte read from a DTE's output channel. */
  datatype Arrival = Arrival(dte: int, b: Byte)

  /** The bytes `bs`, all from one DTE. */
  function From(dte: int, bs: seq<Byte>): (r: seq<Arrival>)
    ensures |r| == |bs|
    ensures forall i | 0 <= i < |bs| :: r[i] == Arrival(dte, bs[i])
  {
    seq(|bs|, i requires 0 <= i < |bs| => Arrival(dte, bs[i]))
  }

  /** The steps for a sequence of arrivals, in order; the events are
      concatenated. */
  function Run(e: Escapes, used: bool, s: Switch, arrivals: seq<Arrival>): Outcome
    decreases |arrivals|
  {
    if arrivals == [] then Outcome(s, [])
    else
      var first := Step(e, used, s, arrivals[0].dte, arrivals[0].b);
      var rest := Run(e, used, first.next, arrivals[1..]);
      Outcome(rest.next, first.events + rest.events)
  }

  /** A byte that does not start an escape and arrives while nothing is
      held is written exactly once, to the DCE or, for a diverted DTE, to
      the monitor; the state does not change. */
  lemma StepForwardsPlainByte(e: Escapes, used: bool, s: Switch, dte: int, b: Byte)
    requires !s.escaped
    requires b != e.first || IsDiverted(s, dte)
    ensures Step(e, used, s, dte, b) == Outcome(s, [if IsDiverted(s, dte) then MonitorInput(b) else DceInput(b)])
  {
  }

  /** Splitting the arrivals splits the run. */
  lemma {:induction false} RunAppend(e: Escapes, used: bool, s: Switch, xs: seq<Arrival>, ys: seq<Arrival>)
    ensures var a := Run(e, used, s, xs);
      var b := Run(e, used, a.next, ys);
      Run(e, used, s, xs + ys) == Outcome(b.next, a.events + b.events)
    decreases |xs|
  {
    if xs != [] {
      assert (xs + ys)[1..] == xs[1..] + ys;
      var first := Step(e, used, s, xs[0].dte, xs[0].b);
      RunAppend(e, used, first.next, xs[1..], ys);
    } else {
      assert xs + ys == ys;
    }
  }

  /** Order preservation: a DTE that is not diverted, sending no first
      escape byte while nothing is held, has every byte written to the
      DCE's input, once each, in order. */
  lemma {:induction false} PlainStreamReachesDce(e: Escapes, used: bool, s: Switch, dte: int, bs: seq<Byte>)
    requires !s.escaped && !IsDiverted(s, dte)
    requires forall i | 0 <= i < |bs| :: bs[i] != e.first
    ensures Run(e, used, s, From(dte, bs)) == Outcome(s, seq(|bs|, i requires 0 <= i < |bs| => DceInput(bs[i])))
    decreases |bs|
  {
    if bs != [] {
      assert From(dte, bs)[1..] == From(dte, bs[1..]);
      PlainStreamReachesDce(e, used, s, dte, bs[1..]);
      var expected := seq(|bs|, i requires 0 <= i < |bs| => DceInput(bs[i]));
      assert expected == [DceInput(bs[0])] + seq(|bs| - 1, i requires 0 <= i < |bs| - 1 => DceInput(bs[1..][i]));
    }
  }

  /** A diverted DTE, while nothing is held, has every byte (escape bytes
      included) written to the monitor's input, once each, in order. */
  lemma {:induction false} DivertedStreamReachesMonitor(e: Escapes, used: bool, s: Switch, dte: int, bs: seq<Byte>)
    requires !s.escaped && IsDiverted(s, dte)
    ensures Run(e, used, s, From(dte, bs)) == Outcome(s, seq(|bs|, i requires 0 <= i < |bs| => MonitorInput(bs[i])))
    decreases |bs|
  {
    if bs != [] {
      assert From(dte, bs)[1..] == From(dte, bs[1..]);
      DivertedStreamReachesMonitor(e, used, s, dte, bs[1..]);
      var expected := seq(|bs|, i requires 0 <= i < |bs| => MonitorInput(bs[i]));
      assert expected == [MonitorInput(bs[0])] + seq(|bs| - 1, i requires 0 <= i < |bs| - 1 => MonitorInput(bs[1..][i]));
    }
  }

  /** A first escape byte followed by anything but the second: the held
      byte is released to the DCE's output channel, then the second byte
      goes to the DCE's input, and the state is as before. */
  lemma HeldEscapeGoesToDceOutput(e: Escapes, used: bool, s: Switch, dte: int, b: Byte)
    requires !s.escaped && !IsDiverted(s, dte)
    requires b != e.second
    ensures Run(e, used, s, From(dte, [e.first, b])) == Outcome(s, [DceOutput(e.first), DceInput(b)])
  {
    var xs := From(dte, [e.first, b]);
    assert xs == [Arrival(dte, e.first)] + [Arrival(dte, b)];
    RunAppend(e, used, s, [Arrival(dte, e.first)], [Arrival(dte, b)]);
  }

  /** The escape sequence while the monitor is free: the DTE is diverted
      and the monitor's output is wired to it, nothing is written, and
      `escaped` stays set. */
  lemma EscapeSequenceAttaches(e: Escapes, s: Switch, dte: int)
    requires !s.escaped && !IsDiverted(s, dte)
    ensures Run(e, false, s, From(dte, [e.first, e.second])) ==
      Outcome(Switch(true, s.diverted[dte := true], Some(dte)), [])
  {
    var xs := From(dte, [e.first, e.second]);
    assert xs == [Arrival(dte, e.first)] + [Arrival(dte, e.second)];
    RunAppend(e, false, s, [Arrival(dte, e.first)], [Arrival(dte, e.second)]);
  }

  /** The escape sequence while the monitor is in use: only a warning;
      diversion and stdout are untouched and `escaped` stays set. */
  lemma EscapeSequenceWhileUsedWarns(e: Escapes, s: Switch, dte: int)
    requires !s.escaped && !IsDiverted(s, dte)
    ensures Run(e, true, s, From(dte, [e.first, e.second])) ==
      Outcome(s.(escaped := true), [MonitorBusy(dte)])
  {
    var xs := From(dte, [e.first, e.second]);
    assert xs == [Arrival(dte, e.first)] + [Arrival(dte, e.second)];
    RunAppend(e, true, s, [Arrival(dte, e.first)], [Arrival(dte, e.second)]);
  }

  /** Because `escaped` is left set after attaching, the next byte that is
      not the second escape byte, from any DTE, first releases a spurious
      first escape byte to the DCE's output channel. */
  lemma AttachLeavesEscapeHeld(e: Escapes, s: Switch, dte: int, other: int, b: Byte)
    requires !s.escaped && !IsDiverted(s, dte)
    requires b != e.second
    ensures var attached := Run(e, false, s, From(dte, [e.first, e.second]));
      Step(e, false, attached.next, other, b).events ==
        [DceOutput(e.first), Route(attached.next, other, b)]
  {
    EscapeSequenceAttaches(e, s, dte);
  }

  /** The flag is shared by the tunnel's DTE loops: a first escape byte
      from one DTE and a second from another divert the second DTE. */
  lemma EscapeFlagIsShared(e: Escapes, s: Switch, a: int, b: int)
    requires !s.escaped && !IsDiverted(s, a)
    ensures Run(e, false, s, [Arrival(a, e.first), Arrival(b, e.second)]) ==
      Outcome(Switch(true, s.diverted[b := true], Some(b)), [])
  {
    RunAppend(e, false, s, [Arrival(a, e.first)], [Arrival(b, e.second)]);
  }

  /** `Used` is never set, so attaching is not exclusive: after DTE `a`
      attaches, DTE `b` typing the first escape byte (released, together
      with itself, as the held sequence is broken) and then the escape
      sequence also attaches and takes the monitor's output. */
  lemma SecondDteAlsoAttaches(e: Escapes, s: Switch, a: int, b: int)
    requires e.first != e.second
    requires !s.escaped && !IsDiverted(s, a) && !IsDiverted(s, b) && a != b
    ensures var r := Run(e, false, s, From(a, [e.first, e.second]) + From(b, [e.first, e.first, e.second]));
      && r.events == [DceOutput(e.first), DceInput(e.first)]
      && IsDiverted(r.next, a) && IsDiverted(r.next, b)
      && r.next.stdout == Some(b)
  {
    var s1 := Switch(true, s.diverted[a := true], Some(a));
    EscapeSequenceAttaches(e, s, a);
    RunAppend(e, false, s, From(a, [e.first, e.second]), From(b, [e.first, e.first, e.second]));
    var bs := From(b, [e.first, e.first, e.second]);
    assert bs == [Arrival(b, e.first)] + From(b, [e.first, e.second]);
    RunAppend(e, false, s1, [Arrival(b, e.first)], From(b, [e.first, e.second]));
    var s2 := s1.(escaped := false);
    assert !IsDiverted(s2, b);
    EscapeSequenceAttaches(e, s2, b);
  }

  /** Because `escaped` stays set after an attach, any other DTE attaches
      by typing the second escape byte alone: nothing is written, the
      sender is diverted and the monitor's output is wired to it. */
  lemma LoneSecondByteAttaches(e: Escapes, s: Switch, a: int, b: int)
    requires !s.escaped && !IsDiverted(s, a)
    ensures Run(e, false, s, From(a, [e.first, e.second]) + From(b, [e.second])) ==
      Outcome(Switch(true, s.diverted[a := true][b := true], Some(b)), [])
  {
    EscapeSequenceAttaches(e, s, a);
    RunAppend(e, false, s, From(a, [e.first, e.second]), From(b, [e.second]));
    assert From(b, [e.second]) == [Arrival(b, e.second)];
  }

  /** The two-DTE scenario with escape bytes 0x1B, 0x54 and monitor free:
      DTE 1 sends 0x41 0x1B 0x54, then DTE 2 sends 0x1B 0x54. DTE 1 is
      diverted; DTE 2 is neither warned nor diverted, and because the
      escape was left held, its 0x1B reaches the DCE's output channel and
      its input, followed by 0x54. */
  lemma TwoDteScenario()
    ensures var r := Run(Escapes(0x1B, 0x54), false, Switch(false, map[], None),
                         From(1, [0x41, 0x1B, 0x54]) + From(2, [0x1B, 0x54]));
      && r.events == [DceInput(0x41), DceOutput(0x1B), DceInput(0x1B), DceInput(0x54)]
      && r.next == Switch(false, map[1 := true], Some(1))
  {
    var e, s0 := Escapes(0x1B, 0x54), Switch(false, map[], None);
    var xs := From(1, [0x41, 0x1B, 0x54]);
    assert xs == From(1, [0x41]) + From(1, [0x1B, 0x54]);
    RunAppend(e, false, s0, xs, From(2, [0x1B, 0x54]));
    RunAppend(e, false, s0, From(1, [0x41]), From(1, [0x1B, 0x54]));
    EscapeSequenceAttaches(e, s0, 1);
    var s1 := Switch(true, map[1 := true], Some(1));
    assert From(2, [0x1B, 0x54]) == [Arrival(2, 0x1B)] + [Arrival(2, 0x54)];
    RunAppend(e, false, s1, [Arrival(2, 0x1B)], [Arrival(2, 0x54)]);
  }

  /** A write to a DTE's input channel. */
  datatype Delivery = Delivery(dte: int, b: Byte)

  /** The per-tunnel router. `escaped` and `diverted` are the variables
      the DTE loops share; the monitor is the single CLI object every
      tunnel is given. */
  class TunnelManager {
    const escapes: Escapes
    /** IDs of the tunnel's DTEs, in `tunnel.DTE` order. */
    const dtes: seq<int>
    const monitor: Monitor.Cli
    var escaped: bool
    var diverted: map<int, bool>

    /** main.go:244-246. */
    constructor (escapes: Escapes, dtes: seq<int>, monitor: Monitor.Cli)
      ensures this.escapes == escapes && this.dtes == dtes && this.monitor == monitor
      ensures !escaped && diverted == map[]
    {
      this.escapes := escapes;
      this.dtes := dtes;
      this.monitor := monitor;
      escaped := false;
      diverted := map[];
    }

    /** The routing state as the step function sees it. */
    function State(): Switch
      reads this, monitor
    {
      Switch(escaped, diverted, monitor.stdout)
    }

    /** One iteration of a DTE loop (main.go:253-281). */
    method OnDteByte(dte: int, data: Byte) returns (events: seq<Event>)
      modifies this, monitor`stdout
      ensures Outcome(State(), events) == Step(escapes, monitor.used, old(State()), dte, data)
    {
      events := [];
      if data == escapes.first && !escaped && !(dte in diverted && diverted[dte]) {
        escaped := true;
        return;
      }
      if escaped {
        if data == escapes.second {
          if !monitor.used {
            diverted := diverted[dte := true];
            monitor.stdout := Some(dte);
            return;
          } else {
            events := [MonitorBusy(dte)];
            return;
          }
        } else {
          events := [DceOutput(escapes.first)];
          escaped := false;
        }
      }
      if !(dte in diverted && diverted[dte]) {
        events := events + [DceInput(data)];
      } else {
        events := events + [MonitorInput(data)];
      }
    }

    /** One iteration of the DCE loop (main.go:294-298): the byte is
        written to every DTE's input, once per entry of the DTE list and in
        that order, whatever the diversion state. */
    method OnDceByte(data: Byte) returns (deliveries: seq<Delivery>)
      ensures |deliveries| == |dtes|
      ensures forall k | 0 <= k < |dtes| :: deliveries[k] == Delivery(dtes[k], data)
    {
      deliveries := [];
      for k := 0 to |dtes|
        invariant |deliveries| == k
        invariant forall j | 0 <= j < k :: deliveries[j] == Delivery(dtes[j], data)
      {
        deliveries := deliveries + [Delivery(dtes[k], data)];
      }
    }
  }
}
