/** Reference resolution of the tunnel configuration (`initialize` in
    main.go), starting from the already-decoded serial and tunnel records.

    A Go `*Serial` that points into the decoded serial slice is modelled by
    the index of the element it points to, so two tunnels that name the same
    serial share it exactly as the pointers do. */
module Configuration {
  import opened Basics

  /** Indices of the five channels every serial carries (main.go:22-28). */
  const CONTROL: nat := 0
  const CINPUT: nat := 1
  const COUTPUT: nat := 2
  const RTERMINATE: nat := 3
  const STERMINATE: nat := 4
  const CHANNEL_COUNT: nat := 5

  /** A channel value: the zero value `nil`, or the channel made for one
      slot of one serial (each `make(chan byte)` yields a new channel, and
      the pair identifies it). */
  datatype Chan = NilChan | Chan(owner: nat, slot: nat)

  /** A serial endpoint, DTE or DCE (main.go:37-46). The transport settings
      are carried along untouched. */
  datatype Serial = Serial(
    id: int,
    description: string,
    channels: seq<Chan>,
    dev: string,
    speed: int,
    bits: int,
    parity: int,
    stop: int)

  /** A tunnel as decoded from the file: serials are named by ID
      (main.go:66-75). */
  datatype TunnelRecord = TunnelRecord(
    id: int,
    description: string,
    dte: seq<int>,
    dce: int,
    escape1: Byte,
    escape2: Byte)

  /** A resolved tunnel (main.go:49-58): `dce` and every `Some` in `dte` are
      indices into the configuration's serials; `None` is a nil pointer. */
  datatype Tunnel = Tunnel(
    id: int,
    description: string,
    dte: seq<Option<nat>>,
    dce: nat,
    escape1: Byte,
    escape2: Byte)

  datatype Config = Config(serials: seq<Serial>, tunnels: seq<Tunnel>)

  /** The two reference errors. Each carries the number the message prints:
      "cant find DCE reference in tunnel %d" prints the tunnel's ID, and so
      does "serial instance with ID %d not found" (main.go:137 passes the
      tunnel's `s.ID`, not the missing serial ID). */
  datatype ConfigError = DceNotFound(tunnel: int) | DteNotFound(tunnel: int)

  /** `i` is the last position of the list whose serial has ID `id`. */
  ghost predicate IsLastWithId(serials: seq<Serial>, i: nat, id: int)
  {
    i < |serials| && serials[i].id == id &&
    forall j | i < j < |serials| :: serials[j].id != id
  }

  /** The ID map built at main.go:100-103: every ID that occurs maps to the
      position of the last serial carrying it. */
  function IdMap(serials: seq<Serial>): (m: map<int, nat>)
    ensures forall i | 0 <= i < |serials| :: serials[i].id in m
    ensures forall id | id in m :: IsLastWithId(serials, m[id], id)
  {
    if serials == [] then map[]
    else
      var n := |serials| - 1;
      var m0 := IdMap(serials[..n]);
      assert forall id | id in m0 :: IsLastWithId(serials[..n], m0[id], id);
      m0[serials[n].id := n]
  }

  /** Every ID in the list is a key of the map. */
  predicate Known(ids: seq<int>, m: map<int, nat>)
  {
    forall k | 0 <= k < |ids| :: ids[k] in m
  }

  /** The ID of the first tunnel whose DCE is unknown. */
  function FirstMissingDce(records: seq<TunnelRecord>, m: map<int, nat>): (r: Option<int>)
    ensures r == None <==> forall j | 0 <= j < |records| :: records[j].dce in m
    ensures r.Some? ==> exists j | 0 <= j < |records| ::
      records[j].dce !in m && r.value == records[j].id &&
      forall x | 0 <= x < j :: records[x].dce in m
  {
    if records == [] then None
    else if records[0].dce !in m then Some(records[0].id)
    else
      var r := FirstMissingDce(records[1..], m);
      assert forall j | 1 <= j < |records| :: records[j] == records[1..][j - 1];
      r
  }

  /** The ID of the first tunnel listing an unknown DTE. */
  function FirstMissingDte(records: seq<TunnelRecord>, m: map<int, nat>): (r: Option<int>)
    ensures r == None <==> forall j | 0 <= j < |records| :: Known(records[j].dte, m)
    ensures r.Some? ==> exists j | 0 <= j < |records| ::
      !Known(records[j].dte, m) && r.value == records[j].id &&
      forall x | 0 <= x < j :: Known(records[x].dte, m)
  {
    if records == [] then None
    else if !Known(records[0].dte, m) then Some(records[0].id)
    else
      var r := FirstMissingDte(records[1..], m);
      assert forall j | 1 <= j < |records| :: records[j] == records[1..][j - 1];
      r
  }

  /** The tunnel built from a record once its DCE is resolved and the first
      `upto` DTE slots are linked; the later slots are still nil. */
  function Link(t: TunnelRecord, m: map<int, nat>, upto: nat): Tunnel
    requires t.dce in m
    requires upto <= |t.dte|
    requires forall k | 0 <= k < upto :: t.dte[k] in m
  {
    Tunnel(t.id, t.description,
           seq(|t.dte|, k requires 0 <= k < |t.dte| => if k < upto then Some(m[t.dte[k]]) else None),
           m[t.dce], t.escape1, t.escape2)
  }

  /** Every DCE of the records is a key of the map. */
  predicate DcesKnown(records: seq<TunnelRecord>, m: map<int, nat>)
  {
    forall j | 0 <= j < |records| :: records[j].dce in m
  }

  /** Every DTE of the records is a key of the map. */
  predicate DtesKnown(records: seq<TunnelRecord>, m: map<int, nat>)
  {
    forall j | 0 <= j < |records| :: Known(records[j].dte, m)
  }

  /** The tunnels of main.go:107-122: DCE resolved, every DTE slot nil. */
  function Shells(records: seq<TunnelRecord>, m: map<int, nat>): seq<Tunnel>
    requires DcesKnown(records, m)
  {
    seq(|records|, j requires 0 <= j < |records| => Link(records[j], m, 0))
  }

  /** The tunnels with every DTE slot linked. */
  function Linked(records: seq<TunnelRecord>, m: map<int, nat>): seq<Tunnel>
    requires DcesKnown(records, m) && DtesKnown(records, m)
  {
    seq(|records|, j requires 0 <= j < |records| => Link(records[j], m, |records[j].dte|))
  }

  /** The five fresh channels given to the serial at position `i`
      (main.go:147-153). */
  function FreshChannels(i: nat): seq<Chan>
  {
    [Chan(i, CONTROL), Chan(i, CINPUT), Chan(i, COUTPUT), Chan(i, RTERMINATE), Chan(i, STERMINATE)]
  }

  /** The serials once each has its channels. */
  function WithChannels(serials: seq<Serial>): seq<Serial>
  {
    seq(|serials|, i requires 0 <= i < |serials| => serials[i].(channels := FreshChannels(i)))
  }

  /** What `initialize` returns, stated declaratively: every DCE reference
      is checked before any DTE reference, and the first failing tunnel
      names the error. Resolution fails exactly when some tunnel names an
      unknown DCE or an unknown DTE, and the DCE error wins whenever one
      exists. */
  function Resolve(serials: seq<Serial>, records: seq<TunnelRecord>): (r: Result<Config, ConfigError>)
    ensures r.Failure? <==> !DcesKnown(records, IdMap(serials)) || !DtesKnown(records, IdMap(serials))
    ensures r.Failure? && r.error.DceNotFound? <==> !DcesKnown(records, IdMap(serials))
  {
    var m := IdMap(serials);
    match FirstMissingDce(records, m)
    case Some(id) => Failure(DceNotFound(id))
    case None =>
      match FirstMissingDte(records, m)
      case Some(id) => Failure(DteNotFound(id))
      case None => Success(Config(WithChannels(serials), Linked(records, m)))
  }

  /** The error names the first failing tunnel, by the tunnel's own ID: the
      first with an unknown DCE, or, when all DCEs are known, the first with
      an unknown DTE. */
  lemma ResolveNamesFirstFailingTunnel(serials: seq<Serial>, records: seq<TunnelRecord>)
    ensures var r, m := Resolve(serials, records), IdMap(serials);
      r.Failure? ==> exists j | 0 <= j < |records| ::
        && r.error.tunnel == records[j].id
        && (if r.error.DceNotFound?
            then records[j].dce !in m && forall x | 0 <= x < j :: records[x].dce in m
            else DcesKnown(records, m) && !Known(records[j].dte, m) &&
                 forall x | 0 <= x < j :: Known(records[x].dte, m))
  {
  }

  /** On success the tunnels keep their order, IDs, descriptions and escape
      bytes; the DCE and every DTE slot point at the last listed serial with
      the requested ID; every serial gets its own fresh channels. */
  lemma ResolveLinksLastListedSerial(serials: seq<Serial>, records: seq<TunnelRecord>)
    ensures var r := Resolve(serials, records);
      r.Success? ==>
        && r.value.serials == WithChannels(serials)
        && |r.value.tunnels| == |records|
        && forall j | 0 <= j < |records| ::
             var t, rec := r.value.tunnels[j], records[j];
             && t.id == rec.id && t.description == rec.description
             && t.escape1 == rec.escape1 && t.escape2 == rec.escape2
             && IsLastWithId(serials, t.dce, rec.dce)
             && |t.dte| == |rec.dte|
             && forall k | 0 <= k < |rec.dte| ::
                  t.dte[k].Some? && IsLastWithId(serials, t.dte[k].value, rec.dte[k])
  {
  }

  /** No two channel slots of the configuration share a channel. */
  lemma ChannelsAreDistinct(serials: seq<Serial>, i: nat, a: nat, j: nat, b: nat)
    requires i < |serials| && j < |serials| && a < CHANNEL_COUNT && b < CHANNEL_COUNT
    requires (i, a) != (j, b)
    ensures |WithChannels(serials)[i].channels| == CHANNEL_COUNT
    ensures WithChannels(serials)[i].channels[a] != WithChannels(serials)[j].channels[b]
  {
  }

  /** main.go:100-103: hash the serials by ID, later records overwriting
      earlier ones. */
  method HashSerials(serials: seq<Serial>) returns (m: map<int, nat>)
    ensures m == IdMap(serials)
  {
    m := map[];
    for i := 0 to |serials|
      invariant m == IdMap(serials[..i])
    {
      assert serials[..i + 1][..i] == serials[..i];
      m := m[serials[i].id := i];
    }
    assert serials[..|serials|] == serials;
  }

  /** main.go:107-122: build one tunnel per record around its resolved
      DCE, returning the error for the first unknown DCE. */
  method BuildShells(records: seq<TunnelRecord>, m: map<int, nat>) returns (r: Result<seq<Tunnel>, ConfigError>)
    ensures r.Failure? <==> !DcesKnown(records, m)
    ensures r.Failure? ==> FirstMissingDce(records, m) == Some(r.error.tunnel) && r.error.DceNotFound?
    ensures r.Success? ==> r.value == Shells(records, m)
  {
    var tunnels: seq<Tunnel> := [];
    for j := 0 to |records|
      invariant FirstMissingDce(records, m) == FirstMissingDce(records[j..], m)
      invariant |tunnels| == j
      invariant forall x | 0 <= x < j :: records[x].dce in m && tunnels[x] == Link(records[x], m, 0)
    {
      assert records[j..][1..] == records[j + 1..];
      if records[j].dce in m {
        tunnels := tunnels + [Link(records[j], m, 0)];
      } else {
        return Failure(DceNotFound(records[j].id));
      }
    }
    return Success(tunnels);
  }

  /** The innermost loop of main.go:129-139 for one tunnel: link each DTE
      slot in turn, stopping at the first unknown ID. On the first pass the
      slots start nil; on later passes they already hold the same links. */
  method LinkTunnel(s: TunnelRecord, m: map<int, nat>, t: Tunnel, firstPass: bool) returns (r: Option<Tunnel>)
    requires s.dce in m
    requires !firstPass ==> Known(s.dte, m)
    requires t == Link(s, m, if firstPass then 0 else |s.dte|)
    ensures r.Some? <==> Known(s.dte, m)
    ensures r.Some? ==> r.value == Link(s, m, |s.dte|)
  {
    var cur := t;
    for k := 0 to |s.dte|
      invariant forall y | 0 <= y < k :: s.dte[y] in m
      invariant cur == Link(s, m, if firstPass then k else |s.dte|)
    {
      var d := s.dte[k];
      if d in m {
        ghost var next := Link(s, m, if firstPass then k + 1 else |s.dte|);
        assert cur.dte[k := Some(m[d])] == next.dte;
        cur := cur.(dte := cur.dte[k := Some(m[d])]);
      } else {
        return None;
      }
    }
    return Some(cur);
  }

  /** main.go:125-141: for every tunnel (the outer loop), for every tunnel
      `j`, link the DTEs of tunnel `j`. Only the first outer pass can fail;
      the later passes rewrite identical pointers. */
  method LinkDtes(records: seq<TunnelRecord>, m: map<int, nat>, shells: seq<Tunnel>) returns (r: Result<seq<Tunnel>, ConfigError>)
    requires DcesKnown(records, m)
    requires shells == Shells(records, m)
    ensures r.Failure? <==> !DtesKnown(records, m)
    ensures r.Failure? ==> FirstMissingDte(records, m) == Some(r.error.tunnel) && r.error.DteNotFound?
    ensures r.Success? ==> DtesKnown(records, m) && r.value == Linked(records, m)
  {
    var tunnels := shells;
    var n := |records|;
    for i := 0 to n
      invariant i > 0 ==> DtesKnown(records, m)
      invariant |tunnels| == n
      invariant forall x | 0 <= x < n ::
        tunnels[x] == Link(records[x], m, if i > 0 then |records[x].dte| else 0)
    {
      for j := 0 to n
        invariant i == 0 ==> FirstMissingDte(records, m) == FirstMissingDte(records[j..], m)
        invariant i == 0 ==> forall x | 0 <= x < j :: Known(records[x].dte, m)
        invariant |tunnels| == n
        invariant forall x | 0 <= x < n ::
          tunnels[x] == Link(records[x], m, if i > 0 || x < j then |records[x].dte| else 0)
      {
        assert records[j..][1..] == records[j + 1..];
        var linked := LinkTunnel(records[j], m, tunnels[j], i == 0);
        if linked.None? {
          return Failure(DteNotFound(records[j].id));
        }
        tunnels := tunnels[j := linked.value];
      }
    }
    return Success(tunnels);
  }

  /** main.go:146-154: give every serial its five channels, in place. */
  method MakeChannels(serials: seq<Serial>) returns (out: seq<Serial>)
    ensures out == WithChannels(serials)
  {
    out := serials;
    for i := 0 to |out|
      invariant |out| == |serials|
      invariant forall x | 0 <= x < |out| ::
        out[x] == if x < i then serials[x].(channels := FreshChannels(x)) else serials[x]
    {
      out := out[i := out[i].(channels := FreshChannels(i))];
    }
  }

  /** `initialize` after JSON decoding (main.go:100-159). */
  method Initialize(serials: seq<Serial>, records: seq<TunnelRecord>) returns (r: Result<Config, ConfigError>)
    ensures r == Resolve(serials, records)
  {
    var m := HashSerials(serials);
    var shells := BuildShells(records, m);
    if shells.Failure? {
      return Failure(shells.error);
    }
    var tunnels := LinkDtes(records, m, shells.value);
    if tunnels.Failure? {
      return Failure(tunnels.error);
    }
    var out := MakeChannels(serials);
    return Success(Config(out, tunnels.value));
  }
}
