/**
 * The C++ `NetFilter` wrapper around the iptables helpers: static
 * functions that take the global ruleset lock, call the C function and
 * map its result. The ruleset is the `IpTables` object the C helpers
 * work on; the lock (an flock on the xtables lock file) is not modelled.
 */
module NetFilter {
  import opened Core
  import opened NetFilterUtils

  /** `NetFilter::Protocol`: the enumerators carry the IP protocol numbers. */
  datatype Protocol = Tcp | Udp

  function ProtocolNumber(p: Protocol): (r: int)
    ensures IsTcpUdp(r)
    ensures r == IPPROTO_TCP <==> p == Tcp
  {
    match p
    case Tcp => IPPROTO_TCP
    case Udp => IPPROTO_UDP
  }

  /** `NetFilter::PortForward`. */
  datatype PortForward = PortForward(protocol: Protocol, externalPort: Port, containerPort: Port)

  /** The size of the entry array `getContainerPortForwardList` passes down. */
  const MAX_PORT_FORWARDS: nat := 32

  /** The `switch` on one hole-punch entry: tcp and udp convert, anything else is dropped. */
  function Converted(x: HolePunchEntry): (r: Option<PortForward>)
    ensures r.Some? <==> IsTcpUdp(x.protocol)
    ensures r.Some? ==> Back(r.value) == x
  {
    if x.protocol == IPPROTO_TCP then Some(PortForward(Tcp, x.publicPort, x.containerPort))
    else if x.protocol == IPPROTO_UDP then Some(PortForward(Udp, x.publicPort, x.containerPort))
    else None
  }

  /** The hole-punch entry a port forward stands for. */
  function Back(v: PortForward): HolePunchEntry
  {
    HolePunchEntry(ProtocolNumber(v.protocol), v.externalPort, v.containerPort)
  }

  /** The list the conversion loop builds, in entry order. */
  function PortForwards(entries: seq<HolePunchEntry>): (r: seq<PortForward>)
    ensures |r| <= |entries|
    decreases |entries|
  {
    if entries == [] then []
    else
      var c := Converted(entries[|entries| - 1]);
      PortForwards(entries[..|entries| - 1]) + (if c.Some? then [c.value] else [])
  }

  /** The entries whose protocol is tcp or udp, in order. */
  function TcpUdpEntries(entries: seq<HolePunchEntry>): (r: seq<HolePunchEntry>)
    ensures |r| <= |entries|
    decreases |entries|
  {
    if entries == [] then []
    else
      var x := entries[|entries| - 1];
      TcpUdpEntries(entries[..|entries| - 1]) + (if IsTcpUdp(x.protocol) then [x] else [])
  }

  function BackAll(vs: seq<PortForward>): (r: seq<HolePunchEntry>)
    ensures |r| == |vs|
    ensures forall i :: 0 <= i < |vs| ==> r[i] == Back(vs[i])
  {
    seq(|vs|, i requires 0 <= i < |vs| => Back(vs[i]))
  }

  /** Converting loses nothing but the entries of other protocols. */
  lemma {:induction false} PortForwardsFaithful(entries: seq<HolePunchEntry>)
    ensures BackAll(PortForwards(entries)) == TcpUdpEntries(entries)
    decreases |entries|
  {
    if entries != [] {
      var front := entries[..|entries| - 1];
      PortForwardsFaithful(front);
      var c := Converted(entries[|entries| - 1]);
      if c.Some? {
        assert BackAll(PortForwards(front) + [c.value]) == BackAll(PortForwards(front)) + [Back(c.value)];
      }
    }
  }

  /** An entry list of tcp and udp entries only is kept whole. */
  lemma {:induction false} TcpUdpEntriesAll(entries: seq<HolePunchEntry>)
    requires forall i :: 0 <= i < |entries| ==> IsTcpUdp(entries[i].protocol)
    ensures TcpUdpEntries(entries) == entries
    decreases |entries|
  {
    if entries != [] {
      var front := entries[..|entries| - 1];
      assert forall i :: 0 <= i < |front| ==> front[i] == entries[i];
      TcpUdpEntriesAll(front);
      assert entries == front + [entries[|entries| - 1]];
    }
  }

  /** Every entry the hole-punch listing collects carries tcp or udp. */
  lemma {:induction false} PunchedInTcpUdp(L: Layout, bridge: string, containerIp: Addr, rules: seq<Entry>)
    ensures forall i :: 0 <= i < |PunchedIn(L, bridge, containerIp, rules)| ==>
      IsTcpUdp(PunchedIn(L, bridge, containerIp, rules)[i].protocol)
    decreases |rules|
  {
    if rules != [] {
      PunchedInTcpUdp(L, bridge, containerIp, rules[..|rules| - 1]);
    }
  }

  lemma {:induction false} PunchedInChainsTcpUdp(L: Layout, bridge: string, containerIp: Addr, chains: seq<Chain>)
    ensures forall i :: 0 <= i < |PunchedInChains(L, bridge, containerIp, chains)| ==>
      IsTcpUdp(PunchedInChains(L, bridge, containerIp, chains)[i].protocol)
    decreases |chains|
  {
    if chains != [] {
      var c := chains[|chains| - 1];
      PunchedInChainsTcpUdp(L, bridge, containerIp, chains[..|chains| - 1]);
      PunchedInTcpUdp(L, bridge, containerIp, c.rules);
    }
  }

  /**
   * The port forwards `getContainerPortForwardList` reports: the first 32
   * hole punches of the nat table's PREROUTING chains, none when the
   * table cannot be opened.
   */
  function PortForwardList(L: Layout, tables: map<string, seq<Chain>>, bridge: string, containerIp: Addr): seq<PortForward>
  {
    if "nat" in tables
    then PortForwards(Take(PunchedInChains(L, bridge, containerIp, tables["nat"]), MAX_PORT_FORWARDS))
    else []
  }

  /** Each reported forward is one listed hole punch, in listing order: no entry is dropped, at most 32 are kept. */
  lemma PortForwardListExact(L: Layout, tables: map<string, seq<Chain>>, bridge: string, containerIp: Addr)
    requires "nat" in tables
    ensures BackAll(PortForwardList(L, tables, bridge, containerIp))
      == Take(PunchedInChains(L, bridge, containerIp, tables["nat"]), MAX_PORT_FORWARDS)
    ensures |PortForwardList(L, tables, bridge, containerIp)| <= MAX_PORT_FORWARDS
  {
    var all := PunchedInChains(L, bridge, containerIp, tables["nat"]);
    var taken := Take(all, MAX_PORT_FORWARDS);
    PunchedInChainsTcpUdp(L, bridge, containerIp, tables["nat"]);
    assert forall i :: 0 <= i < |taken| ==> taken[i] == all[i];
    TcpUdpEntriesAll(taken);
    PortForwardsFaithful(taken);
  }

  /** The conversion loop of `getContainerPortForwardList`. */
  method ConvertEntries(entries: seq<HolePunchEntry>) returns (values: seq<PortForward>)
    ensures values == PortForwards(entries)
  {
    values := [];
    for i := 0 to |entries|
      invariant values == PortForwards(entries[..i])
    {
      assert entries[..i + 1][..i] == entries[..i] && entries[..i + 1][i] == entries[i];
      var x := entries[i];
      if x.protocol == IPPROTO_TCP {
        values := values + [PortForward(Tcp, x.publicPort, x.containerPort)];
      } else if x.protocol == IPPROTO_UDP {
        values := values + [PortForward(Udp, x.publicPort, x.containerPort)];
      }
    }
    assert entries[..|entries|] == entries;
  }

  /** `NetFilter::removeAllRulesMatchingComment`: its body is commented out, so the ruleset stays as it is. */
  method RemoveAllRulesMatchingComment(ipt: IpTables, commentMatch: string)
    ensures unchanged(ipt)
  {
  }

  /** `NetFilter::openExternalPort`: true exactly when the C function returns 0. */
  method OpenExternalPort(L: Layout, ipt: IpTables, port: Port, protocol: Protocol, comment: string, commitOk: string -> bool)
    returns (ok: bool)
    modifies ipt
    ensures ok <==> ("filter" in old(ipt.tables)
      && ExternalPortTable(L, old(ipt.tables)["filter"], port, ProtocolNumber(protocol), Some(comment)).Some?
      && commitOk("filter"))
    ensures ok ==> ipt.tables == old(ipt.tables)["filter" :=
      ExternalPortTable(L, old(ipt.tables)["filter"], port, ProtocolNumber(protocol), Some(comment)).value]
    ensures !ok ==> ipt.tables == old(ipt.tables)
  {
    var rc := ipt.OpenExternalPort(L, port, ProtocolNumber(protocol), Some(comment), commitOk);
    ok := rc == 0;
  }

  /**
   * `NetFilter::addContainerPortForwarding`: true exactly when both the
   * nat and the filter rule went in; the nat rule stays committed when
   * only the filter half fails.
   */
  method AddContainerPortForwarding(L: Layout, ipt: IpTables, bridge: string, protocol: Protocol, externalPort: Port,
                                    containerIp: Addr, containerPort: Port, comment: string, commitOk: string -> bool)
    returns (ok: bool)
    modifies ipt
    ensures var p := ProtocolNumber(protocol);
            var natDone := "nat" in old(ipt.tables) && commitOk("nat") &&
              HolePunchNatTable(L, old(ipt.tables)["nat"], bridge, p, externalPort, containerIp, containerPort, Some(comment)).Some?;
            var filterDone := "filter" in old(ipt.tables) && commitOk("filter") &&
              HolePunchFilterTable(L, old(ipt.tables)["filter"], bridge, p, containerIp, containerPort, Some(comment)).Some?;
      && (ok <==> natDone && filterDone)
      && (!natDone ==> ipt.tables == old(ipt.tables))
      && (natDone ==> var natTable := HolePunchNatTable(L, old(ipt.tables)["nat"], bridge, p, externalPort,
                                                         containerIp, containerPort, Some(comment)).value;
           if filterDone
           then ipt.tables == old(ipt.tables)["nat" := natTable]["filter" :=
                  HolePunchFilterTable(L, old(ipt.tables)["filter"], bridge, p, containerIp, containerPort, Some(comment)).value]
           else ipt.tables == old(ipt.tables)["nat" := natTable])
  {
    var rc := ipt.AddContainerHolePunch(L, bridge, ProtocolNumber(protocol), externalPort,
                                        containerIp, containerPort, Some(comment), commitOk);
    ok := rc == 0;
  }

  /**
   * `NetFilter::getContainerPortForwardList`: lists up to 32 hole punches
   * (none when the table cannot be opened, since the count is reset first
   * and the return code is ignored) and converts them.
   */
  method GetContainerPortForwardList(L: Layout, ipt: IpTables, bridge: string, containerIp: Addr)
    returns (values: seq<PortForward>)
    ensures values == PortForwardList(L, ipt.tables, bridge, containerIp)
    ensures |values| <= MAX_PORT_FORWARDS
  {
    var rc, entries := ipt.GetContainerHolePunchedPorts(L, bridge, containerIp, MAX_PORT_FORWARDS);
    values := ConvertEntries(entries);
    assert |PortForwards(entries)| <= |entries|;
  }
}
