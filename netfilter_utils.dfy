/**
 * The iptables helpers of the RuntimeManager gateway
 * (RuntimeManager/Gateway/NetFilterUtils.c).
 *
 * A rule is built in a 1024-byte buffer by writing the `ipt_entry` header,
 * then match records one after another by advancing a pointer, then the
 * target record; `target_offset` and `next_offset` record where the
 * matches end and where the target ends. The model keeps the records as
 * values (a header, a sequence of matches, a target) together with the two
 * offsets, and the sizes of the kernel structures as a `Layout`, because
 * they depend on the target ABI.
 *
 * Strings stand for C strings without their terminator and hold no NUL;
 * `strcmp` is `==` and `strncpy` into a field of n bytes keeps at most n
 * characters.
 *
 * libiptc is modelled by its effect on a table held as a sequence of
 * chains: `iptc_insert_entry` with rule number n puts the rule at
 * position n counted from 0 and fails when the chain has fewer than n
 * rules, `iptc_delete_num_entry` removes the rule at a position, and
 * `iptc_commit` writes the working copy back. Whether a deletion or a
 * commit succeeds is an input.
 */
module NetFilterUtils {
  import opened Core

  const IPPROTO_TCP: int := 6
  const IPPROTO_UDP: int := 17
  const RULE_BUF_SIZE: nat := 1024
  const UINT16_MAX: nat := 65535
  const XT_MAX_COMMENT_LEN: nat := 256
  const IFNAMSIZ: nat := 16
  const IF_NAMESIZE: nat := 16
  /** The rule number every insertion passes to `iptc_insert_entry` as written: the second place. */
  const INSERT_RULE_NUM: nat := 1
  /** The rule number of `iptables -I`, the head of the chain, in libiptc's counting from 0. */
  const HEAD_RULE_NUM: nat := 0

  type Port = n: int | 0 <= n <= UINT16_MAX
  type Addr = n: int | 0 <= n < 0x1_0000_0000

  /**
   * `sizeof` of the kernel structures the builders write, and the
   * alignment `XT_ALIGN` rounds up to.
   */
  datatype Sizes = Sizes(
    align: nat,
    entry: nat,            // struct ipt_entry
    entryMatch: nat,       // struct xt_entry_match
    tcp: nat,              // struct xt_tcp
    udp: nat,              // struct xt_udp
    conntrack: nat,        // struct xt_conntrack_mtinfo3
    comment: nat,          // struct xt_comment_info
    entryTarget: nat,      // struct xt_entry_target
    natRange: nat,         // struct nf_nat_ipv4_multi_range_compat
    standardTarget: nat)   // struct xt_standard_target

  /** Every ABI aligns to a positive boundary, has a non-empty match header and an entry header that fits the buffer. */
  type Layout = s: Sizes | s.align > 0 && s.entryMatch > 0 && s.entry <= RULE_BUF_SIZE
    witness Sizes(1, 0, 1, 0, 0, 0, 0, 0, 0, 0)

  /** `XT_ALIGN(n)`: n rounded up to the next multiple of the alignment. */
  function XtAlign(L: Layout, n: nat): (r: nat)
    ensures n <= r < n + L.align
  {
    var x := n + L.align - 1;
    x - x % L.align
  }

  function Truncated(s: string, n: nat): (r: string)
    ensures |r| == Min(|s|, n) && r == s[..|r|]
  {
    if |s| <= n then s else s[..n]
  }

  lemma TruncatedTwice(s: string, m: nat, n: nat)
    requires m <= n
    ensures Truncated(Truncated(s, m), n) == Truncated(s, m)
  {
  }

  predicate IsTcpUdp(protocol: int)
  {
    protocol == IPPROTO_TCP || protocol == IPPROTO_UDP
  }

  datatype CtState = IP_CT_NEW | IP_CT_ESTABLISHED
  datatype ConntrackFlag = XT_CONNTRACK_STATE | XT_CONNTRACK_STATE_ALIAS

  /** The payload that follows a match header. */
  datatype MatchData =
    | PortRanges(spts: (Port, Port), dpts: (Port, Port))
    | ConntrackInfo(matchFlags: set<ConntrackFlag>, stateMask: set<CtState>)
    | CommentInfo(text: string)
    | OtherMatch

  /** An `xt_entry_match` record: its name, `match_size`, revision and payload. */
  datatype Match = Match(name: string, size: nat, revision: nat, data: MatchData)

  /** The first range of an `nf_nat_ipv4_multi_range_compat`. */
  datatype NatRange = NatRange(rangesize: nat, minIp: Addr, maxIp: Addr,
                               mapIps: bool, protoSpecified: bool, minPort: Port, maxPort: Port)

  datatype TargetData = Verdict | NatRanges(range: NatRange) | OtherTarget

  /** An `xt_entry_target` record: its name, `target_size` and payload. */
  datatype Target = Target(name: string, size: nat, data: TargetData)

  /** The `ipt_ip` part of the header that the builders set or the readers look at. */
  datatype Header = Header(proto: int, iniface: string, invIn: bool, outiface: string, invOut: bool,
                           dst: Addr, dstMask: Addr)

  datatype Entry = Entry(header: Header, matches: seq<Match>, targetOffset: int, nextOffset: int, target: Target)

  // ---------------------------------------------------------------------------
  // Match records

  function TcpUdpMatchSize(L: Layout, protocol: int): nat
  {
    L.entryMatch + XtAlign(L, if protocol == IPPROTO_TCP then L.tcp else L.udp)
  }

  function StateMatchSize(L: Layout): nat
  {
    L.entryMatch + XtAlign(L, L.conntrack)
  }

  /** Also the least size `getEntryComment` accepts for a comment match. */
  function CommentMatchSize(L: Layout): nat
  {
    L.entryMatch + XtAlign(L, L.comment)
  }

  function TcpUdpRecord(L: Layout, protocol: int, srcMin: Port, srcMax: Port, dstMin: Port, dstMax: Port): Match
  {
    Match(if protocol == IPPROTO_TCP then "tcp" else "udp", TcpUdpMatchSize(L, protocol), 0,
          PortRanges((srcMin, srcMax), (dstMin, dstMax)))
  }

  function StateRecord(L: Layout, states: set<CtState>): Match
  {
    Match("conntrack", StateMatchSize(L), 3, ConntrackInfo({XT_CONNTRACK_STATE, XT_CONNTRACK_STATE_ALIAS}, states))
  }

  function CommentRecord(L: Layout, comment: string): Match
  {
    Match("comment", CommentMatchSize(L), 0, CommentInfo(Truncated(comment, XT_MAX_COMMENT_LEN - 1)))
  }

  /** The protocol and first source and destination ports `getEntryTcpUdpMatchPort` reads from one match. */
  function MatchPorts(m: Match): (r: Option<(int, Port, Port)>)
    ensures r.Some? <==> (m.name == "tcp" || m.name == "udp") && m.data.PortRanges?
    ensures r.Some? ==> r.value == (if m.name == "tcp" then IPPROTO_TCP else IPPROTO_UDP,
                                    m.data.spts.0, m.data.dpts.0)
  {
    if m.name == "tcp" && m.data.PortRanges? then Some((IPPROTO_TCP, m.data.spts.0, m.data.dpts.0))
    else if m.name == "udp" && m.data.PortRanges? then Some((IPPROTO_UDP, m.data.spts.0, m.data.dpts.0))
    else None
  }

  /** The comment `getEntryComment` reads from one match: at most XT_MAX_COMMENT_LEN characters. */
  function MatchComment(L: Layout, m: Match): (r: Option<string>)
    ensures r.Some? <==> m.name == "comment" && m.size >= CommentMatchSize(L) && m.data.CommentInfo?
    ensures r.Some? ==> |r.value| <= XT_MAX_COMMENT_LEN
  {
    if m.name == "comment" && m.size >= CommentMatchSize(L) && m.data.CommentInfo?
    then Some(Truncated(m.data.text, XT_MAX_COMMENT_LEN))
    else None
  }

  /**
   * `appendTcpUdpMatch`: the record written when the protocol is TCP or
   * UDP and it fits in `space`; None stands for -1.
   */
  function AppendTcpUdpMatch(L: Layout, space: int, protocol: int,
                             srcMin: Port, srcMax: Port, dstMin: Port, dstMax: Port): (r: Option<Match>)
    ensures r.None? <==> !IsTcpUdp(protocol) || TcpUdpMatchSize(L, protocol) > space
    ensures r.Some? ==> r.value.size == TcpUdpMatchSize(L, protocol) <= space
    ensures r.Some? ==> r.value == TcpUdpRecord(L, protocol, srcMin, srcMax, dstMin, dstMax)
    ensures r.Some? ==> r.value.data == PortRanges((srcMin, srcMax), (dstMin, dstMax))
    ensures r.Some? ==> MatchPorts(r.value) == Some((protocol, srcMin, dstMin))
  {
    if !IsTcpUdp(protocol) then None
    else if TcpUdpMatchSize(L, protocol) > space then None
    else Some(TcpUdpRecord(L, protocol, srcMin, srcMax, dstMin, dstMax))
  }

  /** `appendStateMatch`: a revision-3 conntrack record matching `states`; None stands for -1. */
  function AppendStateMatch(L: Layout, space: int, states: set<CtState>): (r: Option<Match>)
    ensures r.None? <==> StateMatchSize(L) > space
    ensures r.Some? ==> r.value == StateRecord(L, states) && r.value.size <= space
    ensures r.Some? ==> r.value.name == "conntrack" && r.value.revision == 3
    ensures r.Some? ==> r.value.data == ConntrackInfo({XT_CONNTRACK_STATE, XT_CONNTRACK_STATE_ALIAS}, states)
    ensures r.Some? ==> MatchPorts(r.value).None? && MatchComment(L, r.value).None?
  {
    if StateMatchSize(L) > space then None else Some(StateRecord(L, states))
  }

  /**
   * `appendCommentMatch`: the comment is copied truncated to
   * XT_MAX_COMMENT_LEN - 1 characters; None stands for -1.
   */
  function AppendCommentMatch(L: Layout, space: int, comment: string): (r: Option<Match>)
    ensures r.None? <==> CommentMatchSize(L) > space
    ensures r.Some? ==> r.value == CommentRecord(L, comment) && r.value.size <= space
    ensures r.Some? ==> MatchComment(L, r.value) == Some(Truncated(comment, XT_MAX_COMMENT_LEN - 1))
    ensures r.Some? ==> MatchPorts(r.value).None?
  {
    if CommentMatchSize(L) > space then None else Some(CommentRecord(L, comment))
  }

  // ---------------------------------------------------------------------------
  // Rules

  function MatchesSize(ms: seq<Match>): nat
  {
    if ms == [] then 0 else ms[0].size + MatchesSize(ms[1..])
  }

  lemma {:induction false} MatchesSizeAppend(ms: seq<Match>, m: Match)
    ensures MatchesSize(ms + [m]) == MatchesSize(ms) + m.size
  {
    if ms != [] {
      assert (ms + [m])[1..] == ms[1..] + [m];
      MatchesSizeAppend(ms[1..], m);
    }
  }

  /** The offsets every builder records: matches end at `target_offset`, the target at `next_offset`, inside the buffer. */
  predicate WellFormed(L: Layout, e: Entry)
  {
    && e.targetOffset == L.entry + MatchesSize(e.matches)
    && e.nextOffset == e.targetOffset + e.target.size
    && e.nextOffset <= RULE_BUF_SIZE
  }

  function StandardTargetSize(L: Layout): nat
  {
    XtAlign(L, L.standardTarget)
  }

  function DnatTargetSize(L: Layout): nat
  {
    L.entryTarget + XtAlign(L, L.natRange)
  }

  function AcceptTarget(L: Layout): Target
  {
    Target("ACCEPT", StandardTargetSize(L), Verdict)
  }

  function DnatTarget(L: Layout, containerIp: Addr, containerPort: Port): Target
  {
    Target("DNAT", DnatTargetSize(L), NatRanges(NatRange(1, containerIp, containerIp, true, true, containerPort, containerPort)))
  }

  function CommentRecords(L: Layout, comment: Option<string>): seq<Match>
  {
    if comment.Some? then [CommentRecord(L, comment.value)] else []
  }

  /** A rule with the given parts and the offsets they imply, or None when it does not fit the buffer. */
  function Assemble(L: Layout, h: Header, ms: seq<Match>, t: Target): (r: Option<Entry>)
    ensures r.Some? <==> L.entry + MatchesSize(ms) + t.size <= RULE_BUF_SIZE
    ensures r.Some? ==> WellFormed(L, r.value)
    ensures r.Some? ==> r.value.header == h && r.value.matches == ms && r.value.target == t
  {
    var targetOffset := L.entry + MatchesSize(ms);
    if targetOffset + t.size > RULE_BUF_SIZE then None
    else Some(Entry(h, ms, targetOffset, targetOffset + t.size, t))
  }

  function ProtoHeader(protocol: int): Header
  {
    Header(protocol, "", false, "", false, 0, 0)
  }

  /** `-p <protocol> -m <protocol> --dport <port> -m state --state NEW,ESTABLISHED [-m comment] -j ACCEPT` */
  function InputFilterRule(L: Layout, port: Port, protocol: int, comment: Option<string>): Option<Entry>
  {
    if !IsTcpUdp(protocol) then None
    else Assemble(L, ProtoHeader(protocol),
                  [TcpUdpRecord(L, protocol, 0, UINT16_MAX, port, port), StateRecord(L, {IP_CT_NEW, IP_CT_ESTABLISHED})]
                  + CommentRecords(L, comment),
                  AcceptTarget(L))
  }

  /** `-p <protocol> -m <protocol> --sport <port> -m state --state ESTABLISHED [-m comment] -j ACCEPT` */
  function OutputFilterRule(L: Layout, port: Port, protocol: int, comment: Option<string>): Option<Entry>
  {
    if !IsTcpUdp(protocol) then None
    else Assemble(L, ProtoHeader(protocol),
                  [TcpUdpRecord(L, protocol, port, port, 0, UINT16_MAX), StateRecord(L, {IP_CT_ESTABLISHED})]
                  + CommentRecords(L, comment),
                  AcceptTarget(L))
  }

  /** `! -i <bridge> -p <protocol> -m <protocol> --dport <external> [-m comment] -j DNAT --to <ip>:<port>` */
  function DnatRule(L: Layout, bridge: string, protocol: int, externalPort: Port,
                    containerIp: Addr, containerPort: Port, comment: Option<string>): Option<Entry>
  {
    if !IsTcpUdp(protocol) then None
    else Assemble(L, Header(protocol, Truncated(bridge, IFNAMSIZ - 1), true, "", false, 0, 0),
                  [TcpUdpRecord(L, protocol, 0, UINT16_MAX, externalPort, externalPort)] + CommentRecords(L, comment),
                  DnatTarget(L, containerIp, containerPort))
  }

  /** `! -i <bridge> -o <bridge> --destination <ip> -p <protocol> -m <protocol> --dport <port> [-m comment] -j ACCEPT` */
  function ForwardingRule(L: Layout, bridge: string, protocol: int,
                          containerIp: Addr, containerPort: Port, comment: Option<string>): Option<Entry>
  {
    if !IsTcpUdp(protocol) then None
    else Assemble(L, Header(protocol, Truncated(bridge, IFNAMSIZ - 1), true, Truncated(bridge, IFNAMSIZ - 1), false,
                            containerIp, 0xffff_ffff),
                  [TcpUdpRecord(L, protocol, 0, UINT16_MAX, containerPort, containerPort)] + CommentRecords(L, comment),
                  AcceptTarget(L))
  }

  lemma {:induction false} MatchesSizeConcat(a: seq<Match>, b: seq<Match>)
    ensures MatchesSize(a + b) == MatchesSize(a) + MatchesSize(b)
  {
    if a != [] {
      assert (a + b)[0] == a[0];
      assert (a + b)[1..] == a[1..] + b;
      MatchesSizeConcat(a[1..], b);
    } else {
      assert a + b == b;
    }
  }

  /** Filling the buffer: the match goes at `ptr` and `ptr` advances by its size. */
  lemma Advance(L: Layout, ms: seq<Match>, ptr: int, m: Match)
    requires ptr == L.entry + MatchesSize(ms)
    ensures ptr + m.size == L.entry + MatchesSize(ms + [m])
  {
    MatchesSizeAppend(ms, m);
  }

  /** A record that does not fit after the ones already written means the whole rule does not fit. */
  lemma TooLarge(L: Layout, h: Header, ms: seq<Match>, rest: seq<Match>, t: Target)
    requires rest != [] && L.entry + MatchesSize(ms) + rest[0].size > RULE_BUF_SIZE
    ensures Assemble(L, h, ms + rest, t).None?
  {
    MatchesSizeConcat(ms, rest);
  }

  /** `createInputFilterRule`, writing the records one after the other; None stands for NULL. */
  method CreateInputFilterRule(L: Layout, port: Port, protocol: int, comment: Option<string>) returns (r: Option<Entry>)
    ensures r == InputFilterRule(L, port, protocol, comment)
  {
    var h := ProtoHeader(protocol);
    ghost var t := AcceptTarget(L);
    ghost var plan := [TcpUdpRecord(L, protocol, 0, UINT16_MAX, port, port), StateRecord(L, {IP_CT_NEW, IP_CT_ESTABLISHED})] + CommentRecords(L, comment);
    var ptr: int := L.entry;
    var ms: seq<Match> := [];
    var m := AppendTcpUdpMatch(L, RULE_BUF_SIZE - ptr, protocol, 0, UINT16_MAX, port, port);
    if m.None? {
      if IsTcpUdp(protocol) {
        assert [] + plan == plan;
        TooLarge(L, h, ms, plan, t);
      }
      return None;
    }
    Advance(L, ms, ptr, m.value);
    ms, ptr := ms + [m.value], ptr + m.value.size;
    m := AppendStateMatch(L, RULE_BUF_SIZE - ptr, {IP_CT_NEW, IP_CT_ESTABLISHED});
    if m.None? {
      assert ms + plan[1..] == plan;
      TooLarge(L, h, ms, plan[1..], t);
      return None;
    }
    Advance(L, ms, ptr, m.value);
    ms, ptr := ms + [m.value], ptr + m.value.size;
    if comment.Some? {
      m := AppendCommentMatch(L, RULE_BUF_SIZE - ptr, comment.value);
      if m.None? {
        assert ms + plan[2..] == plan;
        TooLarge(L, h, ms, plan[2..], t);
        return None;
      }
      Advance(L, ms, ptr, m.value);
      ms, ptr := ms + [m.value], ptr + m.value.size;
    }
    assert ms == plan;
    var targetOffset := ptr;
    var targetSize := StandardTargetSize(L);
    if targetSize > RULE_BUF_SIZE - ptr {
      return None;
    }
    var target := Target("ACCEPT", targetSize, Verdict);
    ptr := ptr + targetSize;
    r := Some(Entry(h, ms, targetOffset, ptr, target));
  }

  /** `createOutputFilterRule`, writing the records one after the other; None stands for NULL. */
  method CreateOutputFilterRule(L: Layout, port: Port, protocol: int, comment: Option<string>) returns (r: Option<Entry>)
    ensures r == OutputFilterRule(L, port, protocol, comment)
  {
    var h := ProtoHeader(protocol);
    ghost var t := AcceptTarget(L);
    ghost var plan := [TcpUdpRecord(L, protocol, port, port, 0, UINT16_MAX), StateRecord(L, {IP_CT_ESTABLISHED})] + CommentRecords(L, comment);
    var ptr: int := L.entry;
    var ms: seq<Match> := [];
    var m := AppendTcpUdpMatch(L, RULE_BUF_SIZE - ptr, protocol, port, port, 0, UINT16_MAX);
    if m.None? {
      if IsTcpUdp(protocol) {
        assert [] + plan == plan;
        TooLarge(L, h, ms, plan, t);
      }
      return None;
    }
    Advance(L, ms, ptr, m.value);
    ms, ptr := ms + [m.value], ptr + m.value.size;
    m := AppendStateMatch(L, RULE_BUF_SIZE - ptr, {IP_CT_ESTABLISHED});
    if m.None? {
      assert ms + plan[1..] == plan;
      TooLarge(L, h, ms, plan[1..], t);
      return None;
    }
    Advance(L, ms, ptr, m.value);
    ms, ptr := ms + [m.value], ptr + m.value.size;
    if comment.Some? {
      m := AppendCommentMatch(L, RULE_BUF_SIZE - ptr, comment.value);
      if m.None? {
        assert ms + plan[2..] == plan;
        TooLarge(L, h, ms, plan[2..], t);
        return None;
      }
      Advance(L, ms, ptr, m.value);
      ms, ptr := ms + [m.value], ptr + m.value.size;
    }
    assert ms == plan;
    var targetOffset := ptr;
    var targetSize := StandardTargetSize(L);
    if targetSize > RULE_BUF_SIZE - ptr {
      return None;
    }
    var target := Target("ACCEPT", targetSize, Verdict);
    ptr := ptr + targetSize;
    r := Some(Entry(h, ms, targetOffset, ptr, target));
  }

  /** `createDNATRule`, writing the records one after the other; None stands for NULL. */
  method CreateDnatRule(L: Layout, bridge: string, protocol: int, externalPort: Port,
                        containerIp: Addr, containerPort: Port, comment: Option<string>) returns (r: Option<Entry>)
    ensures r == DnatRule(L, bridge, protocol, externalPort, containerIp, containerPort, comment)
  {
    var h := Header(protocol, Truncated(bridge, IFNAMSIZ - 1), true, "", false, 0, 0);
    ghost var t := DnatTarget(L, containerIp, containerPort);
    ghost var plan := [TcpUdpRecord(L, protocol, 0, UINT16_MAX, externalPort, externalPort)] + CommentRecords(L, comment);
    var ptr: int := L.entry;
    var ms: seq<Match> := [];
    var m := AppendTcpUdpMatch(L, RULE_BUF_SIZE - ptr, protocol, 0, UINT16_MAX, externalPort, externalPort);
    if m.None? {
      if IsTcpUdp(protocol) {
        assert [] + plan == plan;
        TooLarge(L, h, ms, plan, t);
      }
      return None;
    }
    Advance(L, ms, ptr, m.value);
    ms, ptr := ms + [m.value], ptr + m.value.size;
    if comment.Some? {
      m := AppendCommentMatch(L, RULE_BUF_SIZE - ptr, comment.value);
      if m.None? {
        assert ms + plan[1..] == plan;
        TooLarge(L, h, ms, plan[1..], t);
        return None;
      }
      Advance(L, ms, ptr, m.value);
      ms, ptr := ms + [m.value], ptr + m.value.size;
    }
    assert ms == plan;
    var targetOffset := ptr;
    var targetSize := DnatTargetSize(L);
    if targetSize > RULE_BUF_SIZE - ptr {
      return None;
    }
    var range := NatRange(1, containerIp, containerIp, true, true, containerPort, containerPort);
    var target := Target("DNAT", targetSize, NatRanges(range));
    ptr := ptr + targetSize;
    r := Some(Entry(h, ms, targetOffset, ptr, target));
  }

  /** `createForwardingRule`, writing the records one after the other; None stands for NULL. */
  method CreateForwardingRule(L: Layout, bridge: string, protocol: int,
                              containerIp: Addr, containerPort: Port, comment: Option<string>) returns (r: Option<Entry>)
    ensures r == ForwardingRule(L, bridge, protocol, containerIp, containerPort, comment)
  {
    var iface := Truncated(bridge, IFNAMSIZ - 1);
    var h := Header(protocol, iface, true, iface, false, containerIp, 0xffff_ffff);
    ghost var t := AcceptTarget(L);
    ghost var plan := [TcpUdpRecord(L, protocol, 0, UINT16_MAX, containerPort, containerPort)] + CommentRecords(L, comment);
    var ptr: int := L.entry;
    var ms: seq<Match> := [];
    var m := AppendTcpUdpMatch(L, RULE_BUF_SIZE - ptr, protocol, 0, UINT16_MAX, containerPort, containerPort);
    if m.None? {
      if IsTcpUdp(protocol) {
        assert [] + plan == plan;
        TooLarge(L, h, ms, plan, t);
      }
      return None;
    }
    Advance(L, ms, ptr, m.value);
    ms, ptr := ms + [m.value], ptr + m.value.size;
    if comment.Some? {
      m := AppendCommentMatch(L, RULE_BUF_SIZE - ptr, comment.value);
      if m.None? {
        assert ms + plan[1..] == plan;
        TooLarge(L, h, ms, plan[1..], t);
        return None;
      }
      Advance(L, ms, ptr, m.value);
      ms, ptr := ms + [m.value], ptr + m.value.size;
    }
    assert ms == plan;
    var targetOffset := ptr;
    var targetSize := StandardTargetSize(L);
    if targetSize > RULE_BUF_SIZE - ptr {
      return None;
    }
    var target := Target("ACCEPT", targetSize, Verdict);
    ptr := ptr + targetSize;
    r := Some(Entry(h, ms, targetOffset, ptr, target));
  }

  /** Which of the four rules fit the buffer: a TCP or UDP protocol and the sum of the record sizes at most 1024. */
  lemma RulesFit(L: Layout, port: Port, protocol: int, bridge: string, ip: Addr, comment: Option<string>)
    ensures var c := if comment.Some? then CommentMatchSize(L) else 0;
      && (InputFilterRule(L, port, protocol, comment).Some? <==>
            IsTcpUdp(protocol) && L.entry + TcpUdpMatchSize(L, protocol) + StateMatchSize(L) + c + StandardTargetSize(L) <= RULE_BUF_SIZE)
      && (OutputFilterRule(L, port, protocol, comment).Some? <==>
            IsTcpUdp(protocol) && L.entry + TcpUdpMatchSize(L, protocol) + StateMatchSize(L) + c + StandardTargetSize(L) <= RULE_BUF_SIZE)
      && (DnatRule(L, bridge, protocol, port, ip, port, comment).Some? <==>
            IsTcpUdp(protocol) && L.entry + TcpUdpMatchSize(L, protocol) + c + DnatTargetSize(L) <= RULE_BUF_SIZE)
      && (ForwardingRule(L, bridge, protocol, ip, port, comment).Some? <==>
            IsTcpUdp(protocol) && L.entry + TcpUdpMatchSize(L, protocol) + c + StandardTargetSize(L) <= RULE_BUF_SIZE)
  {
    var a := TcpUdpRecord(L, protocol, 0, UINT16_MAX, port, port);
    var cs := CommentRecords(L, comment);
    assert MatchesSize(cs) == if comment.Some? then CommentMatchSize(L) else 0;
    MatchesSizeConcat([a], cs);
    MatchesSizeConcat([a, StateRecord(L, {IP_CT_NEW, IP_CT_ESTABLISHED})], cs);
    MatchesSizeConcat([TcpUdpRecord(L, protocol, port, port, 0, UINT16_MAX), StateRecord(L, {IP_CT_ESTABLISHED})], cs);
  }

  // ---------------------------------------------------------------------------
  // Reading rules back

  /** The matches the `while (ptr < end)` walk visits: those that start before `end`. */
  function Visited(ms: seq<Match>, offset: int, end: int): (r: seq<Match>)
    ensures |r| <= |ms| && r == ms[..|r|]
    decreases |ms|
  {
    if ms == [] || offset >= end then [] else [ms[0]] + Visited(ms[1..], offset + ms[0].size, end)
  }

  /** The index of the first match at or after `from` that carries a comment, or |ms|. */
  function FirstCommentIndex(L: Layout, ms: seq<Match>, from: nat): (k: nat)
    ensures k <= |ms|
    ensures k < |ms| ==> from <= k && MatchComment(L, ms[k]).Some?
    ensures forall j :: from <= j < k ==> MatchComment(L, ms[j]).None?
    decreases |ms| - from
  {
    if from >= |ms| then |ms|
    else if MatchComment(L, ms[from]).Some? then from
    else FirstCommentIndex(L, ms, from + 1)
  }

  /** The index of the first "tcp" or "udp" match at or after `from`, or |ms|. */
  function FirstPortsIndex(ms: seq<Match>, from: nat): (k: nat)
    ensures k <= |ms|
    ensures k < |ms| ==> from <= k && MatchPorts(ms[k]).Some?
    ensures forall j :: from <= j < k ==> MatchPorts(ms[j]).None?
    decreases |ms| - from
  {
    if from >= |ms| then |ms|
    else if MatchPorts(ms[from]).Some? then from
    else FirstPortsIndex(ms, from + 1)
  }

  /** The matches of `e` that the readers walk, from the end of the header to `target_offset`. */
  function Walked(L: Layout, e: Entry): seq<Match>
  {
    if e.targetOffset <= 0 then [] else Visited(e.matches, L.entry, e.targetOffset)
  }

  /** What `getEntryComment` finds: the first visited comment match of adequate size. */
  function CommentOf(L: Layout, e: Entry): Option<string>
  {
    var vs := Walked(L, e);
    var k := FirstCommentIndex(L, vs, 0);
    if k < |vs| then MatchComment(L, vs[k]) else None
  }

  /** What `getEntryTcpUdpMatchPort` finds: protocol, source and destination port of the first visited tcp or udp match. */
  function PortsOf(L: Layout, e: Entry): Option<(int, Port, Port)>
  {
    var vs := Walked(L, e);
    var k := FirstPortsIndex(vs, 0);
    if k < |vs| then MatchPorts(vs[k]) else None
  }

  /** How far the walk from match `i` at `offset` gets: the index of the first match it does not visit. */
  function VisitedCount(ms: seq<Match>, i: nat, offset: int, end: int): (n: nat)
    requires i <= |ms|
    ensures i <= n <= |ms|
    decreases |ms| - i
  {
    if i == |ms| || offset >= end then i else VisitedCount(ms, i + 1, offset + ms[i].size, end)
  }

  /** The walk from match `i` visits exactly the matches up to `VisitedCount`. */
  lemma {:induction false} VisitedIsPrefix(ms: seq<Match>, i: nat, offset: int, end: int)
    requires i <= |ms|
    ensures Visited(ms[i..], offset, end) == ms[i..VisitedCount(ms, i, offset, end)]
    decreases |ms| - i
  {
    if i < |ms| && offset < end {
      var n := VisitedCount(ms, i, offset, end);
      VisitedIsPrefix(ms, i + 1, offset + ms[i].size, end);
      assert ms[i..][1..] == ms[i + 1..];
      assert ms[i..n] == [ms[i]] + ms[i + 1..n];
    }
  }

  /**
   * `getEntryComment`: walks the matches by their `match_size` and copies
   * out the first comment; `found` is its return value and `comment` what
   * the caller's zeroed buffer holds afterwards.
   */
  method GetEntryComment(L: Layout, e: Entry) returns (found: bool, comment: string)
    ensures found <==> CommentOf(L, e).Some?
    ensures found ==> comment == CommentOf(L, e).value
    ensures !found ==> comment == ""
  {
    if e.targetOffset <= 0 {
      return false, "";
    }
    ghost var vs := Walked(L, e);
    ghost var n := VisitedCount(e.matches, 0, L.entry, e.targetOffset);
    assert vs == e.matches[..n] by {
      VisitedIsPrefix(e.matches, 0, L.entry, e.targetOffset);
      assert e.matches[0..] == e.matches;
    }
    var ptr := L.entry;
    var k := 0;
    while k < |e.matches| && ptr < e.targetOffset
      invariant 0 <= k <= n
      invariant VisitedCount(e.matches, k, ptr, e.targetOffset) == n
      invariant FirstCommentIndex(L, vs, 0) >= k
      decreases |e.matches| - k
    {
      var m := e.matches[k];
      assert vs[k] == m;
      ptr := ptr + m.size;
      k := k + 1;
      if m.name == "" || m.name != "comment" {
        assert FirstCommentIndex(L, vs, 0) >= k by { CommentSkip(L, vs, k - 1); }
        continue;
      }
      if m.size < CommentMatchSize(L) || !m.data.CommentInfo? {
        assert FirstCommentIndex(L, vs, 0) >= k by { CommentSkip(L, vs, k - 1); }
        continue;
      }
      assert CommentOf(L, e) == MatchComment(L, m) by { CommentFound(L, vs, k - 1); }
      return true, Truncated(m.data.text, XT_MAX_COMMENT_LEN);
    }
    assert |vs| == k;
    return false, "";
  }

  /** A match without a comment moves the first comment of the walk further on. */
  lemma CommentSkip(L: Layout, vs: seq<Match>, i: nat)
    requires i < |vs| && FirstCommentIndex(L, vs, 0) >= i && MatchComment(L, vs[i]).None?
    ensures FirstCommentIndex(L, vs, 0) >= i + 1
  {
  }

  /** The first comment at or after the bound is the first comment of the walk. */
  lemma CommentFound(L: Layout, vs: seq<Match>, i: nat)
    requires i < |vs| && FirstCommentIndex(L, vs, 0) >= i && MatchComment(L, vs[i]).Some?
    ensures FirstCommentIndex(L, vs, 0) == i
  {
  }

  /** A match that is not tcp or udp moves the first port match of the walk further on. */
  lemma PortsSkip(vs: seq<Match>, i: nat)
    requires i < |vs| && FirstPortsIndex(vs, 0) >= i && MatchPorts(vs[i]).None?
    ensures FirstPortsIndex(vs, 0) >= i + 1
  {
  }

  /** The first port match at or after the bound is the first of the walk. */
  lemma PortsFound(vs: seq<Match>, i: nat)
    requires i < |vs| && FirstPortsIndex(vs, 0) >= i && MatchPorts(vs[i]).Some?
    ensures FirstPortsIndex(vs, 0) == i
  {
  }

  /**
   * `getEntryTcpUdpMatchPort`: the protocol and first source and
   * destination ports of the first tcp or udp match.
   */
  method GetEntryTcpUdpMatchPort(L: Layout, e: Entry) returns (found: bool, protocol: int, sourcePort: Port, destPort: Port)
    ensures found <==> PortsOf(L, e).Some?
    ensures found ==> (protocol, sourcePort, destPort) == PortsOf(L, e).value
  {
    protocol, sourcePort, destPort := 0, 0, 0;
    if e.targetOffset <= 0 {
      return false, protocol, sourcePort, destPort;
    }
    ghost var vs := Walked(L, e);
    ghost var n := VisitedCount(e.matches, 0, L.entry, e.targetOffset);
    assert vs == e.matches[..n] by {
      VisitedIsPrefix(e.matches, 0, L.entry, e.targetOffset);
      assert e.matches[0..] == e.matches;
    }
    var ptr := L.entry;
    var k := 0;
    while k < |e.matches| && ptr < e.targetOffset
      invariant 0 <= k <= n
      invariant VisitedCount(e.matches, k, ptr, e.targetOffset) == n
      invariant FirstPortsIndex(vs, 0) >= k
      decreases |e.matches| - k
    {
      var m := e.matches[k];
      assert vs[k] == m;
      ptr := ptr + m.size;
      k := k + 1;
      if m.name == "" {
        assert FirstPortsIndex(vs, 0) >= k by { PortsSkip(vs, k - 1); }
        continue;
      }
      if MatchPorts(m).Some? {
        assert PortsOf(L, e) == MatchPorts(m) by { PortsFound(vs, k - 1); }
        var ports := MatchPorts(m).value;
        return true, ports.0, ports.1, ports.2;
      }
      assert FirstPortsIndex(vs, 0) >= k by { PortsSkip(vs, k - 1); }
    }
    assert |vs| == k;
    return false, protocol, sourcePort, destPort;
  }

  /** `getEntryInterface`: the in or out interface name and whether the match on it is inverted. */
  function EntryInterface(e: Entry, incoming: bool): (r: (string, bool))
    ensures |r.0| <= IF_NAMESIZE
    ensures incoming ==> r == (Truncated(e.header.iniface, IF_NAMESIZE), e.header.invIn)
    ensures !incoming ==> r == (Truncated(e.header.outiface, IF_NAMESIZE), e.header.invOut)
  {
    if incoming then (Truncated(e.header.iniface, IF_NAMESIZE), e.header.invIn)
    else (Truncated(e.header.outiface, IF_NAMESIZE), e.header.invOut)
  }

  /**
   * `getEntryDNATDestination`: the address and port of a DNAT target that
   * is large enough, has a single range, one address and MAP_IPS set.
   */
  function DnatDestinationOf(L: Layout, e: Entry): (r: Option<(Addr, Port)>)
    ensures r.Some? <==>
      && e.nextOffset - e.targetOffset >= DnatTargetSize(L)
      && e.target.name == "DNAT" && e.target.data.NatRanges?
      && e.target.data.range.rangesize == 1
      && e.target.data.range.minIp == e.target.data.range.maxIp
      && e.target.data.range.mapIps
    ensures r.Some? ==> r.value == (e.target.data.range.minIp, e.target.data.range.minPort)
  {
    if e.nextOffset - e.targetOffset < DnatTargetSize(L) then None
    else if e.target.name != "DNAT" || !e.target.data.NatRanges? then None
    else if e.target.data.range.rangesize != 1 then None
    else if e.target.data.range.minIp != e.target.data.range.maxIp || !e.target.data.range.mapIps then None
    else Some((e.target.data.range.minIp, e.target.data.range.minPort))
  }

  /** A built rule's walk visits every match it holds. */
  lemma {:induction false} VisitedAll(ms: seq<Match>, offset: int)
    requires forall i :: 0 <= i < |ms| ==> ms[i].size > 0
    ensures Visited(ms, offset, offset + MatchesSize(ms)) == ms
    decreases |ms|
  {
    if ms != [] {
      VisitedAll(ms[1..], offset + ms[0].size);
    }
  }

  lemma WalkedBuilt(L: Layout, h: Header, ms: seq<Match>, t: Target)
    requires ms != [] && forall i :: 0 <= i < |ms| ==> ms[i].size > 0
    requires Assemble(L, h, ms, t).Some?
    ensures Walked(L, Assemble(L, h, ms, t).value) == ms
  {
    VisitedAll(ms, L.entry);
  }

  /** The ports read back from a rule built as a tcp or udp match, a state match and an optional comment. */
  lemma StateRulePorts(L: Layout, protocol: int, srcMin: Port, srcMax: Port, dstMin: Port, dstMax: Port,
                       states: set<CtState>, comment: Option<string>)
    requires IsTcpUdp(protocol)
    requires Assemble(L, ProtoHeader(protocol), [TcpUdpRecord(L, protocol, srcMin, srcMax, dstMin, dstMax), StateRecord(L, states)]
                      + CommentRecords(L, comment), AcceptTarget(L)).Some?
    ensures PortsOf(L, Assemble(L, ProtoHeader(protocol), [TcpUdpRecord(L, protocol, srcMin, srcMax, dstMin, dstMax),
                                StateRecord(L, states)] + CommentRecords(L, comment), AcceptTarget(L)).value)
            == Some((protocol, srcMin, dstMin))
  {
    var ms := [TcpUdpRecord(L, protocol, srcMin, srcMax, dstMin, dstMax), StateRecord(L, states)] + CommentRecords(L, comment);
    WalkedBuilt(L, ProtoHeader(protocol), ms, AcceptTarget(L));
    assert FirstPortsIndex(ms, 0) == 0;
  }

  /** The comment read back from the same kind of rule: the written one, cut once to 255 characters. */
  lemma StateRuleComment(L: Layout, protocol: int, srcMin: Port, srcMax: Port, dstMin: Port, dstMax: Port,
                         states: set<CtState>, comment: Option<string>)
    requires IsTcpUdp(protocol)
    requires Assemble(L, ProtoHeader(protocol), [TcpUdpRecord(L, protocol, srcMin, srcMax, dstMin, dstMax), StateRecord(L, states)]
                      + CommentRecords(L, comment), AcceptTarget(L)).Some?
    ensures CommentOf(L, Assemble(L, ProtoHeader(protocol), [TcpUdpRecord(L, protocol, srcMin, srcMax, dstMin, dstMax),
                                  StateRecord(L, states)] + CommentRecords(L, comment), AcceptTarget(L)).value)
            == (if comment.Some? then Some(Truncated(comment.value, XT_MAX_COMMENT_LEN - 1)) else None)
  {
    var ms := [TcpUdpRecord(L, protocol, srcMin, srcMax, dstMin, dstMax), StateRecord(L, states)] + CommentRecords(L, comment);
    WalkedBuilt(L, ProtoHeader(protocol), ms, AcceptTarget(L));
    assert MatchComment(L, ms[0]).None? && MatchComment(L, ms[1]).None?;
    assert FirstCommentIndex(L, ms, 0) == FirstCommentIndex(L, ms, 2);
    TruncatedTwice(comment.GetOr(""), XT_MAX_COMMENT_LEN - 1, XT_MAX_COMMENT_LEN);
  }

  /** Reading the comment and ports back from the input and output rules yields what was written. */
  lemma {:induction false} FilterRulesReadBack(L: Layout, port: Port, protocol: int, comment: Option<string>)
    ensures InputFilterRule(L, port, protocol, comment).Some? ==>
      && PortsOf(L, InputFilterRule(L, port, protocol, comment).value) == Some((protocol, 0, port))
      && CommentOf(L, InputFilterRule(L, port, protocol, comment).value) ==
           (if comment.Some? then Some(Truncated(comment.value, XT_MAX_COMMENT_LEN - 1)) else None)
    ensures OutputFilterRule(L, port, protocol, comment).Some? ==>
      && PortsOf(L, OutputFilterRule(L, port, protocol, comment).value) == Some((protocol, port, 0))
      && CommentOf(L, OutputFilterRule(L, port, protocol, comment).value) ==
           (if comment.Some? then Some(Truncated(comment.value, XT_MAX_COMMENT_LEN - 1)) else None)
  {
    if IsTcpUdp(protocol) {
      if InputFilterRule(L, port, protocol, comment).Some? {
        StateRulePorts(L, protocol, 0, UINT16_MAX, port, port, {IP_CT_NEW, IP_CT_ESTABLISHED}, comment);
        StateRuleComment(L, protocol, 0, UINT16_MAX, port, port, {IP_CT_NEW, IP_CT_ESTABLISHED}, comment);
      }
      if OutputFilterRule(L, port, protocol, comment).Some? {
        StateRulePorts(L, protocol, port, port, 0, UINT16_MAX, {IP_CT_ESTABLISHED}, comment);
        StateRuleComment(L, protocol, port, port, 0, UINT16_MAX, {IP_CT_ESTABLISHED}, comment);
      }
    }
  }

  // ---------------------------------------------------------------------------
  // Hole punches

  /** `struct HolePunchEntry`. */
  datatype HolePunchEntry = HolePunchEntry(protocol: int, publicPort: Port, containerPort: Port)

  /**
   * The entry `getContainerHolePunchedPorts` takes from one PREROUTING rule:
   * the in-interface must be the bridge and inverted, the target a DNAT to
   * `containerIp` (0 matches every address), and a tcp or udp match must
   * give the public port.
   */
  function PunchedEntry(L: Layout, bridge: string, containerIp: Addr, e: Entry): (r: Option<HolePunchEntry>)
    ensures r.Some? ==>
      && EntryInterface(e, true) == (bridge, true)
      && DnatDestinationOf(L, e).Some?
      && (containerIp == 0 || DnatDestinationOf(L, e).value.0 == containerIp)
      && PortsOf(L, e).Some? && IsTcpUdp(PortsOf(L, e).value.0)
      && r.value == HolePunchEntry(PortsOf(L, e).value.0, PortsOf(L, e).value.2, DnatDestinationOf(L, e).value.1)
    ensures r.None? ==>
      || EntryInterface(e, true) != (bridge, true)
      || DnatDestinationOf(L, e).None?
      || (containerIp != 0 && DnatDestinationOf(L, e).value.0 != containerIp)
      || PortsOf(L, e).None? || !IsTcpUdp(PortsOf(L, e).value.0)
  {
    var iface := EntryInterface(e, true);
    var dest := DnatDestinationOf(L, e);
    var ports := PortsOf(L, e);
    if iface.0 != bridge || !iface.1 then None
    else if dest.None? || (containerIp != 0 && dest.value.0 != containerIp) then None
    else if ports.None? || !IsTcpUdp(ports.value.0) then None
    else Some(HolePunchEntry(ports.value.0, ports.value.2, dest.value.1))
  }

  /** A DNAT rule for a bridge name that fits IFNAMSIZ reads back as the hole punch it was built for, and keeps its comment. */
  lemma {:induction false} DnatRuleReadBack(L: Layout, bridge: string, protocol: int, externalPort: Port,
                                            containerIp: Addr, containerPort: Port, comment: Option<string>, query: Addr)
    requires |bridge| <= IFNAMSIZ - 1
    requires query == 0 || query == containerIp
    ensures DnatRule(L, bridge, protocol, externalPort, containerIp, containerPort, comment).Some? ==>
      && PunchedEntry(L, bridge, query, DnatRule(L, bridge, protocol, externalPort, containerIp, containerPort, comment).value)
           == Some(HolePunchEntry(protocol, externalPort, containerPort))
      && CommentOf(L, DnatRule(L, bridge, protocol, externalPort, containerIp, containerPort, comment).value) ==
           (if comment.Some? then Some(Truncated(comment.value, XT_MAX_COMMENT_LEN - 1)) else None)
  {
    var r := DnatRule(L, bridge, protocol, externalPort, containerIp, containerPort, comment);
    if r.Some? {
      var ms := [TcpUdpRecord(L, protocol, 0, UINT16_MAX, externalPort, externalPort)] + CommentRecords(L, comment);
      WalkedBuilt(L, Header(protocol, Truncated(bridge, IFNAMSIZ - 1), true, "", false, 0, 0), ms,
                  DnatTarget(L, containerIp, containerPort));
      assert FirstPortsIndex(ms, 0) == 0;
      assert PortsOf(L, r.value) == Some((protocol, 0, externalPort));
      assert DnatDestinationOf(L, r.value) == Some((containerIp, containerPort));
      assert MatchComment(L, ms[0]).None?;
      assert FirstCommentIndex(L, ms, 0) == FirstCommentIndex(L, ms, 1);
      TruncatedTwice(comment.GetOr(""), XT_MAX_COMMENT_LEN - 1, XT_MAX_COMMENT_LEN);
    }
  }

  // ---------------------------------------------------------------------------
  // Tables

  datatype Chain = Chain(name: string, rules: seq<Entry>)

  /** The index of the first chain called `name` at or after `from`, or |chains| (`iptcc_find_label`). */
  function ChainIndex(chains: seq<Chain>, name: string, from: nat := 0): (k: nat)
    ensures k <= |chains|
    ensures k < |chains| ==> from <= k && chains[k].name == name
    ensures forall j :: from <= j < k ==> chains[j].name != name
    decreases |chains| - from
  {
    if from >= |chains| then |chains|
    else if chains[from].name == name then from
    else ChainIndex(chains, name, from + 1)
  }

  /** A rule at position `rulenum` of the chain: libiptc's `iptc_insert_entry`, None when it fails. */
  function InsertEntry(chains: seq<Chain>, chain: string, e: Entry, rulenum: nat): (r: Option<seq<Chain>>)
    ensures r.Some? <==> ChainIndex(chains, chain) < |chains| && rulenum <= |chains[ChainIndex(chains, chain)].rules|
    ensures r.Some? ==> |r.value| == |chains|
    ensures r.Some? ==> forall j :: 0 <= j < |chains| ==> r.value[j].name == chains[j].name
    ensures r.Some? ==> forall j :: 0 <= j < |chains| && j != ChainIndex(chains, chain) ==> r.value[j] == chains[j]
    ensures r.Some? ==> var k := ChainIndex(chains, chain);
      r.value[k].rules == chains[k].rules[..rulenum] + [e] + chains[k].rules[rulenum..]
  {
    var k := ChainIndex(chains, chain);
    if k == |chains| || rulenum > |chains[k].rules| then None
    else Some(chains[k := Chain(chain, chains[k].rules[..rulenum] + [e] + chains[k].rules[rulenum..])])
  }

  lemma ChainIndexKept(a: seq<Chain>, b: seq<Chain>, name: string)
    requires |a| == |b| && forall j :: 0 <= j < |a| ==> a[j].name == b[j].name
    ensures ChainIndex(a, name) == ChainIndex(b, name)
  {
  }

  /** A rule appended to the chain: libiptc's `iptc_append_entry`, None when there is no such chain. */
  function AppendEntry(chains: seq<Chain>, chain: string, e: Entry): (r: Option<seq<Chain>>)
    ensures r.Some? <==> ChainIndex(chains, chain) < |chains|
    ensures r.Some? ==> |r.value| == |chains|
    ensures r.Some? ==> forall j :: 0 <= j < |chains| && j != ChainIndex(chains, chain) ==> r.value[j] == chains[j]
    ensures r.Some? ==> var k := ChainIndex(chains, chain);
      r.value[k] == Chain(chain, chains[k].rules + [e])
  {
    var k := ChainIndex(chains, chain);
    if k == |chains| then None
    else
      assert chains[k].rules[..|chains[k].rules|] + [e] + chains[k].rules[|chains[k].rules|..] == chains[k].rules + [e];
      InsertEntry(chains, chain, e, |chains[k].rules|)
  }

  /** The filter table after `openExternalPort` as written inserted its INPUT and OUTPUT rules, before the commit. */
  function ExternalPortTableAsWritten(L: Layout, filter: seq<Chain>, port: Port, protocol: int, comment: Option<string>): Option<seq<Chain>>
  {
    var input := InputFilterRule(L, port, protocol, comment);
    if input.None? then None
    else
      var t := InsertEntry(filter, "INPUT", input.value, INSERT_RULE_NUM);
      var output := OutputFilterRule(L, port, protocol, comment);
      if t.None? || output.None? then None
      else InsertEntry(t.value, "OUTPUT", output.value, INSERT_RULE_NUM)
  }

  /**
   * Where `openExternalPort` as written puts its rules: the input rule at
   * position 1 of INPUT and the output rule at position 1 of OUTPUT, the
   * second place of each; a chain with no rule yet makes the insertion fail.
   */
  lemma {:induction false} ExternalPortPlacementAsWritten(L: Layout, filter: seq<Chain>, port: Port, protocol: int, comment: Option<string>)
    ensures ExternalPortTableAsWritten(L, filter, port, protocol, comment).Some? ==>
      var t := ExternalPortTableAsWritten(L, filter, port, protocol, comment).value;
      var i := ChainIndex(filter, "INPUT");
      var o := ChainIndex(filter, "OUTPUT");
      && i < |t| && o < |t|
      && |t[i].rules| == |filter[i].rules| + 1 && t[i].rules[INSERT_RULE_NUM] == InputFilterRule(L, port, protocol, comment).value
      && |t[o].rules| == |filter[o].rules| + 1 && t[o].rules[INSERT_RULE_NUM] == OutputFilterRule(L, port, protocol, comment).value
      && forall j :: 0 <= j < |t| && j != i && j != o ==> t[j] == filter[j]
    ensures ((exists j :: 0 <= j < |filter| && filter[j].name == "INPUT") && filter[ChainIndex(filter, "INPUT")].rules == [])
      ==> ExternalPortTableAsWritten(L, filter, port, protocol, comment).None?
  {
    var input := InputFilterRule(L, port, protocol, comment);
    if input.Some? {
      var t1 := InsertEntry(filter, "INPUT", input.value, INSERT_RULE_NUM);
      if t1.Some? {
        ChainIndexKept(filter, t1.value, "INPUT");
        ChainIndexKept(filter, t1.value, "OUTPUT");
      }
    }
  }

  /** The filter table after `openExternalPort` put its INPUT and OUTPUT rules at the head, before the commit. */
  function ExternalPortTable(L: Layout, filter: seq<Chain>, port: Port, protocol: int, comment: Option<string>): Option<seq<Chain>>
  {
    var input := InputFilterRule(L, port, protocol, comment);
    if input.None? then None
    else
      var t := InsertEntry(filter, "INPUT", input.value, HEAD_RULE_NUM);
      var output := OutputFilterRule(L, port, protocol, comment);
      if t.None? || output.None? then None
      else InsertEntry(t.value, "OUTPUT", output.value, HEAD_RULE_NUM)
  }

  /**
   * Where `openExternalPort` puts its rules once corrected: first in INPUT
   * and first in OUTPUT, as `iptables -I` does. It fails only when a rule
   * cannot be built or a chain is missing, an empty chain included.
   */
  lemma {:induction false} ExternalPortPlacement(L: Layout, filter: seq<Chain>, port: Port, protocol: int, comment: Option<string>)
    ensures ExternalPortTable(L, filter, port, protocol, comment).Some? <==>
      InputFilterRule(L, port, protocol, comment).Some? && OutputFilterRule(L, port, protocol, comment).Some?
      && ChainIndex(filter, "INPUT") < |filter| && ChainIndex(filter, "OUTPUT") < |filter|
    ensures ExternalPortTable(L, filter, port, protocol, comment).Some? ==>
      var t := ExternalPortTable(L, filter, port, protocol, comment).value;
      var i := ChainIndex(filter, "INPUT");
      var o := ChainIndex(filter, "OUTPUT");
      && |t| == |filter|
      && t[i].rules == [InputFilterRule(L, port, protocol, comment).value] + filter[i].rules
      && t[o].rules == [OutputFilterRule(L, port, protocol, comment).value] + filter[o].rules
      && forall j :: 0 <= j < |t| && j != i && j != o ==> t[j] == filter[j]
  {
    var input := InputFilterRule(L, port, protocol, comment);
    if input.Some? {
      var t1 := InsertEntry(filter, "INPUT", input.value, HEAD_RULE_NUM);
      if t1.Some? {
        ChainIndexKept(filter, t1.value, "INPUT");
        ChainIndexKept(filter, t1.value, "OUTPUT");
        var i := ChainIndex(filter, "INPUT");
        assert filter[i].rules[..0] + [input.value] + filter[i].rules[0..] == [input.value] + filter[i].rules;
        var output := OutputFilterRule(L, port, protocol, comment);
        if output.Some? {
          var o := ChainIndex(filter, "OUTPUT");
          if o < |filter| {
            assert t1.value[o].rules[..0] + [output.value] + t1.value[o].rules[0..] == [output.value] + t1.value[o].rules;
          }
        }
      }
    }
  }

  /** The nat table after `addContainerHolePunch` as written inserted its PREROUTING rule, before the commit. */
  function HolePunchNatTableAsWritten(L: Layout, natTable: seq<Chain>, bridge: string, protocol: int, externalPort: Port,
                                      containerIp: Addr, containerPort: Port, comment: Option<string>): Option<seq<Chain>>
  {
    var e := DnatRule(L, bridge, protocol, externalPort, containerIp, containerPort, comment);
    if e.None? then None else InsertEntry(natTable, "PREROUTING", e.value, INSERT_RULE_NUM)
  }

  /** The filter table after `addContainerHolePunch` as written inserted its FORWARD rule, before the commit. */
  function HolePunchFilterTableAsWritten(L: Layout, filter: seq<Chain>, bridge: string, protocol: int,
                                         containerIp: Addr, containerPort: Port, comment: Option<string>): Option<seq<Chain>>
  {
    var e := ForwardingRule(L, bridge, protocol, containerIp, containerPort, comment);
    if e.None? then None else InsertEntry(filter, "FORWARD", e.value, INSERT_RULE_NUM)
  }

  /**
   * Where `addContainerHolePunch` as written puts its rules: the DNAT rule
   * at position 1 of PREROUTING rather than last, the forwarding rule at
   * position 1 of FORWARD rather than first; an empty chain makes either
   * insertion fail.
   */
  lemma HolePunchPlacementAsWritten(L: Layout, natTable: seq<Chain>, filter: seq<Chain>, bridge: string, protocol: int,
                                    externalPort: Port, containerIp: Addr, containerPort: Port, comment: Option<string>)
    ensures HolePunchNatTableAsWritten(L, natTable, bridge, protocol, externalPort, containerIp, containerPort, comment).Some? ==>
      var t := HolePunchNatTableAsWritten(L, natTable, bridge, protocol, externalPort, containerIp, containerPort, comment).value;
      var k := ChainIndex(natTable, "PREROUTING");
      k < |t| && |t[k].rules| == |natTable[k].rules| + 1
      && t[k].rules[INSERT_RULE_NUM] == DnatRule(L, bridge, protocol, externalPort, containerIp, containerPort, comment).value
    ensures HolePunchFilterTableAsWritten(L, filter, bridge, protocol, containerIp, containerPort, comment).Some? ==>
      var t := HolePunchFilterTableAsWritten(L, filter, bridge, protocol, containerIp, containerPort, comment).value;
      var k := ChainIndex(filter, "FORWARD");
      k < |t| && |t[k].rules| == |filter[k].rules| + 1
      && t[k].rules[INSERT_RULE_NUM] == ForwardingRule(L, bridge, protocol, containerIp, containerPort, comment).value
    ensures ChainIndex(natTable, "PREROUTING") < |natTable| && natTable[ChainIndex(natTable, "PREROUTING")].rules == [] ==>
      HolePunchNatTableAsWritten(L, natTable, bridge, protocol, externalPort, containerIp, containerPort, comment).None?
    ensures ChainIndex(filter, "FORWARD") < |filter| && filter[ChainIndex(filter, "FORWARD")].rules == [] ==>
      HolePunchFilterTableAsWritten(L, filter, bridge, protocol, containerIp, containerPort, comment).None?
  {
  }

  /** The nat table after `addContainerHolePunch` appended its PREROUTING rule, before the commit. */
  function HolePunchNatTable(L: Layout, natTable: seq<Chain>, bridge: string, protocol: int, externalPort: Port,
                             containerIp: Addr, containerPort: Port, comment: Option<string>): Option<seq<Chain>>
  {
    var e := DnatRule(L, bridge, protocol, externalPort, containerIp, containerPort, comment);
    if e.None? then None else AppendEntry(natTable, "PREROUTING", e.value)
  }

  /** The filter table after `addContainerHolePunch` put its FORWARD rule at the head, before the commit. */
  function HolePunchFilterTable(L: Layout, filter: seq<Chain>, bridge: string, protocol: int,
                                containerIp: Addr, containerPort: Port, comment: Option<string>): Option<seq<Chain>>
  {
    var e := ForwardingRule(L, bridge, protocol, containerIp, containerPort, comment);
    if e.None? then None else InsertEntry(filter, "FORWARD", e.value, HEAD_RULE_NUM)
  }

  /**
   * Where `addContainerHolePunch` puts its rules once corrected: the DNAT
   * rule last in PREROUTING (`-A`), the forwarding rule first in FORWARD
   * (`-I FORWARD 1`); each fails only when its rule cannot be built or its
   * chain is missing.
   */
  lemma HolePunchPlacement(L: Layout, natTable: seq<Chain>, filter: seq<Chain>, bridge: string, protocol: int,
                           externalPort: Port, containerIp: Addr, containerPort: Port, comment: Option<string>)
    ensures HolePunchNatTable(L, natTable, bridge, protocol, externalPort, containerIp, containerPort, comment).Some? <==>
      DnatRule(L, bridge, protocol, externalPort, containerIp, containerPort, comment).Some?
      && ChainIndex(natTable, "PREROUTING") < |natTable|
    ensures HolePunchNatTable(L, natTable, bridge, protocol, externalPort, containerIp, containerPort, comment).Some? ==>
      var t := HolePunchNatTable(L, natTable, bridge, protocol, externalPort, containerIp, containerPort, comment).value;
      var k := ChainIndex(natTable, "PREROUTING");
      && t[k].rules == natTable[k].rules + [DnatRule(L, bridge, protocol, externalPort, containerIp, containerPort, comment).value]
      && forall j :: 0 <= j < |t| && j != k ==> t[j] == natTable[j]
    ensures HolePunchFilterTable(L, filter, bridge, protocol, containerIp, containerPort, comment).Some? <==>
      ForwardingRule(L, bridge, protocol, containerIp, containerPort, comment).Some?
      && ChainIndex(filter, "FORWARD") < |filter|
    ensures HolePunchFilterTable(L, filter, bridge, protocol, containerIp, containerPort, comment).Some? ==>
      var t := HolePunchFilterTable(L, filter, bridge, protocol, containerIp, containerPort, comment).value;
      var k := ChainIndex(filter, "FORWARD");
      && t[k].rules == [ForwardingRule(L, bridge, protocol, containerIp, containerPort, comment).value] + filter[k].rules
      && forall j :: 0 <= j < |t| && j != k ==> t[j] == filter[j]
  {
    var e := ForwardingRule(L, bridge, protocol, containerIp, containerPort, comment);
    if e.Some? && ChainIndex(filter, "FORWARD") < |filter| {
      var k := ChainIndex(filter, "FORWARD");
      assert filter[k].rules[..0] + [e.value] + filter[k].rules[0..] == [e.value] + filter[k].rules;
    }
  }

  /** What `getContainerHolePunchedPorts` collects from one chain's rules, in order and without a bound. */
  function PunchedIn(L: Layout, bridge: string, containerIp: Addr, rules: seq<Entry>): seq<HolePunchEntry>
    decreases |rules|
  {
    if rules == [] then []
    else
      var e := PunchedEntry(L, bridge, containerIp, rules[|rules| - 1]);
      PunchedIn(L, bridge, containerIp, rules[..|rules| - 1]) + (if e.Some? then [e.value] else [])
  }

  /** One more rule adds at most its own hole punch to what is collected. */
  lemma PunchedInSnoc(L: Layout, bridge: string, containerIp: Addr, rules: seq<Entry>, i: nat)
    requires i < |rules|
    ensures var p := PunchedEntry(L, bridge, containerIp, rules[i]);
      PunchedIn(L, bridge, containerIp, rules[..i + 1])
        == PunchedIn(L, bridge, containerIp, rules[..i]) + (if p.Some? then [p.value] else [])
  {
    assert rules[..i + 1][..i] == rules[..i];
  }

  /** What it collects from a whole table: only chains called PREROUTING take part. */
  function PunchedInChains(L: Layout, bridge: string, containerIp: Addr, chains: seq<Chain>): seq<HolePunchEntry>
    decreases |chains|
  {
    if chains == [] then []
    else
      var c := chains[|chains| - 1];
      PunchedInChains(L, bridge, containerIp, chains[..|chains| - 1])
        + (if c.name == "PREROUTING" then PunchedIn(L, bridge, containerIp, c.rules) else [])
  }

  lemma {:induction false} PunchedInHas(L: Layout, bridge: string, containerIp: Addr, rules: seq<Entry>, i: nat)
    requires i < |rules| && PunchedEntry(L, bridge, containerIp, rules[i]).Some?
    ensures PunchedEntry(L, bridge, containerIp, rules[i]).value in PunchedIn(L, bridge, containerIp, rules)
    decreases |rules|
  {
    if i < |rules| - 1 {
      assert rules[..|rules| - 1][i] == rules[i];
      PunchedInHas(L, bridge, containerIp, rules[..|rules| - 1], i);
    }
  }

  lemma {:induction false} PunchedInChainsHas(L: Layout, bridge: string, containerIp: Addr, chains: seq<Chain>, k: nat, x: HolePunchEntry)
    requires k < |chains| && chains[k].name == "PREROUTING" && x in PunchedIn(L, bridge, containerIp, chains[k].rules)
    ensures x in PunchedInChains(L, bridge, containerIp, chains)
    decreases |chains|
  {
    if k < |chains| - 1 {
      assert chains[..|chains| - 1][k] == chains[k];
      PunchedInChainsHas(L, bridge, containerIp, chains[..|chains| - 1], k, x);
    }
  }

  /** A hole punch whose nat step went through is among the entries the listing finds. */
  lemma HolePunchListed(L: Layout, natTable: seq<Chain>, bridge: string, protocol: int, externalPort: Port,
                        containerIp: Addr, containerPort: Port, comment: Option<string>, query: Addr)
    requires |bridge| <= IFNAMSIZ - 1
    requires query == 0 || query == containerIp
    requires HolePunchNatTable(L, natTable, bridge, protocol, externalPort, containerIp, containerPort, comment).Some?
    ensures HolePunchEntry(protocol, externalPort, containerPort) in
      PunchedInChains(L, bridge, query, HolePunchNatTable(L, natTable, bridge, protocol, externalPort, containerIp, containerPort, comment).value)
  {
    var t := HolePunchNatTable(L, natTable, bridge, protocol, externalPort, containerIp, containerPort, comment).value;
    var e := DnatRule(L, bridge, protocol, externalPort, containerIp, containerPort, comment).value;
    DnatRuleReadBack(L, bridge, protocol, externalPort, containerIp, containerPort, comment, query);
    var k := ChainIndex(natTable, "PREROUTING");
    var last := |natTable[k].rules|;
    assert t[k].rules[last] == e;
    PunchedInHas(L, bridge, query, t[k].rules, last);
    PunchedInChainsHas(L, bridge, query, t, k, HolePunchEntry(protocol, externalPort, containerPort));
  }

  /**
   * The rule loop of `getContainerHolePunchedPorts` over one PREROUTING
   * chain: every rule that reads back as a hole punch is seen, and stored
   * while fewer than `maxEntries` are stored.
   */
  method CollectHolePunches(L: Layout, bridge: string, containerIp: Addr, rules: seq<Entry>, maxEntries: nat,
                            entries0: seq<HolePunchEntry>, ghost seen0: seq<HolePunchEntry>)
    returns (entries: seq<HolePunchEntry>, ghost seen: seq<HolePunchEntry>)
    requires entries0 == Take(seen0, maxEntries)
    ensures seen == seen0 + PunchedIn(L, bridge, containerIp, rules)
    ensures entries == Take(seen, maxEntries)
  {
    entries, seen := entries0, seen0;
    var i := 0;
    while i < |rules|
      invariant 0 <= i <= |rules|
      invariant seen == seen0 + PunchedIn(L, bridge, containerIp, rules[..i])
      invariant entries == Take(seen, maxEntries)
    {
      var entry := rules[i];
      ghost var p := PunchedEntry(L, bridge, containerIp, entry);
      assert PunchedIn(L, bridge, containerIp, rules[..i + 1])
        == PunchedIn(L, bridge, containerIp, rules[..i]) + (if p.Some? then [p.value] else []) by {
        PunchedInSnoc(L, bridge, containerIp, rules, i);
      }
      i := i + 1;
      var iface := EntryInterface(entry, true);
      if iface.0 != bridge || !iface.1 {
        assert seen + [] == seen;
        continue;
      }
      var dest := DnatDestinationOf(L, entry);
      if dest.None? || (containerIp != 0 && dest.value.0 != containerIp) {
        assert seen + [] == seen;
        continue;
      }
      var found, matchProtocol, sourcePort, matchPort := GetEntryTcpUdpMatchPort(L, entry);
      if !found || (matchProtocol != IPPROTO_TCP && matchProtocol != IPPROTO_UDP) {
        assert seen + [] == seen;
        continue;
      }
      var x := HolePunchEntry(matchProtocol, matchPort, dest.value.1);
      assert p == Some(x);
      seen := seen + [x];
      if |entries| < maxEntries {
        entries := entries + [x];
      }
    }
    assert rules[..i] == rules;
  }

  /** The first n elements, or all of them. */
  function Take<T>(s: seq<T>, n: nat): (r: seq<T>)
    ensures |r| == Min(|s|, n) && r == s[..|r|]
  {
    if |s| <= n then s else s[..n]
  }

  // ---------------------------------------------------------------------------
  // Removing rules by comment

  /** The tables `removeAllRulesMatchingComment` goes through, in order. */
  const REMOVAL_TABLES: seq<string> := ["filter", "nat"]

  /** The caller's zeroed comment buffer after `getEntryComment`. */
  function CommentBuffer(L: Layout, e: Entry): (r: string)
    ensures CommentOf(L, e).Some? ==> r == CommentOf(L, e).value
    ensures CommentOf(L, e).None? ==> r == ""
  {
    CommentOf(L, e).GetOr("")
  }

  /** A rule is up for deletion when its comment is non-empty and the matcher returns 0 for it. */
  predicate Selected(L: Layout, e: Entry, matcher: string -> int)
  {
    CommentBuffer(L, e) != "" && matcher(CommentBuffer(L, e)) == 0
  }

  /** A rule goes when it is selected and `iptc_delete_num_entry` succeeds on it. */
  predicate Deleted(L: Layout, e: Entry, matcher: string -> int, deleteOk: Entry -> bool)
  {
    Selected(L, e, matcher) && deleteOk(e)
  }

  /** Whether `removeAllRulesMatchingComment` takes a rule out. */
  function Gone(L: Layout, matcher: string -> int, deleteOk: Entry -> bool): Entry -> bool
  {
    e => Deleted(L, e, matcher, deleteOk)
  }

  /** The rules of a chain that stay, in their order. */
  function Kept<E>(rules: seq<E>, gone: E -> bool): (r: seq<E>)
    ensures |r| <= |rules|
    decreases |rules|
  {
    if rules == [] then []
    else Kept(rules[..|rules| - 1], gone) + (if gone(rules[|rules| - 1]) then [] else [rules[|rules| - 1]])
  }

  /** Exactly the rules that are not gone stay. */
  lemma {:induction false} KeptExactly<E>(rules: seq<E>, gone: E -> bool)
    ensures forall x :: x in Kept(rules, gone) ==> x in rules && !gone(x)
    ensures forall i :: 0 <= i < |rules| && !gone(rules[i]) ==> rules[i] in Kept(rules, gone)
    decreases |rules|
  {
    if rules != [] {
      var front := rules[..|rules| - 1];
      KeptExactly(front, gone);
      assert forall i :: 0 <= i < |front| ==> front[i] == rules[i];
    }
  }

  lemma KeptStep<E>(rules: seq<E>, i: nat, gone: E -> bool)
    requires i < |rules|
    ensures Kept(rules[..i + 1], gone) == Kept(rules[..i], gone) + (if gone(rules[i]) then [] else [rules[i]])
  {
    assert rules[..i + 1][..i] == rules[..i];
  }

  /** Keeping every rule means keeping the chain as it was. */
  lemma {:induction false} KeptAll<E>(rules: seq<E>, gone: E -> bool)
    requires |Kept(rules, gone)| == |rules|
    ensures Kept(rules, gone) == rules
    decreases |rules|
  {
    if rules != [] {
      var front := rules[..|rules| - 1];
      KeptAll(front, gone);
      assert rules == front + [rules[|rules| - 1]];
    }
  }

  /**
   * The loop over one chain: `index` is the position of the current rule
   * in the working copy; it advances past a rule that stays (not selected,
   * or the deletion failed) and stays put after a deletion.
   */
  method DeleteMatchingRules(L: Layout, rules: seq<Entry>, matcher: string -> int, deleteOk: Entry -> bool)
    returns (chain: seq<Entry>, changes: nat)
    ensures chain == Kept(rules, Gone(L, matcher, deleteOk))
    ensures changes == |rules| - |chain|
  {
    ghost var gone := Gone(L, matcher, deleteOk);
    chain, changes := rules, 0;
    var index := 0;
    var i := 0;
    while i < |rules|
      invariant 0 <= i <= |rules|
      invariant chain == Kept(rules[..i], gone) + rules[i..]
      invariant index == |Kept(rules[..i], gone)|
      invariant changes == i - index
    {
      var entry := rules[i];
      var found, comment := GetEntryComment(L, entry);
      var goes := false;
      if |comment| != 0 && matcher(comment) == 0 {
        goes := deleteOk(entry);
      }
      DropStep(rules, i, chain, index, gone, goes);
      if goes {
        chain := chain[..index] + chain[index + 1..];
        changes := changes + 1;
      } else {
        index := index + 1;
      }
      i := i + 1;
    }
    assert rules[..i] == rules;
  }

  /** One turn of the chain loop, for any deletion decision `goes` that agrees with `gone`. */
  lemma DropStep<E>(rules: seq<E>, i: nat, chain: seq<E>, index: nat, gone: E -> bool, goes: bool)
    requires i < |rules| && goes == gone(rules[i])
    requires chain == Kept(rules[..i], gone) + rules[i..] && index == |Kept(rules[..i], gone)|
    ensures goes ==> chain[..index] + chain[index + 1..] == Kept(rules[..i + 1], gone) + rules[i + 1..]
    ensures goes ==> |Kept(rules[..i + 1], gone)| == index
    ensures !goes ==> chain == Kept(rules[..i + 1], gone) + rules[i + 1..]
    ensures !goes ==> |Kept(rules[..i + 1], gone)| == index + 1
  {
    KeptStep(rules, i, gone);
    assert rules[i..] == [rules[i]] + rules[i + 1..];
    if goes {
      assert chain[..index] == Kept(rules[..i], gone);
      assert chain[index + 1..] == rules[i + 1..];
    }
  }

  function Pruned(chains: seq<Chain>, gone: Entry -> bool): (r: seq<Chain>)
    ensures |r| == |chains|
    ensures forall j :: 0 <= j < |chains| ==> r[j] == Chain(chains[j].name, Kept(chains[j].rules, gone))
  {
    seq(|chains|, j requires 0 <= j < |chains| => Chain(chains[j].name, Kept(chains[j].rules, gone)))
  }

  /** The number of deletions made in a table (`changes`). */
  function DeletedCount(chains: seq<Chain>, gone: Entry -> bool): nat
    decreases |chains|
  {
    if chains == [] then 0
    else
      var c := chains[|chains| - 1];
      DeletedCount(chains[..|chains| - 1], gone) + (|c.rules| - |Kept(c.rules, gone)|)
  }

  /** With no deletion in the table, no chain loses a rule. */
  lemma {:induction false} NoDeletionInChain(chains: seq<Chain>, gone: Entry -> bool, j: nat)
    requires DeletedCount(chains, gone) == 0 && j < |chains|
    ensures |Kept(chains[j].rules, gone)| == |chains[j].rules|
    decreases |chains|
  {
    var front := chains[..|chains| - 1];
    var c := chains[|chains| - 1];
    assert DeletedCount(front, gone) == 0 && |Kept(c.rules, gone)| == |c.rules|;
    if j < |front| {
      assert front[j] == chains[j];
      NoDeletionInChain(front, gone, j);
    }
  }

  /** A table with no deletion is its own pruned form, so skipping the commit then loses nothing. */
  lemma NoDeletionNoChange(chains: seq<Chain>, gone: Entry -> bool)
    requires DeletedCount(chains, gone) == 0
    ensures Pruned(chains, gone) == chains
  {
    var p := Pruned(chains, gone);
    forall j | 0 <= j < |chains|
      ensures p[j] == chains[j]
    {
      NoDeletionInChain(chains, gone, j);
      KeptAll(chains[j].rules, gone);
    }
  }

  /** The loop over the chains of one table's working copy. */
  method DeleteMatchingRulesInTable(L: Layout, chains: seq<Chain>, matcher: string -> int, deleteOk: Entry -> bool)
    returns (working: seq<Chain>, changes: nat)
    ensures working == Pruned(chains, Gone(L, matcher, deleteOk))
    ensures changes == DeletedCount(chains, Gone(L, matcher, deleteOk))
  {
    working, changes := chains, 0;
    var j := 0;
    while j < |chains|
      invariant 0 <= j <= |chains| && |working| == |chains|
      invariant forall x :: 0 <= x < j ==> working[x] == Chain(chains[x].name, Kept(chains[x].rules, Gone(L, matcher, deleteOk)))
      invariant forall x :: j <= x < |chains| ==> working[x] == chains[x]
      invariant changes == DeletedCount(chains[..j], Gone(L, matcher, deleteOk))
    {
      var kept, n := DeleteMatchingRules(L, chains[j].rules, matcher, deleteOk);
      working := working[j := Chain(chains[j].name, kept)];
      assert chains[..j + 1][..j] == chains[..j] && chains[..j + 1][j] == chains[j];
      changes := changes + n;
      j := j + 1;
    }
    assert chains[..j] == chains;
  }

  /** One table's turn: the pruned copy is written back when something was deleted and the commit succeeds. */
  function RemovalStep(L: Layout, tables: map<string, seq<Chain>>, name: string,
                       matcher: string -> int, deleteOk: Entry -> bool, commitOk: string -> bool): map<string, seq<Chain>>
  {
    if name in tables && DeletedCount(tables[name], Gone(L, matcher, deleteOk)) > 0 && commitOk(name)
    then tables[name := Pruned(tables[name], Gone(L, matcher, deleteOk))]
    else tables
  }

  function RemovalSteps(L: Layout, tables: map<string, seq<Chain>>, names: seq<string>,
                        matcher: string -> int, deleteOk: Entry -> bool, commitOk: string -> bool): map<string, seq<Chain>>
    decreases |names|
  {
    if names == [] then tables
    else RemovalStep(L, RemovalSteps(L, tables, names[..|names| - 1], matcher, deleteOk, commitOk),
                     names[|names| - 1], matcher, deleteOk, commitOk)
  }

  /**
   * The outcome of `removeAllRulesMatchingComment` per table: the filter
   * and nat tables lose exactly their deleted rules when the commit
   * succeeds and are untouched otherwise; every other table is untouched.
   */
  lemma RemovalOutcome(L: Layout, tables: map<string, seq<Chain>>,
                       matcher: string -> int, deleteOk: Entry -> bool, commitOk: string -> bool)
    ensures var after := RemovalSteps(L, tables, REMOVAL_TABLES, matcher, deleteOk, commitOk);
      && after.Keys == tables.Keys
      && (forall name :: name in tables && name in REMOVAL_TABLES && commitOk(name) ==>
            after[name] == Pruned(tables[name], Gone(L, matcher, deleteOk)))
      && (forall name :: name in tables && (name !in REMOVAL_TABLES || !commitOk(name)) ==> after[name] == tables[name])
  {
    assert REMOVAL_TABLES[..1] == ["filter"] && REMOVAL_TABLES[..0] == [];
    forall name | name in tables && name in REMOVAL_TABLES && DeletedCount(tables[name], Gone(L, matcher, deleteOk)) == 0
      ensures Pruned(tables[name], Gone(L, matcher, deleteOk)) == tables[name]
    {
      NoDeletionNoChange(tables[name], Gone(L, matcher, deleteOk));
    }
  }

  /** After a committed removal, no rule of the table is one that was selected and deletable. */
  lemma RemovedRulesGone(L: Layout, chains: seq<Chain>, matcher: string -> int, deleteOk: Entry -> bool)
    ensures forall j, e :: 0 <= j < |chains| && e in Pruned(chains, Gone(L, matcher, deleteOk))[j].rules ==>
      !Deleted(L, e, matcher, deleteOk)
  {
    forall j | 0 <= j < |chains| {
      KeptExactly(chains[j].rules, Gone(L, matcher, deleteOk));
    }
  }

  // ---------------------------------------------------------------------------
  // The rule set

  /**
   * The kernel's iptables rule set, table by table. `iptc_init(name)`
   * fails when the table is absent and otherwise takes a working copy;
   * `iptc_commit` replaces the table with the copy when `commitOk(name)`.
   */
  class IpTables {
    var tables: map<string, seq<Chain>>

    constructor(initial: map<string, seq<Chain>>)
      ensures tables == initial
    {
      tables := initial;
    }

    /** `openExternalPort`: 0 when both rules were inserted and committed, -1 with nothing changed otherwise. */
    method OpenExternalPort(L: Layout, port: Port, protocol: int, comment: Option<string>, commitOk: string -> bool)
      returns (rc: int)
      modifies this
      ensures rc == 0 <==> ("filter" in old(tables)
        && ExternalPortTable(L, old(tables)["filter"], port, protocol, comment).Some? && commitOk("filter"))
      ensures rc == 0 ==> tables == old(tables)["filter" := ExternalPortTable(L, old(tables)["filter"], port, protocol, comment).value]
      ensures rc != 0 ==> rc == -1 && tables == old(tables)
    {
      if "filter" !in tables {
        return -1;
      }
      var table := tables["filter"];
      var inputEntry := CreateInputFilterRule(L, port, protocol, comment);
      if inputEntry.None? {
        return -1;
      }
      var inserted := InsertEntry(table, "INPUT", inputEntry.value, HEAD_RULE_NUM);
      if inserted.None? {
        return -1;
      }
      table := inserted.value;
      var outputEntry := CreateOutputFilterRule(L, port, protocol, comment);
      if outputEntry.None? {
        return -1;
      }
      inserted := InsertEntry(table, "OUTPUT", outputEntry.value, HEAD_RULE_NUM);
      if inserted.None? {
        return -1;
      }
      table := inserted.value;
      if !commitOk("filter") {
        return -1;
      }
      tables := tables["filter" := table];
      return 0;
    }

    /**
     * `addContainerHolePunch`: the nat PREROUTING rule is inserted and
     * committed first, then the filter FORWARD rule; a failure in the
     * second half returns -1 but leaves the committed nat rule in place.
     */
    method AddContainerHolePunch(L: Layout, bridge: string, protocol: int, externalPort: Port,
                                 containerIp: Addr, containerPort: Port, comment: Option<string>, commitOk: string -> bool)
      returns (rc: int)
      modifies this
      ensures var natDone := "nat" in old(tables) && commitOk("nat") &&
                HolePunchNatTable(L, old(tables)["nat"], bridge, protocol, externalPort, containerIp, containerPort, comment).Some?;
              var filterDone := "filter" in old(tables) && commitOk("filter") &&
                HolePunchFilterTable(L, old(tables)["filter"], bridge, protocol, containerIp, containerPort, comment).Some?;
        && (rc == 0 <==> natDone && filterDone)
        && (rc != 0 ==> rc == -1)
        && (!natDone ==> tables == old(tables))
        && (natDone ==> var natTable := HolePunchNatTable(L, old(tables)["nat"], bridge, protocol, externalPort,
                                                           containerIp, containerPort, comment).value;
             if filterDone
             then tables == old(tables)["nat" := natTable]["filter" :=
                    HolePunchFilterTable(L, old(tables)["filter"], bridge, protocol, containerIp, containerPort, comment).value]
             else tables == old(tables)["nat" := natTable])
    {
      if "nat" !in tables {
        return -1;
      }
      var natEntry := CreateDnatRule(L, bridge, protocol, externalPort, containerIp, containerPort, comment);
      if natEntry.None? {
        return -1;
      }
      var natTable := AppendEntry(tables["nat"], "PREROUTING", natEntry.value);
      if natTable.None? || !commitOk("nat") {
        return -1;
      }
      tables := tables["nat" := natTable.value];

      if "filter" !in tables {
        return -1;
      }
      var forwardEntry := CreateForwardingRule(L, bridge, protocol, containerIp, containerPort, comment);
      if forwardEntry.None? {
        return -1;
      }
      var filterTable := InsertEntry(tables["filter"], "FORWARD", forwardEntry.value, HEAD_RULE_NUM);
      if filterTable.None? || !commitOk("filter") {
        return -1;
      }
      tables := tables["filter" := filterTable.value];
      return 0;
    }

    /** `removeAllRulesMatchingComment`: always 0. */
    method RemoveAllRulesMatchingComment(L: Layout, matcher: string -> int, deleteOk: Entry -> bool, commitOk: string -> bool)
      returns (rc: int)
      modifies this
      ensures rc == 0
      ensures tables == RemovalSteps(L, old(tables), REMOVAL_TABLES, matcher, deleteOk, commitOk)
    {
      ghost var before := tables;
      for t := 0 to |REMOVAL_TABLES|
        invariant tables == RemovalSteps(L, before, REMOVAL_TABLES[..t], matcher, deleteOk, commitOk)
      {
        var name := REMOVAL_TABLES[t];
        assert REMOVAL_TABLES[..t + 1][..t] == REMOVAL_TABLES[..t];
        if name !in tables {
          continue;
        }
        var working, changes := DeleteMatchingRulesInTable(L, tables[name], matcher, deleteOk);
        if changes > 0 && commitOk(name) {
          tables := tables[name := working];
        }
      }
      assert REMOVAL_TABLES[..|REMOVAL_TABLES|] == REMOVAL_TABLES;
      return 0;
    }

    /**
     * `getContainerHolePunchedPorts`: -1 and no entries when the nat table
     * cannot be opened; otherwise 0 and the qualifying PREROUTING entries
     * in table order, at most `maxEntries` of them (the size passed in).
     */
    method GetContainerHolePunchedPorts(L: Layout, bridge: string, containerIp: Addr, maxEntries: nat)
      returns (rc: int, entries: seq<HolePunchEntry>)
      ensures "nat" !in tables ==> rc == -1 && entries == []
      ensures "nat" in tables ==> rc == 0 && entries == Take(PunchedInChains(L, bridge, containerIp, tables["nat"]), maxEntries)
      ensures |entries| <= maxEntries
    {
      entries := [];
      if "nat" !in tables {
        return -1, entries;
      }
      var chains := tables["nat"];
      ghost var seen: seq<HolePunchEntry> := [];
      var j := 0;
      while j < |chains|
        invariant 0 <= j <= |chains|
        invariant seen == PunchedInChains(L, bridge, containerIp, chains[..j])
        invariant entries == Take(seen, maxEntries)
      {
        assert chains[..j + 1][..j] == chains[..j] && chains[..j + 1][j] == chains[j];
        if chains[j].name == "PREROUTING" {
          entries, seen := CollectHolePunches(L, bridge, containerIp, chains[j].rules, maxEntries, entries, seen);
        }
        j := j + 1;
      }
      assert chains[..j] == chains;
      return 0, entries;
    }
  }
}
