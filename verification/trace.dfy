/** The secure trace: walk the label chain of a query name from the least
    specific entry to the full name; at each zone cut re-point the working
    resolver at that cut's nameservers and ask them for DNSKEY and DS
    material. The network, the printer and the library's resolver plumbing
    are modelled as values: replies come from an oracle, output is an
    append-only event log. */
module Trace {
  import opened Dns
  import opened Extract
  import opened Labels

  /** Where a query goes: the caller's local resolver, or the working
      resolver with the given nameserver address records installed. */
  datatype Target = Local | Servers(addrs: seq<RR>)

  /** The network as an oracle. `send` is a resolver send or query: the
      reply, or nothing when no packet came back. `addrsByName` is the
      local resolver's address lookup of a host name. */
  datatype Network = Network(
    send: (Target, Name, RRType, RRClass) -> Option<Packet>,
    addrsByName: (Name, RRClass) -> seq<RR>)

  /** Library behaviour the trace relies on but whose code is not modelled. */
  datatype Library = Library(
    root: Name,                     // the root name "."
    rootHints: seq<RR>,             // the process-wide root server addresses
    labelCount: Name -> uint8,      // number of labels of a name
    leftChop: Name -> Name,         // a name without its leftmost label
    pushAccepts: seq<RR> -> bool)   // whether installing these addresses succeeds

  datatype Env = Env(net: Network, lib: Library)

  /** Which record set a print shows. DS sets at the owner and DS sets from a
      referral print alike; the tag only says which lookup found them. */
  datatype Shown = NsSet | KeySet | DsSet | ReferralDsSet

  datatype Warning = NoRootInformation

  datatype Abort =
    | RootSetupFailed        // the root hints could not be installed
    | LocalResolverUnusable  // the root NS probe to the local resolver failed
    | NoPacketReceived       // the initial query brought no packet back
    | NoNameserverAddress    // no glue and no address for any NS host name
    | AddNameserversFailed   // installing a cut's addresses failed

  /** Observable steps of the trace, in the order they happen. */
  datatype Event =
    | Sent(to: Target, qname: Name, qtype: RRType, qclass: RRClass)
    | AddressLookup(host: Name, lclass: RRClass)
    | ShowPacket(p: Packet)
    | ShowRRs(what: Shown, rrs: seq<RR>)
    | Blank
    | Warned(w: Warning)
    | Failed(reason: Abort)

  datatype Outcome = Finished | Aborted(reason: Abort)

  /** The trace's working state between zone cuts: the nameservers installed
      on the working resolver, the DNSKEY and DS lists of the current cut, the
      signature lists of the whole trace, and the log so far. */
  datatype State = State(
    servers: seq<RR>,
    keyList: seq<RR>,
    keySigs: seq<RR>,
    dsList: seq<RR>,
    dsSigs: seq<RR>,
    log: seq<Event>)

  /** Where an event goes: onto the wire as a query, or to the screen as
      a print, the warning or the abort message. Address lookups go to
      neither. */
  datatype Channel = Wire | Screen

  predicate On(ch: Channel, e: Event)
  {
    match ch
    case Wire => e.Sent?
    case Screen => !e.Sent? && !e.AddressLookup?
  }

  /** The events of `log` on channel `ch`, in order. */
  function Filter(log: seq<Event>, ch: Channel): seq<Event>
  {
    if log == [] then []
    else (if On(ch, log[0]) then [log[0]] else []) + Filter(log[1..], ch)
  }

  /** The queries of a log, in order. */
  function Queries(log: seq<Event>): seq<Event>
  {
    Filter(log, Wire)
  }

  /** The output of a log, in order. */
  function Output(log: seq<Event>): seq<Event>
  {
    Filter(log, Screen)
  }

  lemma {:induction false} FilterAppend(a: seq<Event>, b: seq<Event>, ch: Channel)
    ensures Filter(a + b, ch) == Filter(a, ch) + Filter(b, ch)
  {
    if a != [] {
      assert (a + b)[1..] == a[1..] + b;
      FilterAppend(a[1..], b, ch);
    } else {
      assert a + b == b;
    }
  }

  lemma {:induction false} FilterNone(log: seq<Event>, ch: Channel)
    requires forall k :: 0 <= k < |log| ==> !On(ch, log[k])
    ensures Filter(log, ch) == []
  {
    if log != [] {
      FilterNone(log[1..], ch);
    }
  }

  lemma {:induction false} FilterAll(log: seq<Event>, ch: Channel)
    requires forall k :: 0 <= k < |log| ==> On(ch, log[k])
    ensures Filter(log, ch) == log
  {
    if log != [] {
      FilterAll(log[1..], ch);
      assert [log[0]] + log[1..] == log;
    }
  }

  /** The host names the fallback looks up: the first rdata field of each NS
      record, stopping at the first record that has none. */
  function NsTargets(nss: seq<RR>): seq<Name>
  {
    if nss == [] || nss[0].rdfs == [] then []
    else [nss[0].rdfs[0]] + NsTargets(nss[1..])
  }

  /** The host names are the leading NS records' first rdata fields, in
      order, and collection stops exactly at a record without one. */
  lemma {:induction false} NsTargetsSpec(nss: seq<RR>)
    ensures |NsTargets(nss)| <= |nss|
    ensures forall k :: 0 <= k < |NsTargets(nss)| ==> nss[k].rdfs != [] && NsTargets(nss)[k] == nss[k].rdfs[0]
    ensures |NsTargets(nss)| < |nss| ==> nss[|NsTargets(nss)|].rdfs == []
  {
    if nss != [] && nss[0].rdfs != [] {
      NsTargetsSpec(nss[1..]);
    }
  }

  /** The addresses the local resolver gives for `hosts`, concatenated. */
  function Gather(net: Network, hosts: seq<Name>, c: RRClass): seq<RR>
  {
    if hosts == [] then []
    else net.addrsByName(hosts[0], c) + Gather(net, hosts[1..], c)
  }

  /** An address is gathered exactly when one of the hosts resolves to it. */
  lemma {:induction false} GatherMembers(net: Network, hosts: seq<Name>, c: RRClass)
    ensures forall x {:trigger x in Gather(net, hosts, c)} :: x in Gather(net, hosts, c) <==> exists h :: h in hosts && x in net.addrsByName(h, c)
  {
    if hosts != [] {
      GatherMembers(net, hosts[1..], c);
      forall x {:trigger x in Gather(net, hosts, c)} | x in Gather(net, hosts, c)
        ensures exists h :: h in hosts && x in net.addrsByName(h, c)
      {
        if x !in net.addrsByName(hosts[0], c) {
          assert x in Gather(net, hosts[1..], c);
          var h :| h in hosts[1..] && x in net.addrsByName(h, c);
          assert h in hosts;
        } else {
          assert hosts[0] in hosts;
        }
      }
      forall x | exists h :: h in hosts && x in net.addrsByName(h, c)
        ensures x in Gather(net, hosts, c)
      {
        var h :| h in hosts && x in net.addrsByName(h, c);
        if h != hosts[0] {
          assert h in hosts[1..];
        }
      }
    }
  }

  /** The NS set of a referral: from the authority section, or from the
      answer section when the authority section has none. */
  function NsRecords(reply: Option<Packet>): seq<RR>
  {
    var auth := ByType(reply, NS, AuthoritySection);
    if auth != [] then auth else ByType(reply, NS, AnswerSection)
  }

  /** The NS set holds exactly the authority section's NS records when there
      are any, and otherwise exactly the answer section's. */
  lemma NsRecordsSpec(reply: Option<Packet>)
    ensures forall x {:trigger x in NsRecords(reply)} :: x in NsRecords(reply) ==> reply.Some? && x.rtype == NS
    ensures HasNs(reply, AuthoritySection) ==>
              forall x {:trigger x in NsRecords(reply)} :: x in NsRecords(reply) <==> reply.Some? && x in reply.value.authority && x.rtype == NS
    ensures !HasNs(reply, AuthoritySection) ==>
              forall x {:trigger x in NsRecords(reply)} :: x in NsRecords(reply) <==> reply.Some? && x in reply.value.answer && x.rtype == NS
  {
    var auth := ByType(reply, NS, AuthoritySection);
    if HasNs(reply, AuthoritySection) {
      var x :| x in reply.value.authority && x.rtype == NS;
      assert x in auth;
    }
    if auth != [] {
      assert auth[0] in auth;
      assert HasNs(reply, AuthoritySection);
    }
  }

  /** Some NS record sits in section `s` of the reply. */
  predicate HasNs(reply: Option<Packet>, s: Section)
  {
    reply.Some? && exists x {:trigger x in reply.value.Records(s)} :: x in reply.value.Records(s) && x.rtype == NS
  }

  /** The aborts that can happen at a zone cut. */
  predicate CutAbort(a: Abort)
  {
    a == NoNameserverAddress || a == AddNameserversFailed
  }

  /** How a zone cut's nameserver set is found. */
  datatype Refresh = Refresh(nss: seq<RR>, lookups: seq<Name>, servers: seq<RR>, failure: Option<Abort>)

  /** The nameservers a zone cut installs, found from the local resolver's NS
      reply for the cut. With AAAA or A glue in the additional section the
      servers are the AAAA glue followed by the A glue and nothing is looked
      up. Without glue the NS host names are looked up and their addresses
      are the servers; if there are none the trace cannot go on. Installing a
      list can fail. The previous cut's servers play no part. */
  function RefreshServers(env: Env, reply: Option<Packet>, c: RRClass): (r: Refresh)
    ensures r.failure.Some? ==> CutAbort(r.failure.value)
  {
    var aaaa := ByType(reply, AAAA, AdditionalSection);
    var a := ByType(reply, A, AdditionalSection);
    var nss := NsRecords(reply);
    if aaaa == [] && a == [] then
      var hosts := NsTargets(nss);
      var addrs := Gather(env.net, hosts, c);
      if addrs == [] then Refresh(nss, hosts, [], Some(NoNameserverAddress))
      else if !env.lib.pushAccepts(addrs) then Refresh(nss, hosts, [], Some(AddNameserversFailed))
      else Refresh(nss, hosts, addrs, None)
    else if aaaa != [] && !env.lib.pushAccepts(aaaa) then Refresh(nss, [], [], Some(AddNameserversFailed))
    else if a != [] && !env.lib.pushAccepts(a) then Refresh(nss, [], [], Some(AddNameserversFailed))
    else Refresh(nss, [], aaaa + a, None)
  }

  /** The two ways a cut's servers are found. With AAAA or A glue in the
      additional section the servers are the AAAA glue followed by the A glue
      and nothing is looked up; installing fails exactly when a non-empty
      glue list is refused. Without glue the NS host names are looked up and
      their addresses are the servers; none at all aborts the trace, and a
      refused list fails. */
  lemma RefreshServersCases(env: Env, reply: Option<Packet>, c: RRClass, r: Refresh)
    requires r == RefreshServers(env, reply, c)
    ensures r.nss == NsRecords(reply)
    ensures
      var aaaa := ByType(reply, AAAA, AdditionalSection);
      var a := ByType(reply, A, AdditionalSection);
      aaaa + a != [] ==>
        && r.lookups == []
        && (r.failure.None? <==> (aaaa == [] || env.lib.pushAccepts(aaaa)) && (a == [] || env.lib.pushAccepts(a)))
        && (r.failure.Some? ==> r.failure.value == AddNameserversFailed)
        && (r.failure.None? ==> r.servers == aaaa + a)
    ensures
      var glue := ByType(reply, AAAA, AdditionalSection) + ByType(reply, A, AdditionalSection);
      var fallback := Gather(env.net, NsTargets(NsRecords(reply)), c);
      glue == [] ==>
        && r.lookups == NsTargets(NsRecords(reply))
        && (fallback == [] ==> r.failure == Some(NoNameserverAddress))
        && (fallback != [] ==> (r.failure.None? <==> env.lib.pushAccepts(fallback)))
        && (fallback != [] && r.failure.Some? ==> r.failure.value == AddNameserversFailed)
        && (r.failure.None? ==> r.servers == fallback)
  {
    var aaaa := ByType(reply, AAAA, AdditionalSection);
    var a := ByType(reply, A, AdditionalSection);
    if aaaa + a == [] {
      assert aaaa == [] && a == [];
    } else {
      assert aaaa != [] || a != [];
    }
  }

  /** The refresh at zone cut `zone`, from the local resolver's NS reply. */
  function RefreshAt(env: Env, zone: Name, c: RRClass): Refresh
  {
    RefreshServers(env, env.net.send(Local, zone, NS, c), c)
  }

  /** Every installed server is glue of this cut's reply or an address of one
      of this cut's NS host names. */
  lemma InstalledServersComeFromThisCut(env: Env, reply: Option<Packet>, c: RRClass)
    requires RefreshServers(env, reply, c).failure.None?
    ensures forall s {:trigger s in RefreshServers(env, reply, c).servers} :: s in RefreshServers(env, reply, c).servers ==>
              (reply.Some? && s in reply.value.additional && (s.rtype == A || s.rtype == AAAA))
              || exists h :: h in RefreshServers(env, reply, c).lookups && s in env.net.addrsByName(h, c)
  {
    var r := RefreshServers(env, reply, c);
    if ByType(reply, AAAA, AdditionalSection) + ByType(reply, A, AdditionalSection) != [] {
      GlueServers(env, reply, c, r);
    } else {
      LookedUpServers(env, reply, c, r);
    }
  }

  lemma GlueServers(env: Env, reply: Option<Packet>, c: RRClass, r: Refresh)
    requires r == RefreshServers(env, reply, c) && r.failure.None?
    requires ByType(reply, AAAA, AdditionalSection) + ByType(reply, A, AdditionalSection) != []
    ensures forall s {:trigger s in r.servers} :: s in r.servers ==>
              reply.Some? && s in reply.value.additional && (s.rtype == A || s.rtype == AAAA)
  {
    RefreshServersCases(env, reply, c, r);
    var aaaa := ByType(reply, AAAA, AdditionalSection);
    var a := ByType(reply, A, AdditionalSection);
    forall s {:trigger s in r.servers} | s in r.servers
      ensures reply.Some? && s in reply.value.additional && (s.rtype == A || s.rtype == AAAA)
    {
      assert s in aaaa || s in a;
    }
  }

  lemma LookedUpServers(env: Env, reply: Option<Packet>, c: RRClass, r: Refresh)
    requires r == RefreshServers(env, reply, c) && r.failure.None?
    requires ByType(reply, AAAA, AdditionalSection) + ByType(reply, A, AdditionalSection) == []
    ensures forall s {:trigger s in r.servers} :: s in r.servers ==> exists h :: h in r.lookups && s in env.net.addrsByName(h, c)
  {
    RefreshServersCases(env, reply, c, r);
    forall s {:trigger s in r.servers} | s in r.servers
      ensures exists h :: h in r.lookups && s in env.net.addrsByName(h, c)
    {
      GatherMembers(env.net, r.lookups, c);
      assert s in Gather(env.net, r.lookups, c);
    }
  }

  /** `get_dnssec_pkt`: a question of class IN to the working resolver with
      `servers` installed; the reply, or nothing when no packet came back. */
  function GetDnssecPkt(env: Env, servers: seq<RR>, qname: Name, t: RRType): Option<Packet>
  {
    env.net.send(Servers(servers), qname, t, IN)
  }

  /** The queries of one zone cut, in their fixed order: NS at the cut via the
      local resolver, then DNSKEY and DS at the cut and DNSKEY at the full
      name, all three at the cut's servers. */
  function CutQueries(name: Name, c: RRClass, zone: Name, servers: seq<RR>): seq<Event>
  {
    [ Sent(Local, zone, NS, c),
      Sent(Servers(servers), zone, DNSKEY, IN),
      Sent(Servers(servers), zone, DS, IN),
      Sent(Servers(servers), name, DNSKEY, IN) ]
  }

  function ShowIfAny(what: Shown, rrs: seq<RR>): seq<Event>
  {
    if rrs != [] then [ShowRRs(what, rrs)] else []
  }

  /** The output of the three sub-queries: each non-empty set found, in query
      order, then a blank line. */
  function SubOutput(keys: seq<RR>, ds: seq<RR>, refDs: seq<RR>): seq<Event>
  {
    ShowIfAny(KeySet, keys) + ShowIfAny(DsSet, ds) + ShowIfAny(ReferralDsSet, refDs) + [Blank]
  }

  function Lookups(hosts: seq<Name>, c: RRClass): (evs: seq<Event>)
    ensures |evs| == |hosts|
    ensures forall k :: 0 <= k < |hosts| ==> evs[k] == AddressLookup(hosts[k], c)
  {
    seq(|hosts|, k requires 0 <= k < |hosts| => AddressLookup(hosts[k], c))
  }

  datatype CutResult = CutDone(st: State) | CutFailed(log: seq<Event>, reason: Abort)

  /** What a completed zone cut contributes to the trace: its queries, its
      output, and the signatures it appends to the DNSKEY and DS signature
      lists. */
  datatype Report = Report(queries: seq<Event>, output: seq<Event>, keySigs: seq<RR>, dsSigs: seq<RR>)

  function Join(a: Report, b: Report): Report
  {
    Report(a.queries + b.queries, a.output + b.output, a.keySigs + b.keySigs, a.dsSigs + b.dsSigs)
  }

  /** The report of a zone cut at `zone` whose NS discovery gave `rf`. It sends
      the NS query and the three sub-queries to rf's servers. It prints the NS
      set, a blank line, then whatever each sub-query finds. Its DNSKEY
      signatures are those found at the cut; its DS signatures are those found
      at the cut followed by those of the referral for the full name. */
  function ReportWith(env: Env, name: Name, c: RRClass, zone: Name, rf: Refresh): Report
  {
    var keys := FoundIn(GetDnssecPkt(env, rf.servers, zone, DNSKEY), Some(zone), DNSKEY);
    var ds := FoundIn(GetDnssecPkt(env, rf.servers, zone, DS), Some(zone), DS);
    var referral := FoundIn(GetDnssecPkt(env, rf.servers, name, DNSKEY), None, DS);
    Report(CutQueries(name, c, zone, rf.servers),
           [ShowRRs(NsSet, rf.nss), Blank] + SubOutput(keys.records, ds.records, referral.records),
           keys.sigs,
           ds.sigs + referral.sigs)
  }

  /** The report of the zone cut at `zone`, from its own NS discovery. */
  function CutReport(env: Env, name: Name, c: RRClass, zone: Name): Report
  {
    ReportWith(env, name, c, zone, RefreshAt(env, zone, c))
  }

  /** The three DNSSEC sub-queries of a zone cut once `servers` are
      installed: DNSKEY at the cut, DS at the cut, and DNSKEY at the full
      name read as a DS referral. What each finds is printed when non-empty;
      their classifications are ignored. Signatures pile up on the trace's
      lists; the per-cut DNSKEY and DS lists, empty on entry to every cut,
      end up cleared. */
  function SubQueries(env: Env, name: Name, zone: Name, servers: seq<RR>, st: State): (r: State)
    requires st.keyList == [] && st.dsList == []
    ensures r.servers == servers
    ensures r.keyList == [] && r.dsList == []
    ensures st.keySigs <= r.keySigs && st.dsSigs <= r.dsSigs && st.log <= r.log
    ensures forall s {:trigger s in r.keySigs[|st.keySigs|..]} :: s in r.keySigs[|st.keySigs|..] ==> s.rtype == RRSIG && s.owner == zone
    ensures forall s {:trigger s in r.dsSigs[|st.dsSigs|..]} :: s in r.dsSigs[|st.dsSigs|..] ==> s.rtype == RRSIG
    ensures Queries(r.log) == Queries(st.log)
              + [Sent(Servers(servers), zone, DNSKEY, IN), Sent(Servers(servers), zone, DS, IN),
                 Sent(Servers(servers), name, DNSKEY, IN)]
    ensures
      var keys := FoundIn(GetDnssecPkt(env, servers, zone, DNSKEY), Some(zone), DNSKEY);
      var ds := FoundIn(GetDnssecPkt(env, servers, zone, DS), Some(zone), DS);
      var referral := FoundIn(GetDnssecPkt(env, servers, name, DNSKEY), None, DS);
      && r.keySigs == st.keySigs + keys.sigs
      && r.dsSigs == st.dsSigs + ds.sigs + referral.sigs
      && Output(r.log) == Output(st.log) + SubOutput(keys.records, ds.records, referral.records)
  {
    var to := Servers(servers);
    var keys := GetKey(GetDnssecPkt(env, servers, zone, DNSKEY), zone, st.keyList, st.keySigs);
    var ds := GetDs(GetDnssecPkt(env, servers, zone, DS), Some(zone), st.dsList, st.dsSigs);
    var referral := GetDs(GetDnssecPkt(env, servers, name, DNSKEY), None, [], ds.sigs);
    var keyPart := [Sent(to, zone, DNSKEY, IN)] + ShowIfAny(KeySet, keys.rrlist);
    var dsPart := [Sent(to, zone, DS, IN)] + ShowIfAny(DsSet, ds.rrlist);
    var refPart := [Sent(to, name, DNSKEY, IN)] + ShowIfAny(ReferralDsSet, referral.rrlist);
    SubQueryEvents(st.log, to, name, zone, keys.rrlist, ds.rrlist, referral.rrlist);
    SigsGrow(st.dsSigs, ds.sigs, referral.sigs);
    State(servers, [], keys.sigs, [], referral.sigs, st.log + keyPart + dsPart + refPart + [Blank])
  }

  /** One zone cut of the trace for `zone`, where `name` is the full query
      name: the body of the walk's loop. The cut's NS reply from the local
      resolver decides the new servers; only a failure to find or install
      them aborts. */
  method CutStep(env: Env, name: Name, c: RRClass, zone: Name, st: State) returns (r: CutResult)
    requires st.keyList == [] && st.dsList == []
    ensures r.CutFailed? <==> RefreshAt(env, zone, c).failure.Some?
    ensures r.CutFailed? ==> r.reason == RefreshAt(env, zone, c).failure.value && st.log <= r.log
    ensures r.CutFailed? ==> Queries(r.log) == Queries(st.log) + [Sent(Local, zone, NS, c)]
    ensures r.CutFailed? ==> Output(r.log) == Output(st.log) + [Failed(r.reason)]
    ensures r.CutDone? ==> r.st.servers == RefreshAt(env, zone, c).servers
    ensures r.CutDone? ==> r.st.keyList == [] && r.st.dsList == []
    ensures r.CutDone? ==> st.keySigs <= r.st.keySigs && st.dsSigs <= r.st.dsSigs && st.log <= r.st.log
    ensures r.CutDone? ==>
              forall s {:trigger s in r.st.keySigs[|st.keySigs|..]} :: s in r.st.keySigs[|st.keySigs|..] ==> s.rtype == RRSIG && s.owner == zone
    ensures r.CutDone? ==> forall s {:trigger s in r.st.dsSigs[|st.dsSigs|..]} :: s in r.st.dsSigs[|st.dsSigs|..] ==> s.rtype == RRSIG
    ensures r.CutDone? ==>
              Queries(r.st.log) == Queries(st.log) + CutQueries(name, c, zone, r.st.servers)
    ensures r.CutDone? ==> Output(r.st.log) == Output(st.log) + CutReport(env, name, c, zone).output
    ensures r.CutDone? ==>
              && r.st.keySigs == st.keySigs + CutReport(env, name, c, zone).keySigs
              && r.st.dsSigs == st.dsSigs + CutReport(env, name, c, zone).dsSigs
  {
    var reply := env.net.send(Local, zone, NS, c);
    var rf := RefreshServers(env, reply, c);
    r := CutWith(env, name, c, zone, rf, st);
  }

  /** A zone cut once its NS discovery `rf` is known. */
  function CutWith(env: Env, name: Name, c: RRClass, zone: Name, rf: Refresh, st: State): (r: CutResult)
    requires st.keyList == [] && st.dsList == []
    ensures r.CutFailed? <==> rf.failure.Some?
    ensures r.CutFailed? ==> r.reason == rf.failure.value && st.log <= r.log
    ensures r.CutFailed? ==> Queries(r.log) == Queries(st.log) + [Sent(Local, zone, NS, c)]
    ensures r.CutFailed? ==> Output(r.log) == Output(st.log) + [Failed(r.reason)]
    ensures r.CutDone? ==> r.st.servers == rf.servers
    ensures r.CutDone? ==> r.st.keyList == [] && r.st.dsList == []
    ensures r.CutDone? ==> st.keySigs <= r.st.keySigs && st.dsSigs <= r.st.dsSigs && st.log <= r.st.log
    ensures r.CutDone? ==>
              forall s {:trigger s in r.st.keySigs[|st.keySigs|..]} :: s in r.st.keySigs[|st.keySigs|..] ==> s.rtype == RRSIG && s.owner == zone
    ensures r.CutDone? ==> forall s {:trigger s in r.st.dsSigs[|st.dsSigs|..]} :: s in r.st.dsSigs[|st.dsSigs|..] ==> s.rtype == RRSIG
    ensures r.CutDone? ==>
              Queries(r.st.log) == Queries(st.log) + CutQueries(name, c, zone, r.st.servers)
    ensures r.CutDone? ==> Output(r.st.log) == Output(st.log) + ReportWith(env, name, c, zone, rf).output
    ensures r.CutDone? ==>
              && r.st.keySigs == st.keySigs + ReportWith(env, name, c, zone, rf).keySigs
              && r.st.dsSigs == st.dsSigs + ReportWith(env, name, c, zone, rf).dsSigs
  {
    var discovery := [Sent(Local, zone, NS, c)] + Lookups(rf.lookups, c);
    if rf.failure.Some? then
      DiscoveryEvents(st.log, zone, c, rf.lookups, [Failed(rf.failure.value)]);
      CutFailed(st.log + discovery + [Failed(rf.failure.value)], rf.failure.value)
    else
      var shown := [ShowRRs(NsSet, rf.nss), Blank];
      DiscoveryEvents(st.log, zone, c, rf.lookups, shown);
      var next := SubQueries(env, name, zone, rf.servers, st.(log := st.log + discovery + shown));
      var report := ReportWith(env, name, c, zone, rf);
      var ds := FoundIn(GetDnssecPkt(env, rf.servers, zone, DS), Some(zone), DS);
      var referral := FoundIn(GetDnssecPkt(env, rf.servers, name, DNSKEY), None, DS);
      Associate(Queries(st.log), [Sent(Local, zone, NS, c)], report.queries[1..]);
      Associate(Output(st.log), shown, report.output[|shown|..]);
      Associate(st.dsSigs, ds.sigs, referral.sigs);
      CutDone(next)
  }

  /** NS discovery sends one query and then only address lookups, neither of
      which is output; whatever output follows adds no query. */
  lemma DiscoveryEvents(log: seq<Event>, zone: Name, c: RRClass, hosts: seq<Name>, tail: seq<Event>)
    requires forall k :: 0 <= k < |tail| ==> On(Screen, tail[k])
    ensures Queries(log + ([Sent(Local, zone, NS, c)] + Lookups(hosts, c)) + tail)
            == Queries(log) + [Sent(Local, zone, NS, c)]
    ensures Output(log + ([Sent(Local, zone, NS, c)] + Lookups(hosts, c)) + tail)
            == Output(log) + tail
  {
    var q := Sent(Local, zone, NS, c);
    DiscoveryQueries(log, q, Lookups(hosts, c), tail);
    DiscoveryOutput(log, q, Lookups(hosts, c), tail);
  }

  lemma DiscoveryQueries(log: seq<Event>, q: Event, lookups: seq<Event>, tail: seq<Event>)
    requires q.Sent?
    requires forall k :: 0 <= k < |lookups| ==> lookups[k].AddressLookup?
    requires forall k :: 0 <= k < |tail| ==> On(Screen, tail[k])
    ensures Queries(log + ([q] + lookups) + tail) == Queries(log) + [q]
  {
    FilterNone(lookups, Wire);
    FilterAppend([q], lookups, Wire);
    assert Filter([q], Wire) == [q] + Filter([], Wire);
    FilterAppend(log, [q] + lookups, Wire);
    FilterAppend(log + ([q] + lookups), tail, Wire);
    FilterNone(tail, Wire);
  }

  lemma DiscoveryOutput(log: seq<Event>, q: Event, lookups: seq<Event>, tail: seq<Event>)
    requires q.Sent?
    requires forall k :: 0 <= k < |lookups| ==> lookups[k].AddressLookup?
    requires forall k :: 0 <= k < |tail| ==> On(Screen, tail[k])
    ensures Output(log + ([q] + lookups) + tail) == Output(log) + tail
  {
    FilterNone(lookups, Screen);
    FilterAppend([q], lookups, Screen);
    assert Filter([q], Screen) == [] + Filter([], Screen);
    FilterAppend(log, [q] + lookups, Screen);
    FilterAppend(log + ([q] + lookups), tail, Screen);
    FilterAll(tail, Screen);
  }

  /** The sub-queries' log: three queries, and as output the non-empty sets
      found and a blank line. */
  lemma SubQueryEvents(log: seq<Event>, to: Target, name: Name, zone: Name, keys: seq<RR>, ds: seq<RR>, refDs: seq<RR>)
    ensures
      var keyPart := [Sent(to, zone, DNSKEY, IN)] + ShowIfAny(KeySet, keys);
      var dsPart := [Sent(to, zone, DS, IN)] + ShowIfAny(DsSet, ds);
      var refPart := [Sent(to, name, DNSKEY, IN)] + ShowIfAny(ReferralDsSet, refDs);
      && Queries(log + keyPart + dsPart + refPart + [Blank])
         == Queries(log) + [Sent(to, zone, DNSKEY, IN), Sent(to, zone, DS, IN), Sent(to, name, DNSKEY, IN)]
      && Output(log + keyPart + dsPart + refPart + [Blank]) == Output(log) + SubOutput(keys, ds, refDs)
  {
    var keyPart := [Sent(to, zone, DNSKEY, IN)] + ShowIfAny(KeySet, keys);
    var dsPart := [Sent(to, zone, DS, IN)] + ShowIfAny(DsSet, ds);
    var refPart := [Sent(to, name, DNSKEY, IN)] + ShowIfAny(ReferralDsSet, refDs);
    AskEvents(Sent(to, zone, DNSKEY, IN), KeySet, keys);
    AskEvents(Sent(to, zone, DS, IN), DsSet, ds);
    AskEvents(Sent(to, name, DNSKEY, IN), ReferralDsSet, refDs);
    SubQueryQueries(log, keyPart, dsPart, refPart, Sent(to, zone, DNSKEY, IN), Sent(to, zone, DS, IN), Sent(to, name, DNSKEY, IN));
    SubQueryOutput(log, keyPart, dsPart, refPart, ShowIfAny(KeySet, keys), ShowIfAny(DsSet, ds), ShowIfAny(ReferralDsSet, refDs));
  }

  lemma SubQueryQueries(log: seq<Event>, a: seq<Event>, b: seq<Event>, d: seq<Event>, qa: Event, qb: Event, qd: Event)
    requires Queries(a) == [qa] && Queries(b) == [qb] && Queries(d) == [qd]
    ensures Queries(log + a + b + d + [Blank]) == Queries(log) + [qa, qb, qd]
  {
    FilterParts(log, a, b, d, [Blank], Wire);
    FilterNone([Blank], Wire);
  }

  lemma SubQueryOutput(log: seq<Event>, a: seq<Event>, b: seq<Event>, d: seq<Event>, oa: seq<Event>, ob: seq<Event>, od: seq<Event>)
    requires Output(a) == oa && Output(b) == ob && Output(d) == od
    ensures Output(log + a + b + d + [Blank]) == Output(log) + oa + ob + od + [Blank]
  {
    FilterParts(log, a, b, d, [Blank], Screen);
    FilterAll([Blank], Screen);
  }

  lemma FilterParts(a: seq<Event>, b: seq<Event>, c: seq<Event>, d: seq<Event>, e: seq<Event>, ch: Channel)
    ensures Filter(a + b + c + d + e, ch)
            == Filter(a, ch) + Filter(b, ch) + Filter(c, ch) + Filter(d, ch) + Filter(e, ch)
  {
    FilterAppend(a, b, ch);
    FilterAppend(a + b, c, ch);
    FilterAppend(a + b + c, d, ch);
    FilterAppend(a + b + c + d, e, ch);
  }

  /** A query followed by an optional print: the query is its only query and
      the print its only output. */
  lemma AskEvents(q: Event, what: Shown, rrs: seq<RR>)
    requires q.Sent?
    ensures Queries([q] + ShowIfAny(what, rrs)) == [q]
    ensures Output([q] + ShowIfAny(what, rrs)) == ShowIfAny(what, rrs)
  {
    FilterAppend([q], ShowIfAny(what, rrs), Wire);
    FilterAppend([q], ShowIfAny(what, rrs), Screen);
    FilterNone(ShowIfAny(what, rrs), Wire);
    FilterAll(ShowIfAny(what, rrs), Screen);
    assert Filter([q], Wire) == [q] + Filter([], Wire);
    assert Filter([q], Screen) == [] + Filter([], Screen);
  }

  lemma SigsGrow(a: seq<RR>, b: seq<RR>, c: seq<RR>)
    requires a <= b && b <= c
    requires forall s {:trigger s in b[|a|..]} :: s in b[|a|..] ==> s.rtype == RRSIG
    requires forall s {:trigger s in c[|b|..]} :: s in c[|b|..] ==> s.rtype == RRSIG
    ensures a <= c
    ensures forall s {:trigger s in c[|a|..]} :: s in c[|a|..] ==> s.rtype == RRSIG
  {
    forall s {:trigger s in c[|a|..]} | s in c[|a|..] ensures s.rtype == RRSIG {
      var k :| 0 <= k < |c[|a|..]| && c[|a|..][k] == s;
      if |a| + k < |b| {
        assert b[|a|..][k] == s;
        assert s in b[|a|..];
      } else {
        assert c[|b|..][|a| + k - |b|] == s;
        assert s in c[|b|..];
      }
    }
  }

  /** The queries before the walk: the root NS probe to the local resolver,
      then the query itself to the root servers. */
  function PreludeQueries(env: Env, name: Name, t: RRType, c: RRClass): seq<Event>
  {
    [Sent(Local, env.lib.root, NS, c), Sent(Servers(env.lib.rootHints), name, t, c)]
  }

  /** Everything before the walk went through: the root servers were
      installed, the local resolver answered the root probe and the query
      itself brought a packet back. */
  predicate PreludeOk(env: Env, name: Name, t: RRType, c: RRClass)
  {
    && env.lib.pushAccepts(env.lib.rootHints)
    && env.net.send(Local, env.lib.root, NS, c).Some?
    && env.net.send(Servers(env.lib.rootHints), name, t, c).Some?
  }

  /** What the trace writes about the root probe's reply: a warning when the
      reply is empty, the packet itself otherwise. */
  function ProbeReport(p: Packet): Event
  {
    if p.IsEmpty() then Warned(NoRootInformation) else ShowPacket(p)
  }

  /** The reports of the zone cuts `visited`, joined in visiting order. */
  function AllReports(env: Env, name: Name, c: RRClass, visited: seq<Name>): Report
  {
    if visited == [] then Report([], [], [], [])
    else
      var zone := visited[|visited| - 1];
      Join(AllReports(env, name, c, visited[..|visited| - 1]), CutReport(env, name, c, zone))
  }

  lemma AllReportsStep(env: Env, name: Name, c: RRClass, visited: seq<Name>, zone: Name)
    ensures AllReports(env, name, c, visited + [zone])
            == Join(AllReports(env, name, c, visited), CutReport(env, name, c, zone))
  {
    assert (visited + [zone])[..|visited|] == visited;
  }

  /** The prelude's log: a query, the probe report and a query. */
  lemma PreludeEvents(first: Event, middle: Event, last: Event)
    requires first.Sent? && On(Screen, middle) && last.Sent?
    ensures Queries([first] + [middle] + [last]) == [first, last]
    ensures Output([first] + [middle] + [last]) == [middle]
  {
    FilterAppend([first], [middle], Wire);
    FilterAppend([first] + [middle], [last], Wire);
    FilterAppend([first], [middle], Screen);
    FilterAppend([first] + [middle], [last], Screen);
    assert Filter([first], Wire) == [first] + Filter([], Wire);
    assert Filter([middle], Wire) == [] + Filter([], Wire);
    assert Filter([last], Wire) == [last] + Filter([], Wire);
    assert Filter([first], Screen) == [] + Filter([], Screen);
    assert Filter([middle], Screen) == [middle] + Filter([], Screen);
    assert Filter([last], Screen) == [] + Filter([], Screen);
  }

  /** The whole trace. Installs the root servers, probes the local resolver
      for the root NS set, sends the query itself, then walks the label chain
      of `name` from its least specific entry to `name` itself, one zone cut
      per entry. Sub-query classifications never stop the walk; only the
      setup steps and a cut whose servers cannot be found or installed do. */
  method SecureTrace(env: Env, name: Name, t: RRType, c: RRClass)
    returns (st: State, outcome: Outcome, visited: seq<Name>)
    ensures outcome == Aborted(RootSetupFailed) <==> !env.lib.pushAccepts(env.lib.rootHints)
    ensures outcome == Aborted(LocalResolverUnusable) <==>
              env.lib.pushAccepts(env.lib.rootHints) && env.net.send(Local, env.lib.root, NS, c).None?
    ensures outcome == Aborted(NoPacketReceived) <==>
              && env.lib.pushAccepts(env.lib.rootHints)
              && env.net.send(Local, env.lib.root, NS, c).Some?
              && env.net.send(Servers(env.lib.rootHints), name, t, c).None?
    ensures outcome == Aborted(RootSetupFailed) ==> st.log == []
    ensures outcome == Aborted(LocalResolverUnusable) ==>
              st.log == [Sent(Local, env.lib.root, NS, c), Failed(LocalResolverUnusable)]
    ensures outcome == Aborted(NoPacketReceived) ==>
              && env.net.send(Local, env.lib.root, NS, c).Some?
              && st.log == [Sent(Local, env.lib.root, NS, c), ProbeReport(env.net.send(Local, env.lib.root, NS, c).value),
                            Sent(Servers(env.lib.rootHints), name, t, c), Failed(NoPacketReceived)]
    ensures !PreludeOk(env, name, t, c) ==> visited == []
    ensures PreludeOk(env, name, t, c) ==> outcome.Finished? || CutAbort(outcome.reason)
    ensures |visited| <= env.lib.labelCount(name)
    ensures forall k :: 0 <= k < |visited| ==>
              visited[k] == Chopped(env.lib.leftChop, name, env.lib.labelCount(name) - 1 - k)
    ensures outcome.Finished? ==> |visited| == env.lib.labelCount(name)
    ensures outcome.Finished? && visited != [] ==> visited[|visited| - 1] == name
    ensures outcome.Finished? ==> forall k :: 0 <= k < |visited| ==> RefreshAt(env, visited[k], c).failure.None?
    ensures outcome.Aborted? && CutAbort(outcome.reason) ==>
              && visited != []
              && (forall k :: 0 <= k < |visited| - 1 ==> RefreshAt(env, visited[k], c).failure.None?)
              && RefreshAt(env, visited[|visited| - 1], c).failure == Some(outcome.reason)
    ensures outcome.Finished? && visited != [] ==> st.servers == RefreshAt(env, name, c).servers
    ensures outcome.Finished? && visited == [] ==> st.servers == env.lib.rootHints
    ensures outcome.Finished? ==> st.keyList == [] && st.dsList == []
    ensures outcome.Finished? ==>
              && PreludeOk(env, name, t, c)
              && Queries(st.log) == PreludeQueries(env, name, t, c) + AllReports(env, name, c, visited).queries
              && Output(st.log) == [ProbeReport(env.net.send(Local, env.lib.root, NS, c).value)]
                                   + AllReports(env, name, c, visited).output
              && st.keySigs == AllReports(env, name, c, visited).keySigs
              && st.dsSigs == AllReports(env, name, c, visited).dsSigs
    ensures outcome.Aborted? && CutAbort(outcome.reason) ==>
              && PreludeOk(env, name, t, c)
              && visited != []
              && st.servers == []
              && (var done := AllReports(env, name, c, visited[..|visited| - 1]);
                  && Queries(st.log) == PreludeQueries(env, name, t, c) + done.queries
                                        + [Sent(Local, visited[|visited| - 1], NS, c)]
                  && Output(st.log) == [ProbeReport(env.net.send(Local, env.lib.root, NS, c).value)] + done.output
                                       + [Failed(outcome.reason)]
                  && st.keySigs == done.keySigs
                  && st.dsSigs == done.dsSigs)
    ensures forall s {:trigger s in st.keySigs} :: s in st.keySigs ==> s.rtype == RRSIG && s.owner in visited
    ensures forall s {:trigger s in st.dsSigs} :: s in st.dsSigs ==> s.rtype == RRSIG
  {
    var prelude, failure := Prelude(env, name, t, c);
    visited := [];
    if failure.Some? {
      return prelude, Aborted(failure.value), visited;
    }
    var count := env.lib.labelCount(name);
    var labels := LabelChain(name, count, env.lib.leftChop);
    st, outcome, visited := Walk(env, name, c, labels, prelude);
    VisitedAreChopped(env.lib.leftChop, name, labels, visited);
  }

  /** The setup before the walk: install the root servers, probe the local
      resolver for the root NS set and report on its reply, then send the
      query itself to the root servers. Each step that fails ends the trace
      with its own abort. */
  method Prelude(env: Env, name: Name, t: RRType, c: RRClass) returns (st: State, failure: Option<Abort>)
    ensures failure == Some(RootSetupFailed) <==> !env.lib.pushAccepts(env.lib.rootHints)
    ensures failure == Some(LocalResolverUnusable) <==>
              env.lib.pushAccepts(env.lib.rootHints) && env.net.send(Local, env.lib.root, NS, c).None?
    ensures failure == Some(NoPacketReceived) <==>
              && env.lib.pushAccepts(env.lib.rootHints)
              && env.net.send(Local, env.lib.root, NS, c).Some?
              && env.net.send(Servers(env.lib.rootHints), name, t, c).None?
    ensures failure.None? <==> PreludeOk(env, name, t, c)
    ensures st.keyList == [] && st.dsList == [] && st.keySigs == [] && st.dsSigs == []
    ensures failure == Some(RootSetupFailed) ==> st.log == []
    ensures failure == Some(LocalResolverUnusable) ==>
              st.log == [Sent(Local, env.lib.root, NS, c), Failed(LocalResolverUnusable)]
    ensures failure == Some(NoPacketReceived) ==>
              && env.net.send(Local, env.lib.root, NS, c).Some?
              && st.log == [Sent(Local, env.lib.root, NS, c), ProbeReport(env.net.send(Local, env.lib.root, NS, c).value),
                            Sent(Servers(env.lib.rootHints), name, t, c), Failed(NoPacketReceived)]
    ensures failure.None? ==>
              && env.net.send(Local, env.lib.root, NS, c).Some?
              && st.servers == env.lib.rootHints
              && Queries(st.log) == PreludeQueries(env, name, t, c)
              && Output(st.log) == [ProbeReport(env.net.send(Local, env.lib.root, NS, c).value)]
  {
    var lib := env.lib;
    st := State([], [], [], [], [], []);
    if !lib.pushAccepts(lib.rootHints) {
      return st, Some(RootSetupFailed);
    }
    st := st.(servers := lib.rootHints, log := [Sent(Local, lib.root, NS, c)]);
    var probe := env.net.send(Local, lib.root, NS, c);
    if probe.None? {
      st := st.(log := st.log + [Failed(LocalResolverUnusable)]);
      return st, Some(LocalResolverUnusable);
    }
    var shown := ProbeReport(probe.value);
    st := st.(log := st.log + [shown] + [Sent(Servers(lib.rootHints), name, t, c)]);
    var initial := env.net.send(Servers(st.servers), name, t, c);
    if initial.None? {
      st := st.(log := st.log + [Failed(NoPacketReceived)]);
      return st, Some(NoPacketReceived);
    }
    PreludeEvents(Sent(Local, lib.root, NS, c), shown, Sent(Servers(lib.rootHints), name, t, c));
    failure := None;
  }

  /** The cuts a walk visits over the label chain of `name` are that name
      chopped fewer and fewer times, ending at `name` itself. */
  lemma VisitedAreChopped(chop: Name -> Name, name: Name, labels: seq<Name>, visited: seq<Name>)
    requires forall i :: 0 <= i < |labels| ==> labels[i] == Chopped(chop, name, i)
    requires |visited| <= |labels|
    requires forall k :: 0 <= k < |visited| ==> visited[k] == labels[|labels| - 1 - k]
    ensures forall k :: 0 <= k < |visited| ==> visited[k] == Chopped(chop, name, |labels| - 1 - k)
    ensures |visited| == |labels| && visited != [] ==> visited[|visited| - 1] == name
  {
  }

  /** The walk over the label chain `labels`, least specific entry first. */
  method Walk(env: Env, name: Name, c: RRClass, labels: seq<Name>, st0: State)
    returns (st: State, outcome: Outcome, visited: seq<Name>)
    requires st0.keyList == [] && st0.dsList == []
    requires st0.keySigs == [] && st0.dsSigs == []
    ensures outcome.Finished? || CutAbort(outcome.reason)
    ensures |visited| <= |labels|
    ensures forall k :: 0 <= k < |visited| ==> visited[k] == labels[|labels| - 1 - k]
    ensures forall s {:trigger s in st.keySigs} :: s in st.keySigs ==> s.rtype == RRSIG && s.owner in visited
    ensures forall s {:trigger s in st.dsSigs} :: s in st.dsSigs ==> s.rtype == RRSIG
    ensures outcome.Finished? ==> FinishedWalk(env, name, c, labels, st0, st, visited)
    ensures outcome.Aborted? ==> AbortedWalk(env, name, c, st0, st, visited, outcome.reason)
  {
    st := st0;
    visited := [];
    var i: int := |labels| - 1;
    assert WalkInv(env, name, c, labels, st0, st, visited);
    while i >= 0
      invariant -1 <= i < |labels|
      invariant |visited| == |labels| - 1 - i
      invariant WalkInv(env, name, c, labels, st0, st, visited)
      decreases i + 1
    {
      var zone := labels[i];
      var cut := CutStep(env, name, c, zone, st);
      if cut.CutFailed? {
        WalkAborted(env, name, c, labels, st0, st, visited, i, cut.log, cut.reason,
                    st.(log := cut.log, servers := []), visited + [zone]);
        st := st.(log := cut.log, servers := []);
        visited := visited + [zone];
        return st, Aborted(cut.reason), visited;
      }
      WalkStep(env, name, c, labels, st0, st, visited, i, cut.st);
      st := cut.st;
      visited := visited + [zone];
      i := i - 1;
    }
    outcome := Finished;
  }

  /** A walk that finishes visits every entry of the chain, finds every cut,
      keeps the last cut's servers and no per-cut lists, and leaves exactly
      the visited cuts' reports: their queries and their output appended to
      the log, their signatures on the signature lists. */
  ghost predicate FinishedWalk(env: Env, name: Name, c: RRClass, labels: seq<Name>, st0: State, st: State, visited: seq<Name>)
  {
    && |visited| == |labels|
    && (forall k :: 0 <= k < |visited| ==> RefreshAt(env, visited[k], c).failure.None?)
    && (visited != [] ==> st.servers == RefreshAt(env, visited[|visited| - 1], c).servers)
    && (visited == [] ==> st.servers == st0.servers)
    && st.keyList == [] && st.dsList == []
    && Queries(st.log) == Queries(st0.log) + AllReports(env, name, c, visited).queries
    && Output(st.log) == Output(st0.log) + AllReports(env, name, c, visited).output
    && st.keySigs == AllReports(env, name, c, visited).keySigs
    && st.dsSigs == AllReports(env, name, c, visited).dsSigs
  }

  /** A walk that aborts stops at the first cut whose servers cannot be found
      or installed, for that cut's reason, with no servers left installed. It
      leaves the reports of the cuts before it, then its own NS query and the
      failure. */
  ghost predicate AbortedWalk(env: Env, name: Name, c: RRClass, st0: State, st: State, visited: seq<Name>, reason: Abort)
  {
    && visited != []
    && (forall k :: 0 <= k < |visited| - 1 ==> RefreshAt(env, visited[k], c).failure.None?)
    && RefreshAt(env, visited[|visited| - 1], c).failure == Some(reason)
    && st.servers == []
    && (var done := AllReports(env, name, c, visited[..|visited| - 1]);
        && Queries(st.log) == Queries(st0.log) + done.queries + [Sent(Local, visited[|visited| - 1], NS, c)]
        && Output(st.log) == Output(st0.log) + done.output + [Failed(reason)]
        && st.keySigs == done.keySigs
        && st.dsSigs == done.dsSigs)
  }

  /** A cut at entry `i` that fails ends the walk with the earlier cuts'
      reports, its own NS query and the failure. */
  lemma WalkAborted(env: Env, name: Name, c: RRClass, labels: seq<Name>, st0: State, st: State, visited: seq<Name>, i: int,
                    log: seq<Event>, reason: Abort, st': State, visited': seq<Name>)
    requires 0 <= i < |labels| && |visited| == |labels| - 1 - i
    requires WalkInv(env, name, c, labels, st0, st, visited)
    requires RefreshAt(env, labels[i], c).failure == Some(reason)
    requires Queries(log) == Queries(st.log) + [Sent(Local, labels[i], NS, c)]
    requires Output(log) == Output(st.log) + [Failed(reason)]
    requires st' == st.(log := log, servers := []) && visited' == visited + [labels[i]]
    ensures |visited'| <= |labels|
    ensures forall k :: 0 <= k < |visited'| ==> visited'[k] == labels[|labels| - 1 - k]
    ensures AbortedWalk(env, name, c, st0, st', visited', reason)
    ensures forall s {:trigger s in st'.keySigs} :: s in st'.keySigs ==> s.rtype == RRSIG && s.owner in visited'
    ensures forall s {:trigger s in st'.dsSigs} :: s in st'.dsSigs ==> s.rtype == RRSIG
  {
    VisitNext(labels, visited, i);
    assert visited'[..|visited'| - 1] == visited;
    forall s {:trigger s in st'.keySigs} | s in st'.keySigs
      ensures s.rtype == RRSIG && s.owner in visited'
    {
      assert s.owner in visited;
    }
  }

  /** What holds after each zone cut of the walk. */
  ghost predicate WalkInv(env: Env, name: Name, c: RRClass, labels: seq<Name>, st0: State, st: State, visited: seq<Name>)
  {
    && ChainVisited(env, c, labels, visited)
    && CutState(env, c, st0, st, visited)
    && LogSoFar(env, name, c, st0, st, visited)
  }

  /** The visited cuts are the label chain read backwards, each one found. */
  ghost predicate ChainVisited(env: Env, c: RRClass, labels: seq<Name>, visited: seq<Name>)
  {
    && |visited| <= |labels|
    && (forall k :: 0 <= k < |visited| ==> visited[k] == labels[|labels| - 1 - k])
    && (forall k :: 0 <= k < |visited| ==> RefreshAt(env, visited[k], c).failure.None?)
  }

  /** The working state holds the last cut's servers and no per-cut lists. */
  ghost predicate CutState(env: Env, c: RRClass, st0: State, st: State, visited: seq<Name>)
  {
    && st.keyList == [] && st.dsList == []
    && (visited != [] ==> st.servers == RefreshAt(env, visited[|visited| - 1], c).servers)
    && (visited == [] ==> st.servers == st0.servers)
  }

  /** The log and the signature lists hold exactly the visited cuts' reports,
      and every signature was found at a visited cut. */
  ghost predicate LogSoFar(env: Env, name: Name, c: RRClass, st0: State, st: State, visited: seq<Name>)
  {
    && Queries(st.log) == Queries(st0.log) + AllReports(env, name, c, visited).queries
    && Output(st.log) == Output(st0.log) + AllReports(env, name, c, visited).output
    && st.keySigs == AllReports(env, name, c, visited).keySigs
    && st.dsSigs == AllReports(env, name, c, visited).dsSigs
    && (forall s {:trigger s in st.keySigs} :: s in st.keySigs ==> s.rtype == RRSIG && s.owner in visited)
    && (forall s {:trigger s in st.dsSigs} :: s in st.dsSigs ==> s.rtype == RRSIG)
  }

  /** What a completed cut at `zone` promises of the state `next` it leaves. */
  ghost predicate CutCompleted(env: Env, name: Name, c: RRClass, zone: Name, st: State, next: State)
  {
    && RefreshAt(env, zone, c).failure.None?
    && next.servers == RefreshAt(env, zone, c).servers
    && next.keyList == [] && next.dsList == []
    && st.keySigs <= next.keySigs && st.dsSigs <= next.dsSigs
    && (forall s {:trigger s in next.keySigs[|st.keySigs|..]} :: s in next.keySigs[|st.keySigs|..] ==> s.rtype == RRSIG && s.owner == zone)
    && (forall s {:trigger s in next.dsSigs[|st.dsSigs|..]} :: s in next.dsSigs[|st.dsSigs|..] ==> s.rtype == RRSIG)
    && Queries(next.log) == Queries(st.log) + CutQueries(name, c, zone, next.servers)
    && Output(next.log) == Output(st.log) + CutReport(env, name, c, zone).output
    && next.keySigs == st.keySigs + CutReport(env, name, c, zone).keySigs
    && next.dsSigs == st.dsSigs + CutReport(env, name, c, zone).dsSigs
  }

  /** A completed zone cut keeps the walk's invariant. */
  lemma WalkStep(env: Env, name: Name, c: RRClass, labels: seq<Name>, st0: State, st: State, visited: seq<Name>, i: int,
                 next: State)
    requires 0 <= i < |labels| && |visited| == |labels| - 1 - i
    requires WalkInv(env, name, c, labels, st0, st, visited)
    requires CutCompleted(env, name, c, labels[i], st, next)
    ensures WalkInv(env, name, c, labels, st0, next, visited + [labels[i]])
  {
    ChainStep(env, c, labels, visited, i);
    LogStep(env, name, c, labels[i], st0, st, visited, next);
  }

  /** Visiting entry `i` next keeps the visited cuts the reversed chain, each
      one found. */
  lemma ChainStep(env: Env, c: RRClass, labels: seq<Name>, visited: seq<Name>, i: int)
    requires 0 <= i < |labels| && |visited| == |labels| - 1 - i
    requires ChainVisited(env, c, labels, visited)
    requires RefreshAt(env, labels[i], c).failure.None?
    ensures ChainVisited(env, c, labels, visited + [labels[i]])
  {
    VisitNext(labels, visited, i);
  }

  /** Visiting entry `i` next extends the visited cuts by that entry and
      keeps them the label chain read backwards. */
  lemma VisitNext(labels: seq<Name>, visited: seq<Name>, i: int)
    requires 0 <= i < |labels| && |visited| == |labels| - 1 - i
    requires forall k :: 0 <= k < |visited| ==> visited[k] == labels[|labels| - 1 - k]
    ensures forall k :: 0 <= k < |visited| ==> (visited + [labels[i]])[k] == visited[k]
    ensures forall k :: 0 <= k < |visited| + 1 ==> (visited + [labels[i]])[k] == labels[|labels| - 1 - k]
  {
    var next := visited + [labels[i]];
    forall k | 0 <= k < |next|
      ensures next[k] == labels[|labels| - 1 - k]
    {
      if k < |visited| {
        assert next[k] == visited[k];
      }
    }
  }

  lemma LogStep(env: Env, name: Name, c: RRClass, zone: Name, st0: State, st: State, visited: seq<Name>, next: State)
    requires LogSoFar(env, name, c, st0, st, visited)
    requires CutCompleted(env, name, c, zone, st, next)
    ensures LogSoFar(env, name, c, st0, next, visited + [zone])
  {
    var prev := AllReports(env, name, c, visited);
    var cut := CutReport(env, name, c, zone);
    AllReportsStep(env, name, c, visited, zone);
    assert cut.queries == CutQueries(name, c, zone, next.servers);
    Associate(Queries(st0.log), prev.queries, cut.queries);
    Associate(Output(st0.log), prev.output, cut.output);
    SigsKeepOwners(st.keySigs, next.keySigs, visited, zone);
    SigsKeepType(st.dsSigs, next.dsSigs);
  }

  /** Regrouping a concatenation; called where a log or signature list is
      extended by a report whose parts were joined the other way. */
  lemma Associate<T>(a: seq<T>, b: seq<T>, c: seq<T>)
    ensures (a + b) + c == a + (b + c)
  {
  }

  /** Signatures gathered at cut `zone` join those of earlier cuts. */
  lemma SigsKeepOwners(before: seq<RR>, after: seq<RR>, visited: seq<Name>, zone: Name)
    requires before <= after
    requires forall s {:trigger s in before} :: s in before ==> s.rtype == RRSIG && s.owner in visited
    requires forall s {:trigger s in after[|before|..]} :: s in after[|before|..] ==> s.rtype == RRSIG && s.owner == zone
    ensures forall s {:trigger s in after} :: s in after ==> s.rtype == RRSIG && s.owner in visited + [zone]
  {
    forall s {:trigger s in after} | s in after ensures s.rtype == RRSIG && s.owner in visited + [zone] {
      var k :| 0 <= k < |after| && after[k] == s;
      if k < |before| {
        assert before[k] == s;
        assert s in before;
      } else {
        assert after[|before|..][k - |before|] == s;
        assert s in after[|before|..];
      }
    }
  }

  lemma SigsKeepType(before: seq<RR>, after: seq<RR>)
    requires before <= after
    requires forall s {:trigger s in before} :: s in before ==> s.rtype == RRSIG
    requires forall s {:trigger s in after[|before|..]} :: s in after[|before|..] ==> s.rtype == RRSIG
    ensures forall s {:trigger s in after} :: s in after ==> s.rtype == RRSIG
  {
    forall s {:trigger s in after} | s in after ensures s.rtype == RRSIG {
      var k :| 0 <= k < |after| && after[k] == s;
      if k < |before| {
        assert before[k] == s;
        assert s in before;
      } else {
        assert after[|before|..][k - |before|] == s;
        assert s in after[|before|..];
      }
    }
  }
}
