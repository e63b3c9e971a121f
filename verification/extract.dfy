/** The RRset extractor: pulls one record set and its signatures out of a
    reply, either by owner name from the answer section or, for a DS
    referral, by type from the authority section. */
module Extract {
  import opened Dns

  /** What the extractor leaves behind: the classification it returns, and
      the caller's record list and signature list after the call. */
  datatype Extraction = Extraction(ptype: PacketType, rrlist: seq<RR>, sigs: seq<RR>)

  /** Records and signatures found in a reply. */
  datatype Found = Found(records: seq<RR>, sigs: seq<RR>)

  /** NXDOMAIN and NODATA replies end the extraction early. */
  predicate Terminal(pt: PacketType)
  {
    pt == NxDomain || pt == NoData
  }

  /** Lookup by owner name: the records of type `t` and the signatures owned
      by `name`, both taken only from the answer section. */
  function ByOwner(p: Packet, name: Name, t: RRType): (f: Found)
    ensures forall x {:trigger x in f.records} :: x in f.records <==> x in p.answer && x.owner == name && x.rtype == t
    ensures forall x {:trigger x in f.sigs} :: x in f.sigs <==> x in p.answer && x.owner == name && x.rtype == RRSIG
  {
    Found(ByNameAndType(Some(p), name, t, AnswerSection),
          ByNameAndType(Some(p), name, RRSIG, AnswerSection))
  }

  /** Lookup for a DS referral: every record of type `t` and every signature,
      both taken only from the authority section. */
  function ByReferral(p: Packet, t: RRType): (f: Found)
    ensures forall x {:trigger x in f.records} :: x in f.records <==> x in p.authority && x.rtype == t
    ensures forall x {:trigger x in f.sigs} :: x in f.sigs <==> x in p.authority && x.rtype == RRSIG
  {
    Found(ByType(Some(p), t, AuthoritySection), ByType(Some(p), RRSIG, AuthoritySection))
  }

  /** What an extraction finds in a reply: nothing when there is no reply or
      the reply is NXDOMAIN or NODATA, otherwise the records of type `t` and
      the signatures, by owner from the answer section when a name is given
      and from the authority section otherwise. */
  function FoundIn(p: Option<Packet>, name: Option<Name>, t: RRType): (f: Found)
    ensures p.None? || Terminal(p.value.reply) ==> f == Found([], [])
    ensures p.Some? && !Terminal(p.value.reply) && name.Some? ==>
              (forall x {:trigger x in f.records} :: x in f.records <==> x in p.value.answer && x.owner == name.value && x.rtype == t)
              && (forall x {:trigger x in f.sigs} :: x in f.sigs <==> x in p.value.answer && x.owner == name.value && x.rtype == RRSIG)
    ensures p.Some? && !Terminal(p.value.reply) && name.None? ==>
              (forall x {:trigger x in f.records} :: x in f.records <==> x in p.value.authority && x.rtype == t)
              && (forall x {:trigger x in f.sigs} :: x in f.sigs <==> x in p.value.authority && x.rtype == RRSIG)
  {
    match p
    case None => Found([], [])
    case Some(pkt) =>
      if Terminal(pkt.reply) then Found([], [])
      else if name.Some? then ByOwner(pkt, name.value, t)
      else ByReferral(pkt, t)
  }

  /** The generic extractor. A missing reply gives UNKNOWN and an NXDOMAIN or
      NODATA reply gives its own classification, both leaving the caller's
      lists as they were. Any other reply gives ANSWER: the record list is
      replaced by what was found and the signatures found are appended to the
      caller's signature list. */
  function GetDnssecRr(p: Option<Packet>, name: Option<Name>, t: RRType, rrlist: seq<RR>, sig: seq<RR>): (r: Extraction)
    ensures p.None? ==> r == Extraction(UnknownPacket, rrlist, sig)
    ensures p.Some? && Terminal(p.value.reply) ==> r == Extraction(p.value.reply, rrlist, sig)
    ensures p.Some? && !Terminal(p.value.reply) ==> r.ptype == AnswerPacket
    ensures sig <= r.sigs
    ensures r.sigs == sig + FoundIn(p, name, t).sigs
    ensures p.Some? && !Terminal(p.value.reply) ==> r.rrlist == FoundIn(p, name, t).records
    ensures p.Some? && !Terminal(p.value.reply) && name.Some? ==>
              (forall x {:trigger x in r.rrlist} :: x in r.rrlist <==> x in p.value.answer && x.owner == name.value && x.rtype == t)
              && (forall x {:trigger x in r.sigs[|sig|..]} :: x in r.sigs[|sig|..] <==> x in p.value.answer && x.owner == name.value && x.rtype == RRSIG)
    ensures p.Some? && !Terminal(p.value.reply) && name.None? ==>
              (forall x {:trigger x in r.rrlist} :: x in r.rrlist <==> x in p.value.authority && x.rtype == t)
              && (forall x {:trigger x in r.sigs[|sig|..]} :: x in r.sigs[|sig|..] <==> x in p.value.authority && x.rtype == RRSIG)
  {
    match p
    case None => Extraction(UnknownPacket, rrlist, sig)
    case Some(pkt) =>
      if Terminal(pkt.reply) then Extraction(pkt.reply, rrlist, sig)
      else
        var f := if name.Some? then ByOwner(pkt, name.value, t) else ByReferral(pkt, t);
        assert (sig + f.sigs)[|sig|..] == f.sigs;
        Extraction(AnswerPacket, f.records, sig + f.sigs)
  }

  /** The DNSKEY set at a zone apex and its signatures. */
  function GetKey(p: Option<Packet>, apex: Name, rrlist: seq<RR>, sig: seq<RR>): (r: Extraction)
    ensures sig <= r.sigs
    ensures r.ptype == AnswerPacket ==>
              forall x {:trigger x in r.rrlist} :: x in r.rrlist ==> x.rtype == DNSKEY && x.owner == apex
    ensures forall x {:trigger x in r.sigs[|sig|..]} :: x in r.sigs[|sig|..] ==> x.rtype == RRSIG && x.owner == apex
  {
    GetDnssecRr(p, Some(apex), DNSKEY, rrlist, sig)
  }

  /** A DS set and its signatures: at `owner` from the answer section, or,
      with no owner, from the authority section of a referral. */
  function GetDs(p: Option<Packet>, owner: Option<Name>, rrlist: seq<RR>, sig: seq<RR>): (r: Extraction)
    ensures sig <= r.sigs
    ensures r.ptype == AnswerPacket ==> forall x {:trigger x in r.rrlist} :: x in r.rrlist ==> x.rtype == DS
    ensures r.ptype == AnswerPacket && owner.Some? ==> forall x {:trigger x in r.rrlist} :: x in r.rrlist ==> x.owner == owner.value
    ensures forall x {:trigger x in r.sigs[|sig|..]} :: x in r.sigs[|sig|..] ==> x.rtype == RRSIG
    ensures owner.Some? ==> forall x {:trigger x in r.sigs[|sig|..]} :: x in r.sigs[|sig|..] ==> x.owner == owner.value
  {
    GetDnssecRr(p, owner, DS, rrlist, sig)
  }

  /** With an owner name, nothing outside the answer section matters. */
  lemma OwnerPathReadsOnlyAnswer(p: Packet, q: Packet, name: Name, t: RRType, rrlist: seq<RR>, sig: seq<RR>)
    requires p.reply == q.reply && p.answer == q.answer
    ensures GetDnssecRr(Some(p), Some(name), t, rrlist, sig) == GetDnssecRr(Some(q), Some(name), t, rrlist, sig)
  {
  }

  /** Without an owner name, nothing outside the authority section matters. */
  lemma ReferralPathReadsOnlyAuthority(p: Packet, q: Packet, t: RRType, rrlist: seq<RR>, sig: seq<RR>)
    requires p.reply == q.reply && p.authority == q.authority
    ensures GetDnssecRr(Some(p), None, t, rrlist, sig) == GetDnssecRr(Some(q), None, t, rrlist, sig)
  {
  }

  /** Records placed in the section the lookup does not read are not found:
      an answer-only reply gives a referral lookup nothing, and an
      authority-only reply gives an owner lookup nothing. */
  lemma MisplacedRecordsAreNotFound(recs: seq<RR>, pt: PacketType, name: Name, t: RRType, rrlist: seq<RR>, sig: seq<RR>)
    requires !Terminal(pt)
    ensures GetDnssecRr(Some(Packet(pt, recs, [], recs)), None, t, rrlist, sig) == Extraction(AnswerPacket, [], sig)
    ensures GetDnssecRr(Some(Packet(pt, [], recs, recs)), Some(name), t, rrlist, sig) == Extraction(AnswerPacket, [], sig)
  {
  }
}
