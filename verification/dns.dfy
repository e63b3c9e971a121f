/** Abstract DNS values as the secure trace sees them: resource records,
    reply packets, and the section filters the DNS library offers over
    packets. Wire formats and name encodings belong to the library and are
    left uninterpreted. */
module Dns {

  /** An rdata field of a record. A domain name is an rdata field of the
      name kind, so names share this type. Only equality is used. */
  type Rdf(==, !new)

  type Name = Rdf

  /** Width of the library's label count. */
  type uint8 = x: int | 0 <= x < 256

  /** A value or nothing; stands for a pointer that may be NULL. */
  datatype Option<+T> = None | Some(value: T)

  datatype RRType = A | AAAA | NS | DS | DNSKEY | RRSIG | OtherType(code: nat)

  datatype RRClass = IN | OtherClass(code: nat)

  /** A resource record: owner name, type and its rdata fields in order. */
  datatype RR = RR(owner: Name, rtype: RRType, rdfs: seq<Rdf>)

  /** The library's classification of a reply packet. */
  datatype PacketType =
    | QuestionPacket
    | ReferralPacket
    | AnswerPacket
    | NxDomain
    | NoData
    | UnknownPacket

  datatype Section = AnswerSection | AuthoritySection | AdditionalSection

  /** A parsed reply: its classification and its three record sections. */
  datatype Packet = Packet(reply: PacketType, answer: seq<RR>, authority: seq<RR>, additional: seq<RR>)
  {
    function Records(s: Section): seq<RR>
    {
      match s
      case AnswerSection => answer
      case AuthoritySection => authority
      case AdditionalSection => additional
    }

    /** A packet with no records in any section. */
    predicate IsEmpty()
    {
      answer == [] && authority == [] && additional == []
    }
  }

  /** The records of `rrs` that `keep` accepts, in their original order. */
  function Select(rrs: seq<RR>, keep: RR -> bool): (r: seq<RR>)
    ensures |r| <= |rrs|
    ensures forall x {:trigger x in r} :: x in r <==> x in rrs && keep(x)
  {
    if rrs == [] then []
    else (if keep(rrs[0]) then [rrs[0]] else []) + Select(rrs[1..], keep)
  }

  /** The records of type `t` in one section of a possibly missing packet;
      a missing packet yields nothing. */
  function ByType(p: Option<Packet>, t: RRType, s: Section): (r: seq<RR>)
    ensures forall x {:trigger x in r} :: x in r <==> p.Some? && x in p.value.Records(s) && x.rtype == t
  {
    match p
    case None => []
    case Some(pkt) => Select(pkt.Records(s), (x: RR) => x.rtype == t)
  }

  /** The records owned by `name` with type `t` in one section. */
  function ByNameAndType(p: Option<Packet>, name: Name, t: RRType, s: Section): (r: seq<RR>)
    ensures forall x {:trigger x in r} :: x in r <==> p.Some? && x in p.value.Records(s) && x.owner == name && x.rtype == t
  {
    match p
    case None => []
    case Some(pkt) => Select(pkt.Records(s), (x: RR) => x.owner == name && x.rtype == t)
  }
}
