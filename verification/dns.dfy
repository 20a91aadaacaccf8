/** The DNS vocabulary the cache works with: names as exact label sequences,
    the record types it understands, and parsed resource records, queries and
    messages. Wire format (parsing and packing) is not modelled; these are the
    values a parser would hand over. */
module Dns {

  /** An octet of wire data. */
  newtype byte = x: int | 0 <= x < 256

  /** One wire-format label. */
  type Label = seq<byte>

  /** A domain name as its label sequence. Names are compared exactly, label by
      label and byte by byte: there is no case folding or other normalisation. */
  type Name = seq<Label>

  /** The four octets of an IPv4 address (A record data, RFC 1035 section 3.4.1). */
  type Ipv4 = x: seq<byte> | |x| == 4 witness [0, 0, 0, 0]

  /** The sixteen octets of an IPv6 address (AAAA record data, RFC 3596 section 2.2). */
  type Ipv6 = x: seq<byte> | |x| == 16 witness [0, 0, 0, 0, 0, 0, 0, 0, 0, 0, 0, 0, 0, 0, 0, 0]

  /** A record's time to live: an unsigned 32-bit count of seconds, as a
      parser reads the TTL field (RFC 1035 section 4.1.3, RFC 2181 section 8). */
  type Ttl = x: int | 0 <= x < 0x1_0000_0000

  /** Query and record types. The cache serves A and NS (RFC 1035 section 3.2.2),
      AAAA (RFC 3596 section 2.1) and PTR (RFC 1035 section 3.2.2); every other
      type code is `Other`. */
  datatype QType = A | AAAA | NS | PTR | Other

  /** The data of a parsed resource record. The variant fixes the record's type,
      as a parser builds the data from the type field. */
  datatype RData =
    | Addr4(v4: Ipv4)
    | Addr6(v6: Ipv6)
    | NsHost(server: Name)
    | PtrHost(target: Name)
    | Opaque(raw: seq<byte>)
  {
    /** The type field of a record carrying this data. */
    function Type(): (t: QType) {
      match this
      case Addr4(_) => A
      case Addr6(_) => AAAA
      case NsHost(_) => NS
      case PtrHost(_) => PTR
      case Opaque(_) => Other
    }
  }

  /** One resource record of an upstream message: owner name, ttl and data. */
  datatype ResourceRecord = ResourceRecord(name: Name, ttl: Ttl, rdata: RData)

  /** The record sections of a parsed upstream message. */
  datatype Message = Message(
    rr: seq<ResourceRecord>,    // answer section
    auth: seq<ResourceRecord>,  // authority section
    ar: seq<ResourceRecord>)    // additional section

  /** The question of a client query. */
  datatype Query = Query(qname: Name, qtype: QType, qclass: nat)

  /** One answer record the cache adds to a reply. Its type is `rdata.Type()`. */
  datatype Answer = Answer(rname: Name, rclass: nat, ttl: nat, rdata: RData)

  /** The set of owner names of a sequence of records. */
  function NamesOf(recs: seq<ResourceRecord>): (names: set<Name>)
    ensures forall i :: 0 <= i < |recs| ==> recs[i].name in names
    ensures forall n :: n in names ==> exists i :: 0 <= i < |recs| && recs[i].name == n
  {
    set i | 0 <= i < |recs| :: recs[i].name
  }
}
