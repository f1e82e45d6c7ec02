/**
 * The view of DNS messages that the proxy takes through its DNS library.
 * Parsing and packing are done by that library and are not modelled: a
 * message is a value with a header, its questions and its answer records,
 * and every payload the proxy only copies around is opaque.
 */
module DnsMessage {

  /** A domain name as the proxy uses it for a cache key (its text form). */
  type DomainName = string

  /** A query type (A, AAAA, MX, ...) as the proxy uses it for a cache key. */
  type QType = string

  /** Opaque bytes of a datagram. */
  type Bytes = seq<bv8>

  /** The record data of one answer: stored and replayed, never inspected. */
  datatype RData = RData(payload: Bytes)

  /** A message header: copied from a request into a cached response. */
  datatype Header = Header(fields: Bytes)

  /** One entry of the question section. */
  datatype Question = Question(qname: DomainName, qtype: QType)

  /** One resource record of the answer section. */
  datatype ResourceRecord = ResourceRecord(rname: DomainName, rtype: QType, ttl: nat, rdata: RData)

  /** A parsed DNS message: header, question section and answer section. */
  datatype Message = Message(header: Header, questions: seq<Question>, rr: seq<ResourceRecord>)

  /** A client query as the listener sees it once parsed: its header and its question. */
  datatype Request = Request(header: Header, q: Question)
}
