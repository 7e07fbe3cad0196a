/** The values the control plane and the packet programs share. Addresses, VIP keys and backend
    names are compared as values, where the source compares their canonical text. */
module Types {

  /** A 16-bit word, as the Internet checksum sees memory. */
  type Word = w: nat | w < 0x1_0000

  type V6Words = s: seq<Word> | |s| == 8 witness [0, 0, 0, 0, 0, 0, 0, 0]

  datatype Addr = V4(hi: Word, lo: Word) | V6(words: V6Words) {
    function Words(): (r: seq<Word>)
      ensures |r| == if V4? then 2 else 8
    {
      match this
      case V4(hi, lo) => [hi, lo]
      case V6(words) => words
    }
  }

  datatype Proto = TCP | UDP

  /** A backend's "addr:port" name. */
  datatype Endpoint = Endpoint(addr: Addr, port: Word)

  /** A VIP's key. portEnd is 0 for a single port, else the last port of a range. */
  datatype VipId = VipId(addr: Addr, port: Word, portEnd: Word, proto: Proto) {
    predicate IsRange() { portEnd != 0 }

    /** config.VIP.Contains, for a packet of this VIP's address and protocol. */
    predicate Contains(p: Word) {
      if IsRange() then port <= p <= portEnd else p == port
    }

    predicate Serves(a: Addr, p: Word, pr: Proto) {
      addr == a && proto == pr && Contains(p)
    }
  }
}
