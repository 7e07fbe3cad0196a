/** The IPv6 extension-header walk (rivora_v6_walk in bpf/rivora_common.h), against a recursive
    reading of the header chain of section 4 of RFC 8200 that knows no limits. */
module V6Walk {
  import opened Common

  type Byte = b: nat | b < 256

  const HOPOPTS: Byte := 0
  const FRAGMENT: Byte := 44
  const DSTOPTS: Byte := 60
  const MAX_EXT := 4
  const MAX_EXT_BYTES := 248

  // ---- The chain.

  datatype Ext = Options(len: nat) | Fragment(offset: nat, more: bool, id: nat)

  datatype Chain = Chain(exts: seq<Ext>, proto: Byte, off: nat)

  predicate IsOptions(nh: Byte) {
    nh == HOPOPTS || nh == DSTOPTS
  }

  predicate IsExt(nh: Byte) {
    IsOptions(nh) || nh == FRAGMENT
  }

  function BigEndian(bytes: seq<Byte>): nat {
    if bytes == [] then 0 else 256 * BigEndian(bytes[..|bytes| - 1]) + bytes[|bytes| - 1]
  }

  /** The Fragment header at off: 13 bits of offset in 8-byte units, two reserved bits, and the
      more-fragments bit; then 32 bits of identification. */
  function FragmentAt(bytes: seq<Byte>, off: nat): Ext
    requires off + 8 <= |bytes|
  {
    var field := BigEndian(bytes[off + 2..off + 4]);
    Fragment(field / 8 * 8, field % 2 == 1, BigEndian(bytes[off + 4..off + 8]))
  }

  /** The bytes an options header takes, from its length byte. */
  function OptionsLen(units: nat): nat {
    (units + 1) * 8
  }

  /** The chain from a header of kind nh at off. An options header shows its length in its second
      byte; nothing needs to be present of a header but what is read of it. None if a header that
      must be read is cut off. */
  function Parse(bytes: seq<Byte>, nh: Byte, off: nat): (r: Option<Chain>)
    ensures r.Some? ==> r.value.off >= off
    decreases |bytes| - off
  {
    if IsOptions(nh) then
      if off + 2 > |bytes| then None
      else
        var len := OptionsLen(bytes[off + 1]);
        Then(Options(len), Parse(bytes, bytes[off], off + len))
    else if nh == FRAGMENT then
      if off + 8 > |bytes| then None
      else Then(FragmentAt(bytes, off), Parse(bytes, bytes[off], off + 8))
    else
      Some(Chain([], nh, off))
  }

  function Then(e: Ext, rest: Option<Chain>): Option<Chain> {
    match rest
    case None => None
    case Some(c) => Some(Chain([e] + c.exts, c.proto, c.off))
  }

  function Fragments(exts: seq<Ext>): seq<Ext> {
    if exts == [] then []
    else (if exts[0].Fragment? then [exts[0]] else []) + Fragments(exts[1..])
  }

  lemma {:induction false} FragmentsConcat(a: seq<Ext>, b: seq<Ext>)
    ensures Fragments(a + b) == Fragments(a) + Fragments(b)
  {
    if a == [] {
      assert a + b == b;
    } else {
      assert (a + b)[0] == a[0] && (a + b)[1..] == a[1..] + b;
      FragmentsConcat(a[1..], b);
    }
  }

  /** A chain the programs are prepared to walk. */
  ghost predicate Walkable(c: Option<Chain>) {
    c.Some? && |c.value.exts| <= MAX_EXT && c.value.off <= MAX_EXT_BYTES && |Fragments(c.value.exts)| <= 1
  }

  // ---- The walk.

  datatype V6L4 = V6L4(off: nat, proto: Byte, isFrag: bool, more: bool, fragOff: nat, id: nat)

  /** The fragment fields say what the one Fragment header said, or are zero. */
  ghost predicate Describes(out: V6L4, fragments: seq<Ext>) {
    if fragments == [] then !out.isFrag && !out.more && out.fragOff == 0 && out.id == 0
    else fragments == [Fragment(out.fragOff, out.more, out.id)] && out.isFrag
  }

  /** The whole chain is what was walked and what is left. */
  ghost predicate Ahead(whole: Option<Chain>, seen: seq<Ext>, rest: Option<Chain>) {
    if rest.None? then whole.None? else whole == Some(Chain(seen + rest.value.exts, rest.value.proto, rest.value.off))
  }

  lemma AheadNext(whole: Option<Chain>, seen: seq<Ext>, e: Ext, rest: Option<Chain>)
    requires Ahead(whole, seen, Then(e, rest))
    ensures Ahead(whole, seen + [e], rest)
  {
    if rest.Some? {
      assert seen + ([e] + rest.value.exts) == seen + [e] + rest.value.exts;
    }
  }

  /** rivora_v6_walk over the bytes between the fixed header and the end of the packet: it succeeds
      on exactly the chains within its limits, and then reports where their payload starts, its
      protocol, and the fields of their Fragment header. */
  method Walk(bytes: seq<Byte>, first: Byte) returns (r: Option<V6L4>)
    ensures r.Some? <==> Walkable(Parse(bytes, first, 0))
    ensures r.Some? ==>
              && r.value.off == Parse(bytes, first, 0).value.off && r.value.proto == Parse(bytes, first, 0).value.proto
              && Describes(r.value, Fragments(Parse(bytes, first, 0).value.exts))
  {
    assert Fragments([]) == [];
    hide Fragments, Then;
    ghost var whole := Parse(bytes, first, 0);
    ghost var seen: seq<Ext> := [];
    var nh: Byte, off: nat := first, 0;
    assert whole.Some? ==> [] + whole.value.exts == whole.value.exts;
    var out := V6L4(0, 0, false, false, 0, 0);
    var i := 0;
    while i < MAX_EXT && IsExt(nh)
      invariant 0 <= i <= MAX_EXT && |seen| == i && off <= MAX_EXT_BYTES
      invariant Ahead(whole, seen, Parse(bytes, nh, off)) && Describes(out, Fragments(seen))
      decreases MAX_EXT - i
    {
      if out.isFrag && nh == FRAGMENT {
        TwoFragments(bytes, whole, seen, nh, off);
        return None;
      }
      var step := ReadExt(bytes, nh, off, out);
      if step.None? {
        return None;
      }
      ghost var e, was := ExtAt(bytes, nh, off), seen;
      AheadNext(whole, was, e, Parse(bytes, step.value.0, step.value.1));
      DescribesNext(out, step.value.2, was, e);
      nh, off, out := step.value.0, step.value.1, step.value.2;
      seen := seen + [e];
      if off > MAX_EXT_BYTES {
        return None;
      }
      i := i + 1;
    }
    if IsExt(nh) {
      TooMany(bytes, whole, seen, nh, off);
      return None;
    }
    assert Parse(bytes, nh, off) == Some(Chain([], nh, off));
    assert seen + [] == seen;
    r := Some(out.(off := off, proto := nh));
  }

  /** The header of kind nh at off. */
  function ExtAt(bytes: seq<Byte>, nh: Byte, off: nat): Ext
    requires IsExt(nh) && off + (if IsOptions(nh) then 2 else 8) <= |bytes|
  {
    if IsOptions(nh) then Options(OptionsLen(bytes[off + 1])) else FragmentAt(bytes, off)
  }

  /** One header: the next one's kind and place, and the fragment fields; None if it is cut off.
      The offset is masked to a byte, which never changes it. */
  method ReadExt(bytes: seq<Byte>, nh: Byte, off: nat, out: V6L4) returns (r: Option<(Byte, nat, V6L4)>)
    requires IsExt(nh) && off <= MAX_EXT_BYTES
    ensures r.None? <==> off + (if IsOptions(nh) then 2 else 8) > |bytes|
    ensures r.None? ==> Parse(bytes, nh, off).None?
    ensures r.Some? ==> Parse(bytes, nh, off) == Then(ExtAt(bytes, nh, off), Parse(bytes, r.value.0, r.value.1))
    ensures r.Some? ==> if IsOptions(nh) then r.value.2 == out
                        else r.value.2.isFrag && Fragment(r.value.2.fragOff, r.value.2.more,
                            r.value.2.id) == ExtAt(bytes, nh, off)
  {
    var at := off % 256;
    if IsOptions(nh) {
      if at + 2 > |bytes| {
        return None;
      }
      return Some((bytes[at], off + OptionsLen(bytes[at + 1]), out));
    }
    if at + 8 > |bytes| {
      return None;
    }
    var read := ReadFragment(bytes, at, out);
    return Some((bytes[at], off + 8, read));
  }

  lemma DescribesNext(out: V6L4, out': V6L4, seen: seq<Ext>, e: Ext)
    requires Describes(out, Fragments(seen)) && (e.Fragment? ==> !out.isFrag)
    requires if e.Options? then out' == out else out'.isFrag && Fragment(out'.fragOff, out'.more, out'.id) == e
    ensures Describes(out', Fragments(seen + [e]))
  {
    FragmentsConcat(seen, [e]);
    assert Fragments([e]) == if e.Fragment? then [e] else [];
  }

  /** Still on a header after the last step allowed. */
  lemma TooMany(bytes: seq<Byte>, whole: Option<Chain>, seen: seq<Ext>, nh: Byte, off: nat)
    requires Ahead(whole, seen, Parse(bytes, nh, off)) && IsExt(nh) && |seen| == MAX_EXT
    ensures !Walkable(whole)
  {
  }

  method ReadFragment(bytes: seq<Byte>, at: nat, out: V6L4) returns (r: V6L4)
    requires at + 8 <= |bytes|
    ensures r.isFrag && Fragment(r.fragOff, r.more, r.id) == FragmentAt(bytes, at) && r.off == out.off
        && r.proto == out.proto
  {
    var field := BigEndian(bytes[at + 2..at + 4]);
    r := out.(isFrag := true, more := field % 2 == 1, fragOff := field - field % 8,
      id := BigEndian(bytes[at + 4..at + 8]));
  }

  /** A second Fragment header puts the chain out of reach, wherever the chain goes from there. */
  lemma TwoFragments(bytes: seq<Byte>, whole: Option<Chain>, seen: seq<Ext>, nh: Byte, off: nat)
    requires Ahead(whole, seen, Parse(bytes, nh, off)) && nh == FRAGMENT && |Fragments(seen)| == 1
    ensures !Walkable(whole)
  {
    if off + 8 <= |bytes| && Parse(bytes, nh, off).Some? {
      FragmentsConcat(seen, Parse(bytes, nh, off).value.exts);
    }
  }

  // ---- A chain as a sender lays it out.

  /** An extension header to be written: options of either kind with their bytes, padded so that the
      header is a multiple of 8 long, or a fragment's place in 8-byte units. */
  datatype Header = OptionsHeader(kind: Byte, body: seq<Byte>) | FragmentHeader(units: nat, more: bool, id: nat)

  ghost predicate Writable(h: Header) {
    match h
    case OptionsHeader(kind, body) => IsOptions(kind) && |body| % 8 == 6 && |body| < 2054
    case FragmentHeader(units, _, id) => units < 0x2000 && id < 0x1_0000_0000
  }

  ghost function KindOf(hs: seq<Header>, proto: Byte): Byte {
    if hs == [] then proto else if hs[0].OptionsHeader? then hs[0].kind else FRAGMENT
  }

  ghost function TwoBytes(x: nat): (bytes: seq<Byte>)
    requires x < 0x1_0000
    ensures |bytes| == 2
  {
    [x / 256, x % 256]
  }

  /** The header's bytes, when the next one is of kind next. */
  ghost function Written(h: Header, next: Byte): (bytes: seq<Byte>)
    requires Writable(h)
    ensures |bytes| >= 8
  {
    match h
    case OptionsHeader(_, body) => [next, (|body| - 6) / 8] + body
    case FragmentHeader(units, more, id) =>
      [next, 0] + TwoBytes(8 * units + if more then 1 else 0) + TwoBytes(id / 0x1_0000) + TwoBytes(id % 0x1_0000)
  }

  ghost predicate AllWritable(hs: seq<Header>) {
    forall i :: 0 <= i < |hs| ==> Writable(hs[i])
  }

  ghost function LaidOut(hs: seq<Header>, proto: Byte): seq<Byte>
    requires AllWritable(hs)
  {
    if hs == [] then [] else Written(hs[0], KindOf(hs[1..], proto)) + LaidOut(hs[1..], proto)
  }

  ghost function Meaning(h: Header): Ext {
    match h
    case OptionsHeader(_, body) => Options(|body| + 2)
    case FragmentHeader(units, more, id) => Fragment(8 * units, more, id)
  }

  ghost function Meanings(hs: seq<Header>): seq<Ext> {
    if hs == [] then [] else [Meaning(hs[0])] + Meanings(hs[1..])
  }

  lemma TwoBytesRead(x: nat)
    requires x < 0x1_0000
    ensures BigEndian(TwoBytes(x)) == x
  {
    var bytes := TwoBytes(x);
    assert bytes[..1] == [x / 256] && bytes[..1][..0] == [];
    assert BigEndian([x / 256]) == x / 256;
  }

  lemma {:induction false} BigEndianJoins(a: seq<Byte>, b: seq<Byte>)
    requires |b| == 2
    ensures BigEndian(a + b) == 0x1_0000 * BigEndian(a) + BigEndian(b)
  {
    assert (a + b)[..|a| + 1] == a + [b[0]] && (a + [b[0]])[..|a|] == a;
    assert b[..1] == [b[0]] && [b[0]][..0] == [];
    assert BigEndian(a + [b[0]]) == 256 * BigEndian(a) + b[0];
    assert BigEndian([b[0]]) == b[0];
  }

  /** These bytes stand at off. */
  ghost predicate StandsAt(bytes: seq<Byte>, off: nat, part: seq<Byte>) {
    off + |part| <= |bytes| && bytes[off..off + |part|] == part
  }

  lemma PartsStand(bytes: seq<Byte>, off: nat, a: seq<Byte>, b: seq<Byte>)
    requires StandsAt(bytes, off, a + b)
    ensures StandsAt(bytes, off, a) && StandsAt(bytes, off + |a|, b)
  {
    var all := bytes[off..off + |a + b|];
    assert bytes[off..off + |a|] == all[..|a|] == a;
    assert bytes[off + |a|..off + |a| + |b|] == all[|a|..] == b;
  }

  /** One header is read as it was written. */
  lemma HeaderRead(bytes: seq<Byte>, off: nat, h: Header, next: Byte)
    requires Writable(h) && StandsAt(bytes, off, Written(h, next))
    ensures Parse(bytes, KindOf([h], next), off) == Then(Meaning(h), Parse(bytes, next, off + |Written(h, next)|))
  {
    var w := Written(h, next);
    assert bytes[off] == bytes[off..off + |w|][0] && bytes[off + 1] == bytes[off..off + |w|][1];
    match h
    case OptionsHeader(kind, body) =>
      assert bytes[off + 1] == (|body| - 6) / 8;
      assert OptionsLen((|body| - 6) / 8) == |body| + 2;
    case FragmentHeader(units, more, id) =>
      FragmentRead(bytes, off, h, next);
  }

  lemma FragmentRead(bytes: seq<Byte>, off: nat, h: Header, next: Byte)
    requires h.FragmentHeader? && Writable(h) && StandsAt(bytes, off, Written(h, next))
    ensures FragmentAt(bytes, off) == Meaning(h)
  {
    var field := 8 * h.units + if h.more then 1 else 0;
    var hi, lo := TwoBytes(h.id / 0x1_0000), TwoBytes(h.id % 0x1_0000);
    FragmentParts(h, next);
    FieldIs(h.units, h.more);
    hide TwoBytes, Written, BigEndian, Writable, StandsAt;
    PartsStand(bytes, off, [next, 0], TwoBytes(field) + (hi + lo));
    PartsStand(bytes, off + 2, TwoBytes(field), hi + lo);
    TwoBytesRead(field);
    IdRead(h.id);
    Standing(bytes, off + 2, TwoBytes(field), off + 4);
    Standing(bytes, off + 4, hi + lo, off + 8);
  }

  lemma Standing(bytes: seq<Byte>, off: nat, part: seq<Byte>, end: nat)
    requires StandsAt(bytes, off, part) && end == off + |part|
    ensures end <= |bytes| && bytes[off..end] == part
  {
  }

  lemma FieldIs(units: nat, more: bool)
    ensures var field := 8 * units + if more then 1 else 0; field / 8 * 8 == 8 * units && (field % 2 == 1 <==> more)
  {
  }

  lemma FragmentParts(h: Header, next: Byte)
    requires h.FragmentHeader? && Writable(h)
    ensures Written(h, next) == [next, 0] + (TwoBytes(8 * h.units + if h.more then 1 else 0)
        + (TwoBytes(h.id / 0x1_0000) + TwoBytes(h.id % 0x1_0000)))
  {
    hide TwoBytes;
  }

  lemma IdRead(id: nat)
    requires id < 0x1_0000_0000
    ensures BigEndian(TwoBytes(id / 0x1_0000) + TwoBytes(id % 0x1_0000)) == id
  {
    hide TwoBytes, BigEndian;
    BigEndianJoins(TwoBytes(id / 0x1_0000), TwoBytes(id % 0x1_0000));
    TwoBytesRead(id / 0x1_0000);
    TwoBytesRead(id % 0x1_0000);
  }

  /** Whatever chain a sender lays out, wherever it stands in a packet, is read back as it was written,
      up to the payload. */
  lemma {:induction false} LaidOutIsRead(bytes: seq<Byte>, off: nat, hs: seq<Header>, proto: Byte)
    requires AllWritable(hs) && !IsExt(proto) && StandsAt(bytes, off, LaidOut(hs, proto))
    ensures Parse(bytes, KindOf(hs, proto), off) == Some(Chain(Meanings(hs), proto, off + |LaidOut(hs, proto)|))
    decreases |hs|
  {
    hide Parse, IsExt, StandsAt, LaidOut, KindOf, Meanings, Written, Writable, AllWritable, Meaning;
    if hs == [] {
      NothingLaidOut(bytes, off, proto);
    } else {
      LaidOutParts(hs, proto);
      var next := KindOf(hs[1..], proto);
      var first, rest := Written(hs[0], next), LaidOut(hs[1..], proto);
      PartsStand(bytes, off, first, rest);
      LaidOutIsRead(bytes, off + |first|, hs[1..], proto);
      HeaderRead(bytes, off, hs[0], next);
    }
  }

  lemma NothingLaidOut(bytes: seq<Byte>, off: nat, proto: Byte)
    requires !IsExt(proto)
    ensures LaidOut([], proto) == [] && Parse(bytes, KindOf([], proto), off) == Some(Chain(Meanings([]), proto, off))
  {
  }

  lemma LaidOutParts(hs: seq<Header>, proto: Byte)
    requires AllWritable(hs) && hs != []
    ensures Writable(hs[0]) && AllWritable(hs[1..])
    ensures LaidOut(hs, proto) == Written(hs[0], KindOf(hs[1..], proto)) + LaidOut(hs[1..], proto)
    ensures KindOf([hs[0]], KindOf(hs[1..], proto)) == KindOf(hs, proto)
    ensures Meanings(hs) == [Meaning(hs[0])] + Meanings(hs[1..])
  {
  }
}
