/** The wire format of a shuffler RPC (`hg_proc_rpcin_t`): a header, the requests, and a
    marker of two zero words. */
module Wire {
  import opened Messages

  const WORD := 0x1_0000_0000

  /** A request as it crosses the network: `datalen` and `type` are uint32, the ranks int32. */
  datatype WireReq = WireReq(typ: int, src: int, dst: int, data: seq<Byte>)

  datatype RpcIn = RpcIn(iseq: int, forwardrank: int, inreqs: seq<WireReq>)

  predicate IsU32(n: int) { 0 <= n < WORD }

  predicate IsI32(n: int) { -WORD / 2 <= n < WORD / 2 }

  predicate ReqFits(r: WireReq) {
    IsU32(r.typ) && IsI32(r.src) && IsI32(r.dst) && IsU32(|r.data|)
  }

  predicate AllFit(rs: seq<WireReq>) {
    forall i :: 0 <= i < |rs| ==> ReqFits(rs[i])
  }

  predicate Fits(m: RpcIn) {
    IsI32(m.iseq) && IsI32(m.forwardrank) && AllFit(m.inreqs)
  }

  // ----- words -----

  function PutU32(n: int): (b: seq<Byte>)
    requires IsU32(n)
    ensures |b| == 4
  {
    [(n % 256) as Byte, (n / 256 % 256) as Byte, (n / 65536 % 256) as Byte, (n / 16777216) as Byte]
  }

  function GetU32(b: seq<Byte>): (n: int)
    requires |b| == 4
    ensures IsU32(n)
  {
    b[0] as int + 256 * b[1] as int + 65536 * b[2] as int + 16777216 * b[3] as int
  }

  lemma WordRoundTrip(n: int)
    requires IsU32(n)
    ensures GetU32(PutU32(n)) == n
  {
    var a := n / 256;
    var b := n / 65536;
    assert n / 65536 == a / 256 && n / 16777216 == b / 256;
  }

  lemma WordBack(b: seq<Byte>)
    requires |b| == 4
    ensures PutU32(GetU32(b)) == b
  {
    var n := GetU32(b);
    assert n / 256 == b[1] as int + 256 * b[2] as int + 65536 * b[3] as int;
    assert n / 65536 == b[2] as int + 256 * b[3] as int;
    assert n / 16777216 == b[3] as int;
  }

  /** Two's complement. */
  function PutI32(n: int): (b: seq<Byte>)
    requires IsI32(n)
    ensures |b| == 4
  {
    PutU32(if n < 0 then n + WORD else n)
  }

  function GetI32(b: seq<Byte>): (n: int)
    requires |b| == 4
    ensures IsI32(n)
  {
    var u := GetU32(b);
    if u < WORD / 2 then u else u - WORD
  }

  lemma SignedRoundTrip(n: int)
    requires IsI32(n)
    ensures GetI32(PutI32(n)) == n
  {
    WordRoundTrip(if n < 0 then n + WORD else n);
  }

  lemma SignedBack(b: seq<Byte>)
    requires |b| == 4
    ensures PutI32(GetI32(b)) == b
  {
    WordBack(b);
  }

  // ----- the format -----

  function PutReq(r: WireReq): (b: seq<Byte>)
    requires ReqFits(r)
    ensures |b| == 16 + |r.data|
  {
    PutU32(|r.data|) + PutU32(r.typ) + PutI32(r.src) + PutI32(r.dst) + r.data
  }

  function PutReqs(rs: seq<WireReq>): seq<Byte>
    requires AllFit(rs)
  {
    if rs == [] then PutU32(0) + PutU32(0) else PutReq(rs[0]) + PutReqs(rs[1..])
  }

  function Encode(m: RpcIn): seq<Byte>
    requires Fits(m)
  {
    PutI32(m.iseq) + PutI32(m.forwardrank) + PutReqs(m.inreqs)
  }

  /** None is a decoding error: the data was used up before the end marker. */
  function GetReqs(b: seq<Byte>): Option<seq<WireReq>>
    decreases |b|
  {
    if |b| < 8 then None
    else
      var dlen, typ := GetU32(b[..4]), GetU32(b[4..8]);
      if dlen == 0 && typ == 0 then Some([])
      else if |b| < 16 + dlen then None
      else Prepend([GetReq(b, dlen)], GetReqs(b[16 + dlen..]))
  }

  function GetReq(b: seq<Byte>, dlen: int): WireReq
    requires 0 <= dlen && |b| >= 16 + dlen
  {
    WireReq(GetU32(b[4..8]), GetI32(b[8..12]), GetI32(b[12..16]), b[16..16 + dlen])
  }

  function Prepend(rs: seq<WireReq>, rest: Option<seq<WireReq>>): Option<seq<WireReq>> {
    if rest.None? then None else Some(rs + rest.value)
  }

  function Decode(b: seq<Byte>): Option<RpcIn> {
    if |b| < 8 then None
    else
      var rs := GetReqs(b[8..]);
      if rs.None? then None else Some(RpcIn(GetI32(b[..4]), GetI32(b[4..8]), rs.value))
  }

  /** A request that looks like the end marker. */
  predicate IsMarker(r: WireReq) {
    r.data == [] && r.typ == 0
  }

  predicate NoMarker(rs: seq<WireReq>) {
    forall i :: 0 <= i < |rs| ==> !IsMarker(rs[i])
  }

  /** The requests before the first one that looks like the end marker. */
  function Readable(rs: seq<WireReq>): seq<WireReq> {
    if rs == [] || IsMarker(rs[0]) then [] else [rs[0]] + Readable(rs[1..])
  }

  lemma {:induction false} ReadableIff(rs: seq<WireReq>)
    ensures Readable(rs) <= rs
    ensures Readable(rs) == rs <==> NoMarker(rs)
  {
    if rs != [] {
      ReadableIff(rs[1..]);
      assert rs == [rs[0]] + rs[1..];
      assert forall i :: 0 < i < |rs| ==> rs[i] == rs[1..][i - 1];
    }
  }

  /** The fields of a request at the front of a buffer. */
  lemma ReqParts(r: WireReq, rest: seq<Byte>)
    requires ReqFits(r)
    ensures var b := PutReq(r) + rest;
            && |b| >= 16 + |r.data| && GetU32(b[..4]) == |r.data| && GetU32(b[4..8]) == r.typ
            && GetI32(b[8..12]) == r.src && GetI32(b[12..16]) == r.dst
            && b[16..16 + |r.data|] == r.data && b[16 + |r.data|..] == rest
  {
    var b := PutReq(r) + rest;
    assert b[..4] == PutU32(|r.data|) && b[4..8] == PutU32(r.typ);
    assert b[8..12] == PutI32(r.src) && b[12..16] == PutI32(r.dst);
    WordRoundTrip(|r.data|);
    WordRoundTrip(r.typ);
    SignedRoundTrip(r.src);
    SignedRoundTrip(r.dst);
  }

  lemma MarkerEnds(b: seq<Byte>)
    requires |b| >= 8 && b[..4] == PutU32(0) && b[4..8] == PutU32(0)
    ensures GetReqs(b) == Some([])
  {
    WordRoundTrip(0);
  }

  lemma {:induction false} ReqsRoundTrip(rs: seq<WireReq>)
    requires AllFit(rs)
    ensures GetReqs(PutReqs(rs)) == Some(Readable(rs))
  {
    var b := PutReqs(rs);
    if rs == [] {
      MarkerEnds(b);
    } else {
      ReqParts(rs[0], PutReqs(rs[1..]));
      ReqsRoundTrip(rs[1..]);
    }
  }

  lemma {:induction false} ReqsLength(rs: seq<WireReq>)
    requires AllFit(rs)
    ensures |PutReqs(rs)| >= 8
  {
    if rs != [] {
      ReqsLength(rs[1..]);
    }
  }

  /** Wire round trip: decoding gives back the header and exactly the requests before the
      first one with no data and type 0; so it gives back the message if and only if there
      is no such request. */
  lemma RoundTrip(m: RpcIn)
    requires Fits(m)
    ensures Decode(Encode(m)) == Some(m.(inreqs := Readable(m.inreqs)))
    ensures Decode(Encode(m)) == Some(m) <==> NoMarker(m.inreqs)
    ensures |Encode(m)| >= 16 && GetI32(Encode(m)[..4]) == m.iseq && GetI32(Encode(m)[4..8]) == m.forwardrank
  {
    var b := Encode(m);
    assert |PutReqs(m.inreqs)| >= 8 by { ReqsLength(m.inreqs); }
    assert b[..4] == PutI32(m.iseq) && b[4..8] == PutI32(m.forwardrank) && b[8..] == PutReqs(m.inreqs);
    SignedRoundTrip(m.iseq);
    SignedRoundTrip(m.forwardrank);
    ReqsRoundTrip(m.inreqs);
    ReadableIff(m.inreqs);
  }

  // ----- the other direction -----

  lemma ReqBack(b: seq<Byte>, dlen: int)
    requires |b| >= 4 && dlen == GetU32(b[..4]) && |b| >= 16 + dlen
    ensures ReqFits(GetReq(b, dlen)) && PutReq(GetReq(b, dlen)) == b[..16 + dlen]
  {
    WordBack(b[..4]);
    WordBack(b[4..8]);
    SignedBack(b[8..12]);
    SignedBack(b[12..16]);
    assert b[..16 + dlen] == b[..4] + b[4..8] + b[8..12] + b[12..16] + b[16..16 + dlen];
  }

  lemma MarkerBack(b: seq<Byte>)
    requires |b| >= 8 && GetU32(b[..4]) == 0 && GetU32(b[4..8]) == 0
    ensures PutReqs([]) <= b
  {
    WordBack(b[..4]);
    WordBack(b[4..8]);
    assert b[..8] == b[..4] + b[4..8];
  }

  lemma PutReqsFront(r: WireReq, rs: seq<WireReq>)
    requires ReqFits(r) && AllFit(rs)
    ensures AllFit([r] + rs) && PutReqs([r] + rs) == PutReq(r) + PutReqs(rs)
  {
    assert ([r] + rs)[1..] == rs;
  }

  lemma PrefixJoin(b: seq<Byte>, n: int, p: seq<Byte>)
    requires 0 <= n <= |b| && p <= b[n..]
    ensures b[..n] + p <= b
  {
    assert b == b[..n] + b[n..];
  }

  /** The first request of a buffer, and what the rest of it decodes to. */
  lemma FrontBack(b: seq<Byte>, dlen: int, tail: seq<WireReq>)
    requires |b| >= 8 && dlen == GetU32(b[..4]) && |b| >= 16 + dlen && (dlen != 0 || GetU32(b[4..8]) != 0)
    requires AllFit(tail) && NoMarker(tail) && PutReqs(tail) <= b[16 + dlen..]
    ensures var rs := [GetReq(b, dlen)] + tail; AllFit(rs) && NoMarker(rs) && PutReqs(rs) <= b
  {
    ReqBack(b, dlen);
    PutReqsFront(GetReq(b, dlen), tail);
    PrefixJoin(b, 16 + dlen, PutReqs(tail));
  }

  /** `b` starts with the encoding of `rs`, none of which looks like the end marker. */
  ghost predicate Starts(b: seq<Byte>, rs: seq<WireReq>) {
    AllFit(rs) && NoMarker(rs) && PutReqs(rs) <= b
  }

  lemma FrontStarts(b: seq<Byte>, rs: seq<WireReq>, dlen: int, tail: seq<WireReq>)
    requires |b| >= 8 && dlen == GetU32(b[..4]) && |b| >= 16 + dlen && (dlen != 0 || GetU32(b[4..8]) != 0)
    requires Starts(b[16 + dlen..], tail) && rs == [GetReq(b, dlen)] + tail
    ensures Starts(b, rs)
  {
    FrontBack(b, dlen, tail);
  }

  /** Whatever decodes starts with the encoding of what it decodes to, and holds nothing like
      the end marker. */
  lemma {:induction false} ReqsBack(b: seq<Byte>)
    requires GetReqs(b).Some?
    ensures Starts(b, GetReqs(b).value)
    decreases |b|
  {
    var dlen := GetU32(b[..4]);
    if dlen == 0 && GetU32(b[4..8]) == 0 {
      MarkerBack(b);
    } else {
      ReqsBack(b[16 + dlen..]);
      FrontStarts(b, GetReqs(b).value, dlen, GetReqs(b[16 + dlen..]).value);
    }
  }

  lemma HeadMore(b: seq<Byte>, c: seq<Byte>, dlen: int)
    requires 0 <= dlen && |b| >= 16 + dlen
    ensures GetReq(b + c, dlen) == GetReq(b, dlen) && (b + c)[16 + dlen..] == b[16 + dlen..] + c
  {
    assert (b + c)[4..8] == b[4..8] && (b + c)[8..12] == b[8..12] && (b + c)[12..16] == b[12..16];
    assert (b + c)[16..16 + dlen] == b[16..16 + dlen];
  }

  /** Decoding looks at no more than it consumes. */
  lemma {:induction false} ReqsMore(b: seq<Byte>, c: seq<Byte>)
    requires GetReqs(b).Some?
    ensures GetReqs(b + c) == GetReqs(b)
    decreases |b|
  {
    var dlen, typ := GetU32(b[..4]), GetU32(b[4..8]);
    assert (b + c)[..4] == b[..4] && (b + c)[4..8] == b[4..8];
    if dlen != 0 || typ != 0 {
      HeadMore(b, c, dlen);
      ReqsMore(b[16 + dlen..], c);
      GetFirst(b, dlen);
      GetFirst(b + c, dlen);
    }
  }

  lemma GetFirst(b: seq<Byte>, dlen: int)
    requires |b| >= 8 && dlen == GetU32(b[..4]) && |b| >= 16 + dlen && (dlen != 0 || GetU32(b[4..8]) != 0)
    ensures GetReqs(b) == Prepend([GetReq(b, dlen)], GetReqs(b[16 + dlen..]))
  {
  }

  lemma MarkerFront(r: WireReq)
    requires ReqFits(r) && IsMarker(r)
    ensures PutReqs([]) <= PutReq(r)
  {
  }

  /** The encoding starts with the encoding of what the receiver reads. */
  lemma {:induction false} ReadablePrefix(rs: seq<WireReq>)
    requires AllFit(rs)
    ensures AllFit(Readable(rs)) && PutReqs(Readable(rs)) <= PutReqs(rs)
  {
    if rs != [] {
      if IsMarker(rs[0]) {
        MarkerFront(rs[0]);
      } else {
        ReadablePrefix(rs[1..]);
        PutReqsFront(rs[0], Readable(rs[1..]));
      }
    }
  }

  /** A prefix that decodes does so like the whole. */
  lemma CutAgrees(b: seq<Byte>, n: nat)
    requires n <= |b| && GetReqs(b[..n]).Some?
    ensures GetReqs(b[..n]) == GetReqs(b)
  {
    assert b == b[..n] + b[n..];
    ReqsMore(b[..n], b[n..]);
  }

  lemma StartsWithin(b: seq<Byte>, rs: seq<WireReq>)
    requires GetReqs(b) == Some(rs)
    ensures AllFit(rs) && |b| >= |PutReqs(rs)|
  {
    ReqsBack(b);
  }

  /** A prefix that decodes holds everything the receiver reads of the whole. */
  lemma CutHolds(rs: seq<WireReq>, n: nat)
    requires AllFit(rs) && n <= |PutReqs(rs)| && GetReqs(PutReqs(rs)[..n]).Some?
    ensures GetReqs(PutReqs(rs)[..n]) == Some(Readable(rs)) && AllFit(Readable(rs)) && n >= |PutReqs(Readable(rs))|
  {
    CutAgrees(PutReqs(rs), n);
    ReqsRoundTrip(rs);
    StartsWithin(PutReqs(rs)[..n], Readable(rs));
  }

  /** A prefix that holds all that decodes. */
  lemma CutDecodes(rs: seq<WireReq>, n: nat, front: seq<Byte>)
    requires AllFit(rs) && AllFit(Readable(rs)) && front == PutReqs(Readable(rs)) && |front| <= n <= |PutReqs(rs)|
    requires front <= PutReqs(rs)
    ensures GetReqs(PutReqs(rs)[..n]) == Some(Readable(rs))
  {
    var c := PutReqs(rs)[..n];
    assert c == front + c[|front|..];
    ReadableTwice(rs);
    ReqsRoundTrip(Readable(rs));
    ReqsMore(front, c[|front|..]);
  }

  lemma CutReqs(rs: seq<WireReq>, n: nat)
    requires AllFit(rs) && n <= |PutReqs(rs)|
    ensures AllFit(Readable(rs))
    ensures GetReqs(PutReqs(rs)[..n])
         == if n >= |PutReqs(Readable(rs))| then Some(Readable(rs)) else None
  {
    ReadablePrefix(rs);
    if n >= |PutReqs(Readable(rs))| {
      CutDecodes(rs, n, PutReqs(Readable(rs)));
    } else if GetReqs(PutReqs(rs)[..n]).Some? {
      CutHolds(rs, n);
    }
  }

  lemma {:induction false} ReadableTwice(rs: seq<WireReq>)
    ensures Readable(Readable(rs)) == Readable(rs)
  {
    if rs != [] && !IsMarker(rs[0]) {
      ReadableTwice(rs[1..]);
    }
  }

  /** A message cut short after n bytes decodes if and only if the cut lies behind what the
      receiver reads of the whole message, and then to the same; so without a request that
      looks like the end marker no strict prefix decodes. */
  lemma TruncationDetected(m: RpcIn, n: nat)
    requires Fits(m) && n <= |Encode(m)|
    ensures AllFit(Readable(m.inreqs))
    ensures Decode(Encode(m)[..n])
         == if n >= 8 + |PutReqs(Readable(m.inreqs))| then Some(m.(inreqs := Readable(m.inreqs))) else None
    ensures NoMarker(m.inreqs) && n < |Encode(m)| ==> Decode(Encode(m)[..n]).None?
  {
    var e := Encode(m);
    assert e[8..] == PutReqs(m.inreqs);
    ReadablePrefix(m.inreqs);
    if n >= 8 {
      assert e[..n][8..] == PutReqs(m.inreqs)[..n - 8];
      CutReqs(m.inreqs, n - 8);
      assert e[..n][..4] == PutI32(m.iseq) && e[..n][4..8] == PutI32(m.forwardrank);
      SignedRoundTrip(m.iseq);
      SignedRoundTrip(m.forwardrank);
    }
    ReadableIff(m.inreqs);
  }

  // ----- the loops -----

  method EncodeRpc(m: RpcIn) returns (b: seq<Byte>)
    requires Fits(m)
    ensures b == Encode(m)
  {
    b := PutI32(m.iseq) + PutI32(m.forwardrank);
    var i := 0;
    while i < |m.inreqs|
      invariant 0 <= i <= |m.inreqs|
      invariant b + PutReqs(m.inreqs[i..]) == Encode(m)
    {
      var r := m.inreqs[i];
      assert m.inreqs[i..][0] == r && m.inreqs[i..][1..] == m.inreqs[i + 1..];
      assert b + PutReqs(m.inreqs[i..]) == b + PutReq(r) + PutReqs(m.inreqs[i + 1..]);
      b := b + PutReq(r);
      i := i + 1;
    }
    b := b + PutU32(0) + PutU32(0);
  }

  lemma PrependMore(rs: seq<WireReq>, r: WireReq, rest: Option<seq<WireReq>>)
    ensures Prepend(rs, Prepend([r], rest)) == Prepend(rs + [r], rest)
  {
    if rest.Some? {
      assert rs + ([r] + rest.value) == rs + [r] + rest.value;
    }
  }

  lemma PrependEmpty(rs: seq<WireReq>, rest: Option<seq<WireReq>>)
    ensures Prepend([], rest) == rest && Prepend(rs, Some([])) == Some(rs)
  {
    if rest.Some? {
      assert [] + rest.value == rest.value;
    }
    assert rs + [] == rs;
  }

  /** One more request is read. */
  lemma ReadOne(b: seq<Byte>, pos: nat, inreqs: seq<WireReq>, dlen: nat)
    requires pos + 16 + dlen <= |b| && dlen == GetU32(b[pos..][..4])
    requires dlen != 0 || GetU32(b[pos..][4..8]) != 0
    ensures Prepend(inreqs, GetReqs(b[pos..]))
         == Prepend(inreqs + [GetReq(b[pos..], dlen)], GetReqs(b[pos + 16 + dlen..]))
  {
    assert b[pos..][16 + dlen..] == b[pos + 16 + dlen..];
    PrependMore(inreqs, GetReq(b[pos..], dlen), GetReqs(b[pos + 16 + dlen..]));
  }

  /** The decode loop: `pos` is how much of the buffer was consumed. */
  method DecodeReqs(b: seq<Byte>) returns (rs: Option<seq<WireReq>>)
    ensures rs == GetReqs(b)
  {
    var pos, inreqs := 0, [];
    assert b[0..] == b;
    PrependEmpty([], GetReqs(b));
    while true
      invariant 0 <= pos <= |b|
      invariant GetReqs(b) == Prepend(inreqs, GetReqs(b[pos..]))
      decreases |b| - pos
    {
      var rest := b[pos..];
      if |rest| < 8 {
        return None;
      }
      var dlen, typ := GetU32(rest[..4]), GetU32(rest[4..8]);
      if dlen == 0 && typ == 0 {
        PrependEmpty(inreqs, None);
        break;
      }
      if |rest| < 16 + dlen {
        return None;
      }
      ReadOne(b, pos, inreqs, dlen);
      inreqs := inreqs + [GetReq(rest, dlen)];
      pos := pos + 16 + dlen;
    }
    rs := Some(inreqs);
  }

  method DecodeRpc(b: seq<Byte>) returns (m: Option<RpcIn>)
    ensures m == Decode(b)
  {
    if |b| < 8 {
      return None;
    }
    var rs := DecodeReqs(b[8..]);
    m := if rs.None? then None else Some(RpcIn(GetI32(b[..4]), GetI32(b[4..8]), rs.value));
  }
}
