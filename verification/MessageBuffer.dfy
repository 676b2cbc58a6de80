/** The circular message buffer of `mlog.c`: whatever was logged, the buffer holds the
    newest bytes of the history. */
module MessageBuffer {
  import opened Messages

  // ----- the buffer as a value -----

  /** The bytes from the write pointer round to just before it: oldest first. */
  function Rotated(b: seq<Byte>, wp: int): (r: seq<Byte>)
    requires 0 <= wp <= |b|
    ensures |r| == |b|
  {
    b[wp..] + b[..wp]
  }

  function Last(s: seq<Byte>, n: int): seq<Byte>
    requires 0 <= n <= |s|
  {
    s[|s| - n..]
  }

  function Min(a: int, b: int): int { if a < b then a else b }

  /** Copy `m` over `b` at position `at`. */
  function Over(b: seq<Byte>, at: int, m: seq<Byte>): (r: seq<Byte>)
    requires 0 <= at && at + |m| <= |b|
    ensures |r| == |b|
  {
    b[..at] + m + b[at + |m|..]
  }

  /** The two copies: from the write pointer to the end, the rest from the start. */
  function Stored(b: seq<Byte>, wp: int, m: seq<Byte>): (r: seq<Byte>)
    requires 0 <= wp < |b| && |m| <= |b|
    ensures |r| == |b|
  {
    var n := Min(|m|, |b| - wp);
    Over(Over(b, wp, m[..n]), 0, m[n..])
  }

  function Advanced(len: int, wp: int, n: int): int
    requires 0 <= wp < len && 0 <= n
  {
    if n >= len then wp else if wp + n >= len then wp + n - len else wp + n
  }

  /** The buffer in three parts, the middle one overwritten. */
  lemma OverRotates(pre: seq<Byte>, mid: seq<Byte>, post: seq<Byte>, m: seq<Byte>)
    requires |mid| == |m|
    ensures Rotated(pre + m + post, |pre| + |m|) == post + pre + m
    ensures Rotated(pre + mid + post, |pre|)[|m|..] == post + pre
  {
    var b', b := pre + m + post, pre + mid + post;
    assert b'[|pre| + |m|..] == post && b'[..|pre| + |m|] == pre + m;
    assert b[|pre|..] == mid + post && b[..|pre|] == pre;
    assert post + (pre + m) == post + pre + m;
    assert (mid + post + pre)[|m|..] == post + pre;
  }

  lemma StoredParts(pre: seq<Byte>, mid: seq<Byte>, post: seq<Byte>, m: seq<Byte>)
    requires |mid| == |m| && post != []
    ensures Stored(pre + mid + post, |pre|, m) == pre + m + post
  {
    var b := pre + mid + post;
    assert m[..|m|] == m && m[|m|..] == [];
    assert b[..|pre|] == pre && b[|pre| + |m|..] == post;
    assert Over(b, |pre|, m) == pre + m + post;
  }

  lemma StoredFits(b: seq<Byte>, wp: int, m: seq<Byte>)
    requires 0 <= wp < |b| && |m| < |b| - wp
    ensures Rotated(Stored(b, wp, m), wp + |m|) == Rotated(b, wp)[|m|..] + m
  {
    var pre, mid, post := b[..wp], b[wp..wp + |m|], b[wp + |m|..];
    assert b == pre + mid + post;
    StoredParts(pre, mid, post, m);
    OverRotates(pre, mid, post, m);
  }

  lemma StoredWraps(b: seq<Byte>, wp: int, m: seq<Byte>)
    requires 0 <= wp < |b| && |b| - wp <= |m| <= |b|
    ensures var b', k := Stored(b, wp, m), |m| - (|b| - wp);
            && b'[..k] == m[|b| - wp..] && b'[k..wp] == b[k..wp] && b'[wp..] == m[..|b| - wp]
            && Rotated(b, wp)[|m|..] == b[k..wp]
  {
    var n := |b| - wp;
    var k := |m| - n;
    assert Over(b, wp, m[..n]) == b[..wp] + m[..n];
    assert Stored(b, wp, m) == m[n..] + b[k..wp] + m[..n];
    assert Rotated(b, wp)[|m|..] == b[..wp][k..];
  }

  lemma JoinWrapped(b: seq<Byte>, b': seq<Byte>, wp: int, m: seq<Byte>, k: int)
    requires |b'| == |b| && 0 <= k <= wp < |b| && |m| == |b| - wp + k
    requires b'[..k] == m[|b| - wp..] && b'[k..wp] == b[k..wp] && b'[wp..] == m[..|b| - wp]
    ensures Rotated(b', k) == b[k..wp] + m && (k == wp ==> Rotated(b', wp) == m)
  {
    assert b'[k..] == b'[k..wp] + b'[wp..];
    assert m == m[..|b| - wp] + m[|b| - wp..];
  }

  /** Seen oldest first, storing a message drops as many old bytes as it adds new ones. */
  lemma StoredRotates(b: seq<Byte>, wp: int, m: seq<Byte>)
    requires 0 <= wp < |b| && |m| <= |b|
    ensures Rotated(Stored(b, wp, m), Advanced(|b|, wp, |m|)) == Rotated(b, wp)[|m|..] + m
  {
    if |m| < |b| - wp {
      StoredFits(b, wp, m);
    } else {
      StoredWraps(b, wp, m);
      JoinWrapped(b, Stored(b, wp, m), wp, m, |m| - (|b| - wp));
    }
  }

  lemma LastMore(h: seq<Byte>, m: seq<Byte>, n: int, len: int)
    requires 0 <= n <= |h| && (n == len || n == |h|) && n <= len && |m| <= len
    ensures var c := Min(len, n + |m|);
            Last(h + m, c) == Last(h, c - |m|) + m
  {
  }

  lemma LastTail(h: seq<Byte>, m: seq<Byte>, n: int)
    requires 0 <= n <= |m|
    ensures Last(h + m, n) == Last(m, n)
  {
  }

  // ----- reading it back in two pieces -----

  /** Two stretches of the buffer: start and length of each. */
  datatype Pieces = Pieces(p1: int, l1: int, p2: int, l2: int)

  predicate Within(p: Pieces, len: int) {
    0 <= p.p1 && 0 <= p.l1 && p.p1 + p.l1 <= len && 0 <= p.p2 && 0 <= p.l2 && p.p2 + p.l2 <= len
  }

  function Joined(b: seq<Byte>, p: Pieces): (r: seq<Byte>)
    requires Within(p, |b|)
    ensures |r| == p.l1 + p.l2
  {
    b[p.p1..p.p1 + p.l1] + b[p.p2..p.p2 + p.l2]
  }

  /** `mlog_dmesg_mbuf` (strict false) and `mlog_findmesgbuf` (strict true): they differ in
      whether a first piece that would be empty is dropped. */
  method Split(len: int, wp: int, cnt: int, strict: bool) returns (p: Pieces)
    requires 0 <= wp <= len && 0 <= cnt <= len
    ensures p == SplitOf(len, wp, cnt, strict)
  {
    var b1p, b1len, b2p, b2len := wp, len - wp, 0, wp;
    var skip := len - cnt;
    if (if strict then skip > b1len else skip >= b1len) {
      skip := skip - b1len;
      b1p := b2p;
      b2p := 0;
      b1len := b2len;
      b2len := 0;
    }
    if skip != 0 {
      b1p := b1p + skip;
      b1len := b1len - skip;
    }
    p := Pieces(b1p, b1len, b2p, b2len);
  }

  function SplitOf(len: int, wp: int, cnt: int, strict: bool): Pieces
    requires 0 <= wp <= len && 0 <= cnt <= len
  {
    if len - cnt > len - wp || (len - cnt == len - wp && !strict) then Pieces(wp - cnt, cnt, 0, 0)
    else Pieces(wp + len - cnt, cnt - wp, 0, wp)
  }

  /** Either way of splitting gives the newest `cnt` bytes, oldest first. */
  lemma SplitJoins(b: seq<Byte>, wp: int, cnt: int, strict: bool)
    requires 0 <= wp <= |b| && 0 <= cnt <= |b|
    ensures var p := SplitOf(|b|, wp, cnt, strict); Within(p, |b|) && Joined(b, p) == Last(Rotated(b, wp), cnt)
  {
    if cnt <= wp {
      assert Last(Rotated(b, wp), cnt) == b[wp - cnt..wp];
    } else {
      assert Last(Rotated(b, wp), cnt) == b[wp + |b| - cnt..] + b[..wp];
    }
  }

  /** The two splits have the same concatenation, and are the same split unless the bytes in
      use are exactly those before the write pointer. */
  lemma SplitsAgree(b: seq<Byte>, wp: int, cnt: int)
    requires 0 <= wp <= |b| && 0 <= cnt <= |b| && b != []
    ensures var p, q := SplitOf(|b|, wp, cnt, false), SplitOf(|b|, wp, cnt, true);
            && Within(p, |b|) && Within(q, |b|) && Joined(b, p) == Joined(b, q)
            && (p == q <==> cnt != wp)
  {
    SplitJoins(b, wp, cnt, false);
    SplitJoins(b, wp, cnt, true);
  }

  lemma SliceEnds(b: seq<Byte>, p: int, l: int, n: int)
    requires 0 <= p && 0 <= n <= l && p + l <= |b|
    ensures b[p..p + l][..l - n] == b[p..p + l - n] && b[p..p + l][n..] == b[p + n..p + l]
  {
  }

  lemma CutEnds(x: seq<Byte>, y: seq<Byte>, n: int)
    requires 0 <= n <= |x| + |y|
    ensures n <= |y| ==> (x + y)[..|x| + |y| - n] == x + y[..|y| - n]
    ensures n >= |y| ==> (x + y)[..|x| + |y| - n] == x[..|x| + |y| - n]
    ensures n <= |x| ==> (x + y)[n..] == x[n..] + y
    ensures n >= |x| ==> (x + y)[n..] == y[n - |x|..]
  {
  }

  /** Shortening the pieces at the new end: within the second, or into the first. */
  lemma CutNewSome(b: seq<Byte>, p: Pieces, n: int)
    requires Within(p, |b|) && 0 <= n <= p.l2
    ensures Joined(b, p)[..p.l1 + p.l2 - n] == Joined(b, p.(l2 := p.l2 - n))
  {
    CutEnds(b[p.p1..p.p1 + p.l1], b[p.p2..p.p2 + p.l2], n);
    SliceEnds(b, p.p2, p.l2, n);
  }

  lemma CutNewMore(b: seq<Byte>, p: Pieces, n: int)
    requires Within(p, |b|) && p.l2 <= n <= p.l1 + p.l2
    ensures Joined(b, p)[..p.l1 + p.l2 - n] == Joined(b, p.(l1 := p.l1 + p.l2 - n, l2 := 0))
  {
    CutEnds(b[p.p1..p.p1 + p.l1], b[p.p2..p.p2 + p.l2], n);
    SliceEnds(b, p.p1, p.l1, n - p.l2);
    assert b[p.p2..p.p2] == [];
  }

  /** Shortening them at the old end: within the first, or into the second. */
  lemma CutOldSome(b: seq<Byte>, p: Pieces, n: int)
    requires Within(p, |b|) && 0 <= n <= p.l1
    ensures Joined(b, p)[n..] == Joined(b, p.(p1 := p.p1 + n, l1 := p.l1 - n))
  {
    CutEnds(b[p.p1..p.p1 + p.l1], b[p.p2..p.p2 + p.l2], n);
    SliceEnds(b, p.p1, p.l1, n);
  }

  lemma CutOldMore(b: seq<Byte>, p: Pieces, n: int)
    requires Within(p, |b|) && p.l1 <= n <= p.l1 + p.l2
    ensures Joined(b, p)[n..] == Joined(b, p.(l1 := 0, p2 := p.p2 + n - p.l1, l2 := p.l2 - (n - p.l1)))
  {
    CutEnds(b[p.p1..p.p1 + p.l1], b[p.p2..p.p2 + p.l2], n);
    SliceEnds(b, p.p2, p.l2, n - p.l1);
    assert b[p.p1..p.p1] == [];
  }

  /** `mlog_mbcopy`, first half: pull back `offset` bytes from the newest. */
  method PullBack(ghost b: seq<Byte>, p: Pieces, offset: int) returns (q: Pieces)
    requires Within(p, |b|)
    ensures Within(q, |b|) && Joined(b, q) == Joined(b, p)[..p.l1 + p.l2 - Back(p.l1 + p.l2, offset)]
  {
    var b1l, b2l, off := p.l1, p.l2, offset;
    if off > 0 && b2l > 0 {
      if off > b2l {
        off := off - b2l;
        b2l := 0;
      } else {
        b2l := b2l - off;
        off := 0;
      }
    }
    if off > 0 && b1l > 0 {
      if off > b1l {
        b1l := 0;
      } else {
        b1l := b1l - off;
      }
    }
    q := p.(l1 := b1l, l2 := b2l);
    if Back(p.l1 + p.l2, offset) <= p.l2 {
      CutNewSome(b, p, Back(p.l1 + p.l2, offset));
    } else {
      CutNewMore(b, p, Back(p.l1 + p.l2, offset));
    }
  }

  /** `mlog_mbcopy`, second half: keep the last `len` bytes, or all there are. */
  method SkipOld(ghost b: seq<Byte>, p: Pieces, len: int) returns (q: Pieces, want: int)
    requires Within(p, |b|) && len >= 1
    ensures Within(q, |b|) && want == Min(len, p.l1 + p.l2)
    ensures Joined(b, q) == Last(Joined(b, p), want)
  {
    var b1, b1l, b2, b2l := p.p1, p.l1, p.p2, p.l2;
    var got := b1l + b2l;
    want := if len > got then got else len;
    var skip := if want < got then got - want else 0;
    if skip != 0 {
      if skip > b1l {
        skip := skip - b1l;
        b1l := 0;
      } else {
        b1l := b1l - skip;
        b1 := b1 + skip;
        skip := 0;
      }
      if skip > b2l {
        b2l := 0;
      } else {
        b2l := b2l - skip;
        b2 := b2 + skip;
      }
    }
    q := Pieces(b1, b1l, b2, b2l);
    if got - want <= p.l1 {
      CutOldSome(b, p, got - want);
    } else {
      CutOldMore(b, p, got - want);
    }
    assert q == (if got - want <= p.l1 then p.(p1 := b1, l1 := b1l) else p.(l1 := 0, p2 := b2, l2 := b2l));
  }

  /** How many of the newest bytes an offset passes over. */
  function Back(total: int, offset: int): int {
    if offset <= 0 then 0 else Min(offset, total)
  }

  /** What a reader sees of a history of which the buffer keeps `cnt` bytes: the last `len`
      bytes that end `offset` bytes before the newest. */
  function Window(history: seq<Byte>, cnt: int, offset: int, len: int): seq<Byte>
    requires 0 <= cnt <= |history| && len >= 1
  {
    var newest := |history| - Back(cnt, offset);
    history[newest - Min(len, cnt - Back(cnt, offset))..newest]
  }

  lemma WindowOfLast(h: seq<Byte>, cnt: int, offset: int, len: int)
    requires 0 <= cnt <= |h| && len >= 1
    ensures var s := Last(h, cnt)[..cnt - Back(cnt, offset)]; Window(h, cnt, offset, len) == Last(s, Min(len, |s|))
  {
  }

  // ----- the buffer in place -----

  class MsgBuf {
    var buf: array<Byte>
    var wp: int
    var cnt: int
    ghost var history: seq<Byte>

    ghost function State(): Ring
      reads this, buf
    {
      Ring(buf[..], wp, cnt)
    }

    ghost predicate Valid()
      reads this, buf
    {
      Holds(State(), buf.Length, history)
    }

    constructor (len: nat)
      requires len > 0
      ensures Valid() && fresh(buf) && buf.Length == len && history == []
    {
      buf := new Byte[len];
      wp, cnt, history := 0, 0, [];
    }

    /** memcpy into the buffer. */
    method Copy(at: int, m: seq<Byte>)
      requires 0 <= at && at + |m| <= buf.Length
      modifies buf
      ensures buf[..] == Over(old(buf[..]), at, m)
    {
      var i := 0;
      while i < |m|
        invariant 0 <= i <= |m|
        invariant buf[..] == old(buf[..at]) + m[..i] + old(buf[at + i..])
      {
        buf[at + i] := m[i];
        i := i + 1;
      }
      assert m[..i] == m;
    }

    /** The two copies of `vmlog`. */
    method Store(m: seq<Byte>)
      requires 0 <= wp < buf.Length && |m| <= buf.Length
      modifies buf
      ensures buf[..] == Stored(old(buf[..]), wp, m)
    {
      var ncpy := Min(|m|, buf.Length - wp);
      Copy(wp, m[..ncpy]);
      ghost var half := buf[..];
      if |m| - ncpy != 0 {
        Copy(0, m[ncpy..]);
      }
      assert m[ncpy..] == [] ==> Over(half, 0, m[ncpy..]) == half;
    }

    /** The header update of `vmlog`. */
    method Advance(tlen: nat)
      requires 0 <= wp < buf.Length && 0 <= cnt <= buf.Length
      modifies this`wp, this`cnt
      ensures wp == Advanced(buf.Length, old(wp), tlen) && cnt == Min(buf.Length, old(cnt) + tlen)
    {
      if tlen < buf.Length {
        wp := wp + tlen;
        if wp >= buf.Length {
          wp := wp - buf.Length;
        }
      }
      if cnt < buf.Length {
        cnt := cnt + tlen;
        if cnt > buf.Length {
          cnt := buf.Length;
        }
      }
    }

    /** Store and header update; a message that does not fit loses its head. */
    method LogBytes(msg: seq<Byte>)
      requires 0 <= wp < buf.Length && 0 <= cnt <= buf.Length
      modifies this`wp, this`cnt, buf
      ensures State() == Logged(old(State()), msg)
    {
      var m := if |msg| > buf.Length then msg[|msg| - buf.Length..] else msg;
      Store(m);
      Advance(|msg|);
    }

    /** The message buffer part of `vmlog`. */
    method Log(msg: seq<Byte>)
      requires Valid()
      modifies this, buf
      ensures Valid() && buf == old(buf) && history == old(history) + msg
      ensures State() == Logged(old(State()), msg)
    {
      LoggedHolds(State(), msg, history);
      LogBytes(msg);
      history := history + msg;
    }

    /** `mlog_dmesg_mbuf`: the contents in two pieces. */
    method Dmesg() returns (p: Pieces)
      requires Valid()
      ensures Within(p, buf.Length) && Joined(buf[..], p) == Last(history, Min(buf.Length, |history|))
    {
      SplitJoins(buf[..], wp, cnt, false);
      p := Split(buf.Length, wp, cnt, false);
    }

    /** `mlog_mbcopy`; a length below one is an error. */
    method MbCopy(offset: int, len: int) returns (out: Option<seq<Byte>>)
      requires Valid()
      ensures out == if len < 1 then None else Some(Window(history, Min(buf.Length, |history|), offset, len))
    {
      if len < 1 {
        return None;
      }
      var p := Dmesg();
      var r := CopyOut(buf[..], history, p, offset, len);
      out := Some(r);
    }
  }

  method CopyOut(b: seq<Byte>, ghost h: seq<Byte>, p: Pieces, offset: int, len: int) returns (out: seq<Byte>)
    requires Within(p, |b|) && p.l1 + p.l2 <= |h| && Joined(b, p) == Last(h, p.l1 + p.l2) && len >= 1
    ensures out == Window(h, p.l1 + p.l2, offset, len)
  {
    WindowOfLast(h, p.l1 + p.l2, offset, len);
    var q := PullBack(b, p, offset);
    var r, want := SkipOld(b, q, len);
    out := b[r.p1..r.p1 + r.l1] + b[r.p2..r.p2 + r.l2];
    assert out == Joined(b, r);
  }

  lemma DropThenAdd(r: seq<Byte>, m: seq<Byte>, c: int)
    requires |m| <= c <= |r|
    ensures Last(r[|m|..] + m, c) == Last(r, c - |m|) + m
  {
  }

  lemma LastOfLast(r: seq<Byte>, h: seq<Byte>, cnt: int, n: int)
    requires 0 <= n <= cnt <= |r| && cnt <= |h| && Last(r, cnt) == Last(h, cnt)
    ensures Last(r, n) == Last(h, n)
  {
    assert Last(r, n) == Last(Last(r, cnt), n) && Last(h, n) == Last(Last(h, cnt), n);
  }

  /** Storing the last bytes `m` of a message keeps the newest bytes of the history; `r` is
      the buffer seen oldest first. */
  lemma KeepsNewest(r: seq<Byte>, m: seq<Byte>, msg: seq<Byte>, h: seq<Byte>, cnt: int)
    requires cnt == Min(|r|, |h|) && Last(r, cnt) == Last(h, cnt)
    requires |m| == Min(|r|, |msg|) && m == Last(msg, |m|)
    ensures var c := Min(|r|, |h + msg|); Last(r[|m|..] + m, c) == Last(h + msg, c)
  {
    if |msg| >= |r| {
      KeepsAll(r, m, msg, h);
    } else {
      assert m == msg;
      DropThenAdd(r, m, Min(|r|, |h + m|));
      KeepsSome(r, m, h, cnt);
    }
  }

  lemma KeepsAll(r: seq<Byte>, m: seq<Byte>, msg: seq<Byte>, h: seq<Byte>)
    requires |m| == |r| <= |msg| && m == Last(msg, |m|)
    ensures Last(r[|m|..] + m, |m|) == Last(h + msg, |m|)
  {
    assert r[|m|..] == [] && [] + m == m && Last(m, |m|) == m;
    LastTail(h, msg, |m|);
  }

  lemma KeepsSome(r: seq<Byte>, m: seq<Byte>, h: seq<Byte>, cnt: int)
    requires cnt == Min(|r|, |h|) && Last(r, cnt) == Last(h, cnt) && |m| < |r|
    ensures var c := Min(|r|, |h + m|); Last(r, c - |m|) + m == Last(h + m, c)
  {
    var c := Min(|r|, |h + m|);
    LastMore(h, m, cnt, |r|);
    LastOfLast(r, h, cnt, c - |m|);
  }

  // ----- any sequence of messages -----

  datatype Ring = Ring(b: seq<Byte>, wp: int, cnt: int)

  /** One message: what `MsgBuf.Log` does to the buffer and its header. */
  function Logged(r: Ring, msg: seq<Byte>): Ring
    requires 0 <= r.wp < |r.b|
  {
    var m := if |msg| > |r.b| then msg[|msg| - |r.b|..] else msg;
    Ring(Stored(r.b, r.wp, m), Advanced(|r.b|, r.wp, |msg|), Min(|r.b|, r.cnt + |msg|))
  }

  function Concat(msgs: seq<seq<Byte>>): seq<Byte> {
    if msgs == [] then [] else Concat(msgs[..|msgs| - 1]) + msgs[|msgs| - 1]
  }

  ghost predicate Holds(r: Ring, len: int, h: seq<Byte>) {
    && |r.b| == len && 0 <= r.wp < len && r.cnt == Min(len, |h|)
    && Last(Rotated(r.b, r.wp), r.cnt) == Last(h, r.cnt)
  }

  /** Reading the buffer that way gives the newest bytes of the history. */
  ghost predicate Shows(r: Ring, h: seq<Byte>, strict: bool) {
    && 0 <= r.wp <= |r.b| && 0 <= r.cnt <= |r.b| && r.cnt <= |h|
    && var p := SplitOf(|r.b|, r.wp, r.cnt, strict); Within(p, |r.b|) && Joined(r.b, p) == Last(h, r.cnt)
  }

  lemma HoldsShows(r: Ring, h: seq<Byte>)
    requires Holds(r, |r.b|, h)
    ensures Shows(r, h, false) && Shows(r, h, true)
  {
    SplitJoins(r.b, r.wp, r.cnt, false);
    SplitJoins(r.b, r.wp, r.cnt, true);
  }

  /** `rs` are the states of a buffer, empty at first, while `msgs` are logged. */
  ghost predicate Logging(rs: seq<Ring>, msgs: seq<seq<Byte>>) {
    && |rs| == |msgs| + 1 && rs[0].cnt == 0 && 0 <= rs[0].wp < |rs[0].b|
    && (forall i :: 0 <= i < |msgs| && 0 <= rs[i].wp < |rs[i].b| ==> rs[i + 1] == Logged(rs[i], msgs[i]))
  }

  lemma HoldsNext(r: Ring, len: int, h: seq<Byte>, msg: seq<Byte>, r': Ring)
    requires Holds(r, len, h) && r' == Logged(r, msg)
    ensures Holds(r', len, h + msg)
  {
    LoggedHolds(r, msg, h);
  }

  lemma ConcatSnoc(msgs: seq<seq<Byte>>, n: nat)
    requires n < |msgs|
    ensures Concat(msgs[..n + 1]) == Concat(msgs[..n]) + msgs[n]
  {
    assert msgs[..n + 1][..n] == msgs[..n];
  }

  lemma {:induction false} HoldsAlong(rs: seq<Ring>, msgs: seq<seq<Byte>>, n: nat)
    requires Logging(rs, msgs) && n <= |msgs|
    ensures Holds(rs[n], |rs[0].b|, Concat(msgs[..n]))
  {
    if n > 0 {
      HoldsAlong(rs, msgs, n - 1);
      HoldsNext(rs[n - 1], |rs[0].b|, Concat(msgs[..n - 1]), msgs[n - 1], rs[n]);
      ConcatSnoc(msgs, n - 1);
    }
  }

  /** After any sequence of messages of any lengths, from any empty buffer, both ways of
      reading the buffer give the last min(len, total) bytes ever logged. */
  lemma KeepsHistory(rs: seq<Ring>, msgs: seq<seq<Byte>>, n: nat)
    requires Logging(rs, msgs) && n <= |msgs|
    ensures rs[n].cnt == Min(|rs[0].b|, |Concat(msgs[..n])|)
    ensures Shows(rs[n], Concat(msgs[..n]), false) && Shows(rs[n], Concat(msgs[..n]), true)
  {
    HoldsAlong(rs, msgs, n);
    HoldsShows(rs[n], Concat(msgs[..n]));
  }

  lemma LoggedRotates(r: Ring, msg: seq<Byte>, m: seq<Byte>)
    requires 0 <= r.wp < |r.b| && m == if |msg| > |r.b| then msg[|msg| - |r.b|..] else msg
    ensures var r' := Logged(r, msg);
            |r'.b| == |r.b| && 0 <= r'.wp < |r.b| && Rotated(r'.b, r'.wp) == Rotated(r.b, r.wp)[|m|..] + m
  {
    StoredRotates(r.b, r.wp, m);
  }

  lemma LoggedHolds(r: Ring, msg: seq<Byte>, h: seq<Byte>)
    requires Holds(r, |r.b|, h)
    ensures Holds(Logged(r, msg), |r.b|, h + msg)
  {
    var m := if |msg| > |r.b| then msg[|msg| - |r.b|..] else msg;
    LoggedRotates(r, msg, m);
    KeepsNewest(Rotated(r.b, r.wp), m, msg, h, r.cnt);
  }
}
