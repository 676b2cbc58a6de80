/** The framing of N-N shuffle messages: every request is one length byte followed by that
    many bytes. */
module Framing {
  import opened Messages

  type Bytes = seq<Byte>

  /** `req_sz` is an unsigned char. */
  predicate Short(r: Bytes) { |r| < 256 }

  predicate AllShort(rs: seq<Bytes>) {
    forall i :: 0 <= i < |rs| ==> Short(rs[i])
  }

  function Frame(r: Bytes): (b: Bytes)
    requires Short(r)
    ensures |b| == |r| + 1
  {
    [|r| as Byte] + r
  }

  /** The layout of a frame: the length in one byte, then the request. */
  lemma FrameLayout(r: Bytes)
    requires Short(r)
    ensures Frame(r)[0] as int == |r| && Frame(r)[1..] == r
  {
  }

  function Frames(rs: seq<Bytes>): Bytes
    requires AllShort(rs)
  {
    if rs == [] then [] else Frames(rs[..|rs| - 1]) + Frame(rs[|rs| - 1])
  }

  /** The decode loop of the write handler; None is the "premature end of msg" abort. */
  function Unframe(b: Bytes): Option<seq<Bytes>>
    decreases |b|
  {
    if b == [] then Some([])
    else
      var n := b[0] as int;
      if |b| - 1 < n then None
      else
        var rest := Unframe(b[n + 1..]);
        if rest.None? then None else Some([b[1..n + 1]] + rest.value)
  }

  lemma {:induction false} FramesFront(r: Bytes, rs: seq<Bytes>)
    requires Short(r) && AllShort(rs)
    ensures AllShort([r] + rs) && Frames([r] + rs) == Frame(r) + Frames(rs)
  {
    if rs == [] {
      assert [r] + rs == [r] && [r][..0] == [];
    } else {
      var n := |rs| - 1;
      FramesFront(r, rs[..n]);
      assert ([r] + rs)[..|rs|] == [r] + rs[..n];
      assert Frame(r) + (Frames(rs[..n]) + Frame(rs[n])) == Frame(r) + Frames(rs[..n]) + Frame(rs[n]);
    }
  }

  /** Framing round trip: requests of up to 255 bytes, the empty one included. */
  lemma {:induction false} UnframeFrames(rs: seq<Bytes>)
    requires AllShort(rs)
    ensures Unframe(Frames(rs)) == Some(rs)
    decreases |rs|
  {
    if rs != [] {
      var r, rest := rs[0], rs[1..];
      assert rs == [r] + rest;
      FramesFront(r, rest);
      var b := Frames(rs);
      assert b[0] as int == |r| && b[1..|r| + 1] == r && b[|r| + 1..] == Frames(rest);
      UnframeFrames(rest);
    }
  }

  /** The first frame of a buffer and the rest of it. */
  lemma FirstFrame(b: Bytes, n: int)
    requires b != [] && n == b[0] as int && n <= |b| - 1
    ensures Short(b[1..n + 1]) && Frame(b[1..n + 1]) + b[n + 1..] == b
  {
    assert b[1..n + 1] + b[n + 1..] == b[1..];
    assert [b[0]] + b[1..] == b;
    assert [b[0]] + b[1..n + 1] + b[n + 1..] == [b[0]] + (b[1..n + 1] + b[n + 1..]);
  }

  /** Whatever decodes is the framing of what it decodes to: no two messages share bytes. */
  lemma {:induction false} FramesUnframe(b: Bytes)
    requires Unframe(b).Some?
    ensures AllShort(Unframe(b).value) && Frames(Unframe(b).value) == b
    decreases |b|
  {
    if b != [] {
      var n := b[0] as int;
      FirstFrame(b, n);
      FramesUnframe(b[n + 1..]);
      FramesFront(b[1..n + 1], Unframe(b[n + 1..]).value);
    }
  }

  /** What the handler executes: requests in order, up to and including the first one whose
      execution fails. */
  function Executed(rs: seq<Bytes>, handle: Bytes -> int): (done: seq<Bytes>)
    ensures done <= rs
  {
    if rs == [] then [] else if handle(rs[0]) != 0 then [rs[0]] else [rs[0]] + Executed(rs[1..], handle)
  }

  predicate Fails(rs: seq<Bytes>, handle: Bytes -> int) {
    exists i :: 0 <= i < |rs| && handle(rs[i]) != 0
  }

  lemma {:induction false} ExecutedAll(rs: seq<Bytes>, handle: Bytes -> int)
    ensures !Fails(rs, handle) ==> Executed(rs, handle) == rs
  {
    if rs != [] {
      ExecutedAll(rs[1..], handle);
      assert rs == [rs[0]] + rs[1..];
      assert Fails(rs[1..], handle) ==> Fails(rs, handle) by {
        if i :| 0 <= i < |rs[1..]| && handle(rs[1..][i]) != 0 {
          assert rs[i + 1] == rs[1..][i];
        }
      }
    }
  }

  lemma {:induction false} ExecutedPrefix(done: seq<Bytes>, rest: seq<Bytes>, handle: Bytes -> int)
    requires !Fails(done, handle)
    ensures Executed(done + rest, handle) == done + Executed(rest, handle)
  {
    if done == [] {
      assert done + rest == rest;
    } else {
      assert handle(done[0]) == 0;
      assert forall i :: 0 <= i < |done[1..]| ==> done[1..][i] == done[i + 1];
      ExecutedPrefix(done[1..], rest, handle);
      assert (done + rest)[1..] == done[1..] + rest;
      assert done == [done[0]] + done[1..];
    }
  }

  /** The whole message, given that `done` was decoded and `rest` is what remains. */
  function Whole(done: seq<Bytes>, rest: Option<seq<Bytes>>): Option<seq<Bytes>> {
    if rest.None? then None else Some(done + rest.value)
  }

  lemma WholeTurn(done: seq<Bytes>, r: Bytes, rest: Option<seq<Bytes>>)
    ensures Whole(done, Whole([r], rest)) == Whole(done + [r], rest) && Whole([], rest) == rest
    ensures Whole(done, Some([])) == Some(done)
  {
    if rest.Some? {
      assert done + ([r] + rest.value) == done + [r] + rest.value && [] + rest.value == rest.value;
    }
    assert done + [] == done;
  }

  lemma StopsAtFailure(done: seq<Bytes>, r: Bytes, rest: seq<Bytes>, handle: Bytes -> int)
    requires !Fails(done, handle) && handle(r) != 0
    ensures Executed(done + [r] + rest, handle) == done + [r]
  {
    ExecutedPrefix(done, [r] + rest, handle);
    assert done + ([r] + rest) == done + [r] + rest;
  }

  /** `nn_shuffler_write_rpc_handler`: decode and execute until the input is used up or a
      write fails.  `aborted` is a premature end of the message. */
  method Execute(msg: Bytes, handle: Bytes -> int) returns (done: seq<Bytes>, rv: int, aborted: bool)
    ensures Unframe(msg).Some? ==> !aborted && done == Executed(Unframe(msg).value, handle)
    ensures !aborted && rv == 0 ==> Unframe(msg) == Some(done)
    ensures aborted ==> Unframe(msg).None?
    ensures !aborted ==> (rv != 0 <==> Fails(done, handle))
    ensures rv != 0 ==> done != [] && rv == handle(done[|done| - 1]) && !Fails(done[..|done| - 1], handle)
  {
    var input := msg;
    done, rv, aborted := [], 0, false;
    WholeTurn([], [], Unframe(msg));
    while input != []
      invariant rv == 0 && !aborted
      invariant Unframe(msg) == Whole(done, Unframe(input))
      invariant !Fails(done, handle)
      decreases |input|
    {
      var req_sz := input[0] as int;
      if |input| - 1 < req_sz {
        aborted := true;
        return;
      }
      var req := input[1..req_sz + 1];
      ghost var rest := Unframe(input[req_sz + 1..]);
      assert Unframe(input) == Whole([req], rest);
      WholeTurn(done, req, rest);
      rv := handle(req);
      if rv != 0 {
        if rest.Some? {
          StopsAtFailure(done, req, rest.value, handle);
        }
        assert (done + [req])[|done|] == req && (done + [req])[..|done|] == done;
        done := done + [req];
        return;
      }
      done := done + [req];
      input := input[req_sz + 1..];
    }
    WholeTurn(done, [], None);
    ExecutedAll(done, handle);
  }
}
