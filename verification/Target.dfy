/** Which rank a particle goes to, and the layout of a write on the wire
    (`shuffle_target`, `shuffle_write`, `shuffle_handle`). */
module Targets {
  import opened Messages

  type Bytes = seq<Byte>

  /** `SHUFFLE_Recv_radix` as configured. */
  function Radix(env: int): (n: nat)
    ensures n <= 8 && (0 <= env <= 8 ==> n == env) && (env > 8 ==> n == 8) && (env < 0 ==> n == 0)
  {
    if env > 8 then 8 else if env > 0 then env else 0
  }

  /** `receiver_rate`: one rank in that many is a receiver. */
  function Rate(radix: nat): (r: nat)
    ensures r >= 1
  {
    if radix == 0 then 1 else 2 * Rate(radix - 1)
  }

  /** `x & receiver_mask`: the mask has as many low bits clear as the radix says. */
  function Masked(x: nat, radix: nat): nat
    decreases radix
  {
    if radix == 0 then x else 2 * Masked(x / 2, radix - 1)
  }

  /** `shuffle_is_rank_receiver`. */
  predicate IsReceiver(radix: nat, rank: nat) {
    Rate(radix) == 1 || Masked(rank, radix) == rank
  }

  /** `shuffle_target`: `hash` is what the hash or the placement function gives for the file
      name at the front of the buffer. */
  function Target(radix: nat, world: nat, me: nat, hash: nat): nat {
    Masked(if world != 1 then hash else me, radix)
  }

  lemma {:induction false} MaskedTwice(x: nat, radix: nat)
    ensures Masked(x, radix) <= x && Masked(Masked(x, radix), radix) == Masked(x, radix)
    decreases radix
  {
    if radix > 0 {
      MaskedTwice(x / 2, radix - 1);
      assert 2 * Masked(x / 2, radix - 1) / 2 == Masked(x / 2, radix - 1);
    }
  }

  lemma {:induction false} HalfRest(x: nat, r: nat)
    requires r >= 1
    ensures x - x % (2 * r) == 2 * (x / 2 - (x / 2) % r)
  {
    var h, q := x / 2, (x / 2) / r;
    assert h == q * r + h % r;
    assert x == 2 * r * q + (2 * (h % r) + x % 2);
    Remainder(x, 2 * r, q, 2 * (h % r) + x % 2);
  }

  lemma Remainder(x: int, m: int, q: int, r: int)
    requires 0 <= r < m && x == m * q + r
    ensures x % m == r
  {
    var d := x / m - q;
    assert m * d == r - x % m;
    Multiple(m, d);
  }

  lemma Multiple(m: int, d: int)
    requires m >= 0
    ensures d >= 1 ==> m * d >= m
    ensures d <= -1 ==> m * d <= -m
  {
    if d >= 1 {
      assert m * d == m + m * (d - 1);
    } else if d <= -1 {
      assert m * d == -m + m * (d + 1);
    }
  }

  /** Masking rounds down to a multiple of the receiver rate. */
  lemma {:induction false} MaskedRounds(x: nat, radix: nat)
    ensures Masked(x, radix) == x - x % Rate(radix)
    decreases radix
  {
    if radix > 0 {
      MaskedRounds(x / 2, radix - 1);
      HalfRest(x, Rate(radix - 1));
    }
  }

  /** The receivers are the multiples of the rate. */
  lemma ReceiverIff(radix: nat, rank: nat)
    ensures IsReceiver(radix, rank) <==> rank % Rate(radix) == 0
  {
    MaskedRounds(rank, radix);
  }

  /** Where a particle goes: the hash, rounded down to the next receiver; without receivers to
      choose from, the hash itself.  A job of one rank keeps its particles. */
  lemma TargetIs(radix: nat, world: nat, me: nat, hash: nat)
    ensures world != 1 ==> Target(radix, world, me, hash) == hash - hash % Rate(radix)
    ensures world == 1 ==> Target(radix, world, me, hash) == me - me % Rate(radix)
    ensures radix == 0 && world != 1 ==> Target(radix, world, me, hash) == hash
  {
    MaskedRounds(hash, radix);
    MaskedRounds(me, radix);
  }

  /** The target is a rank of the job and a receiver, whatever the radix; and every receiver is
      the target of its own number. */
  lemma TargetIsReceiver(env: int, world: nat, me: nat, hash: nat)
    requires me < world && hash < world
    ensures var radix := Radix(env);
            var t := Target(radix, world, me, hash);
            && t < world && IsReceiver(radix, t) && Masked(t, radix) == t
            && (IsReceiver(radix, hash) && world != 1 ==> t == hash)
  {
    var radix := Radix(env);
    MaskedTwice(if world != 1 then hash else me, radix);
    TargetIs(radix, world, me, hash);
    ReceiverIff(radix, hash);
  }

  /** `shuffle_write`: name, a zero byte, data, and zero padding. */
  function Layout(name: Bytes, data: Bytes, extra: nat): Bytes {
    name + [0] + data + seq(extra, i => 0)
  }

  /** `shuffle_handle`: None is the "unexpected incoming shuffle request size" abort. */
  function Parse(buf: Bytes, nameLen: nat, dataLen: nat, extra: nat): Option<(Bytes, Bytes)> {
    if |buf| != extra + dataLen + nameLen + 1 then None
    else Some((buf[..nameLen], buf[nameLen + 1..nameLen + 1 + dataLen]))
  }

  /** Only a message of exactly the configured size is taken. */
  lemma ParseIff(buf: Bytes, nameLen: nat, dataLen: nat, extra: nat)
    ensures Parse(buf, nameLen, dataLen, extra).Some? <==> |buf| == nameLen + 1 + dataLen + extra
  {
  }

  /** A write arrives with the name and the data it was issued with, and every rank computes
      the same target for it from the message as the sender did: the receiver's
      "misdirected" check cannot fire. */
  lemma WriteArrives(name: Bytes, data: Bytes, extra: nat, radix: nat, world: nat, a: nat, b: nat, place: Bytes -> nat)
    requires a < world && b < world
    ensures var buf := Layout(name, data, extra);
            && |buf| == |name| + 1 + |data| + extra && buf[..|name|] == name && buf[|name|] == 0
            && buf[|name| + 1..|name| + 1 + |data|] == data && (forall i :: |buf| - extra <= i < |buf| ==> buf[i] == 0)
            && Parse(buf, |name|, |data|, extra) == Some((name, data))
            && Target(radix, world, a, place(name)) == Target(radix, world, b, place(buf[..|name|]))
  {
    var buf := Layout(name, data, extra);
    assert buf[..|name|] == name && buf[|name| + 1..|name| + 1 + |data|] == data;
  }
}
