/** The companion protocol: the privileged companion writes the payload's
    size as a C `int` and then the payload bytes; the app side reads the size,
    resizes its buffer to it and reads the bytes into the buffer. */
module CompanionChannel {
  import opened Int32Codec

  /** The bytes `companion` writes on the socket for a payload artifact:
      `send` of the size, then `send` of the bytes. The artifact stands for
      the bytes of the payload file; its length is what `tellg` reports. */
  function Companion(artifact: seq<byte>): (wire: seq<byte>)
    requires |artifact| <= INT32_MAX
    ensures |wire| == 4 + |artifact|
    ensures Decode(wire[..4]) == |artifact|
    ensures wire[4..] == artifact
  {
    DecodeEncode(|artifact|);
    Encode(|artifact|) + artifact
  }

  /** A reply the receiver can process: the four header bytes arrived and
      the declared size is not negative. */
  predicate WellFormedReply(reply: seq<byte>) {
    |reply| >= 4 && Decode(reply[..4]) >= 0
  }

  /** The size the sender declared in the header. */
  function DeclaredSize(reply: seq<byte>): (n: nat)
    requires WellFormedReply(reply)
    ensures n <= INT32_MAX
  {
    Decode(reply[..4])
  }

  /** The number of payload bytes the second `recv` copies into the buffer:
      what arrived after the header, but never more than the declared size. */
  function Delivered(reply: seq<byte>): (k: nat)
    requires WellFormedReply(reply)
    ensures k <= DeclaredSize(reply) && 4 + k <= |reply|
    ensures k == DeclaredSize(reply) || 4 + k == |reply|
  {
    if |reply| - 4 < DeclaredSize(reply) then |reply| - 4 else DeclaredSize(reply)
  }

  /** `std::vector::resize`: keeps the first `n` old elements and
      value-initialises (zeroes) any new ones. */
  function Resize(buffer: seq<byte>, n: nat): (r: seq<byte>)
    ensures |r| == n
    ensures forall i :: 0 <= i < n ==> r[i] == if i < |buffer| then buffer[i] else 0
  {
    if n <= |buffer| then buffer[..n] else buffer + seq(n - |buffer|, _ => 0)
  }

  /** A `recv` into the start of the buffer: the first `|data|` bytes are
      replaced and the rest is left as it was. */
  function Overwrite(buffer: seq<byte>, data: seq<byte>): (r: seq<byte>)
    requires |data| <= |buffer|
    ensures |r| == |buffer|
    ensures forall i :: 0 <= i < |r| ==> r[i] == if i < |data| then data[i] else buffer[i]
  {
    data + buffer[|data|..]
  }

  /** What the receiver's buffer holds after `recv` of the size,
      `resize(size)` and `recv` of the data, given the buffer it started
      with and the bytes the two `recv` calls obtained. The return value of
      the second `recv` is ignored by the receiver, so a short read leaves
      the tail of the resized buffer as `resize` made it. */
  function Receive(buffer: seq<byte>, reply: seq<byte>): (r: seq<byte>)
    requires WellFormedReply(reply)
    ensures |r| == DeclaredSize(reply)
    ensures forall i :: 0 <= i < |r| ==>
      r[i] == if i < Delivered(reply) then reply[4 + i]
              else if i < |buffer| then buffer[i] else 0
  {
    Overwrite(Resize(buffer, DeclaredSize(reply)), reply[4..4 + Delivered(reply)])
  }

  /** Framing round trip: whatever the buffer held before, receiving a full
      frame the companion wrote for `artifact` leaves exactly `artifact` in it. */
  lemma FrameRoundTrip(buffer: seq<byte>, artifact: seq<byte>)
    requires |artifact| <= INT32_MAX
    ensures WellFormedReply(Companion(artifact))
    ensures Receive(buffer, Companion(artifact)) == artifact
  {
    var wire := Companion(artifact);
    assert wire[..4] == Encode(|artifact|);
    assert DeclaredSize(wire) == |artifact|;
    assert Delivered(wire) == |artifact|;
    var r := Receive(buffer, wire);
    forall i | 0 <= i < |artifact|
      ensures r[i] == artifact[i]
    {
      assert wire[4 + i] == wire[4..][i];
    }
  }

  /** A short read: when fewer bytes arrive than were declared, the buffer
      that started empty still has the declared size, begins with what
      arrived and is zero after it. */
  lemma ShortReadZeroFills(reply: seq<byte>)
    requires WellFormedReply(reply)
    requires |reply| - 4 < DeclaredSize(reply)
    ensures Receive([], reply) == reply[4..] + seq(DeclaredSize(reply) - (|reply| - 4), _ => 0)
  {
    var r := Receive([], reply);
    var z := seq(DeclaredSize(reply) - (|reply| - 4), _ => 0 as byte);
    forall i | 0 <= i < |r|
      ensures r[i] == (reply[4..] + z)[i]
    {
      if i < |reply| - 4 {
        assert reply[4..][i] == reply[4 + i];
      }
    }
  }
}
