/** The C `int` as it crosses the companion socket: a 32-bit two's-complement
    value sent as its four bytes in host order. Every Android ABI is
    little-endian, so host order is little-endian here. */
module Int32Codec {

  newtype byte = x: int | 0 <= x < 0x100

  const INT32_MIN: int := -0x8000_0000
  const INT32_MAX: int := 0x7FFF_FFFF

  predicate InInt32Range(n: int) {
    INT32_MIN <= n <= INT32_MAX
  }

  /** The unsigned value of the 32-bit pattern of `n` (two's complement). */
  function Unsigned(n: int): (u: int)
    requires InInt32Range(n)
    ensures 0 <= u < 0x1_0000_0000
    ensures u == n || u == n + 0x1_0000_0000
  {
    if n < 0 then n + 0x1_0000_0000 else n
  }

  /** The signed integer a 32-bit unsigned pattern denotes (two's complement). */
  function Signed(u: int): (n: int)
    requires 0 <= u < 0x1_0000_0000
    ensures InInt32Range(n)
    ensures Unsigned(n) == u
  {
    if u < 0x8000_0000 then u else u - 0x1_0000_0000
  }

  /** What `send(fd, &size, sizeof(size), 0)` puts on the wire: the four
      bytes of the pattern of `n`, least significant first. */
  function Encode(n: int): (b: seq<byte>)
    requires InInt32Range(n)
    ensures |b| == 4
  {
    var u := Unsigned(n);
    [(u % 0x100) as byte, (u / 0x100 % 0x100) as byte,
     (u / 0x1_0000 % 0x100) as byte, (u / 0x100_0000) as byte]
  }

  /** What `recv(fd, &size, sizeof(size), 0)` makes of four bytes. */
  function Decode(b: seq<byte>): (n: int)
    requires |b| == 4
    ensures InInt32Range(n)
  {
    Signed(b[0] as int + 0x100 * (b[1] as int + 0x100 * (b[2] as int + 0x100 * b[3] as int)))
  }

  /** The receiver reads back exactly the integer the sender wrote. */
  lemma DecodeEncode(n: int)
    requires InInt32Range(n)
    ensures Decode(Encode(n)) == n
  {
    var u := Unsigned(n);
    var b := Encode(n);
    var q1, q2 := u / 0x100, u / 0x1_0000;
    assert u == u % 0x100 + 0x100 * q1;
    assert q1 == q1 % 0x100 + 0x100 * (q1 / 0x100);
    assert q1 / 0x100 == q2;
    assert q2 == q2 % 0x100 + 0x100 * (q2 / 0x100);
    assert q2 / 0x100 == u / 0x100_0000;
    assert b[0] as int + 0x100 * (b[1] as int + 0x100 * (b[2] as int + 0x100 * b[3] as int)) == u;
  }

  /** Every 4-byte header is the encoding of the integer it decodes to. */
  lemma EncodeDecode(b: seq<byte>)
    requires |b| == 4
    ensures Encode(Decode(b)) == b
  {
    var u := b[0] as int + 0x100 * (b[1] as int + 0x100 * (b[2] as int + 0x100 * b[3] as int));
    assert Unsigned(Decode(b)) == u;
    var e := Encode(Decode(b));
    assert u % 0x100 == b[0] as int;
    assert u / 0x100 == b[1] as int + 0x100 * (b[2] as int + 0x100 * b[3] as int);
    assert u / 0x1_0000 == b[2] as int + 0x100 * b[3] as int;
    assert u / 0x100_0000 == b[3] as int;
    assert e[0] == b[0] && e[1] == b[1] && e[2] == b[2] && e[3] == b[3];
  }
}
