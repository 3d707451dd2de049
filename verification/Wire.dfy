/** Machine integers and big-endian byte strings, as the wire format uses them. */
module Wire {

  datatype Option<+T> = None | Some(value: T)

  type byte = x: nat | x < 0x100
  type u16 = x: nat | x < 0x1_0000
  type u32 = x: nat | x < 0x1_0000_0000
  type bytes = seq<byte>

  const I32_MAX: int := 0x7FFF_FFFF

  /** Rust's `as i32`: keep the low 32 bits and read them as two's complement. */
  function AsI32(x: int): (r: int)
    ensures -0x8000_0000 <= r <= I32_MAX
    ensures -0x8000_0000 <= x <= I32_MAX ==> r == x
  {
    var low := x % 0x1_0000_0000;
    if low > I32_MAX then low - 0x1_0000_0000 else low
  }

  function Min(a: int, b: int): int {
    if a <= b then a else b
  }

  function Max(a: int, b: int): int {
    if a >= b then a else b
  }

  /** `u32 & 0x7FFF_FFFF`. */
  function Low31(v: u32): (r: u32)
    ensures r <= 0x7FFF_FFFF
    ensures v <= 0x7FFF_FFFF ==> r == v
  {
    v % 0x8000_0000
  }

  /** `u16::to_be_bytes`. */
  function BE16(v: u16): (s: bytes)
    ensures |s| == 2
  {
    [v / 0x100, v % 0x100]
  }

  /** `u32::to_be_bytes`. */
  function BE32(v: u32): (s: bytes)
    ensures |s| == 4
  {
    BE16(v / 0x1_0000) + BE16(v % 0x1_0000)
  }

  /** `u16::from_be_bytes` of the two bytes at `at`. */
  function ReadU16(s: bytes, at: nat): u16
    requires at + 2 <= |s|
  {
    s[at] as int * 0x100 + s[at + 1]
  }

  /** `u32::from_be_bytes` of the four bytes at `at`. */
  function ReadU32(s: bytes, at: nat): u32
    requires at + 4 <= |s|
  {
    ReadU16(s, at) as int * 0x1_0000 + ReadU16(s, at + 2)
  }

  lemma ReadBE16(pre: bytes, v: u16, post: bytes)
    ensures ReadU16(pre + BE16(v) + post, |pre|) == v
  {
    var s := pre + BE16(v) + post;
    assert s[|pre|] == BE16(v)[0] && s[|pre| + 1] == BE16(v)[1];
  }

  lemma ReadBE32(pre: bytes, v: u32, post: bytes)
    ensures ReadU32(pre + BE32(v) + post, |pre|) == v
  {
    var high, low := v / 0x1_0000, v % 0x1_0000;
    var s := pre + BE32(v) + post;
    assert s == pre + BE16(high) + (BE16(low) + post);
    ReadBE16(pre, high, BE16(low) + post);
    assert s == (pre + BE16(high)) + BE16(low) + post;
    ReadBE16(pre + BE16(high), low, post);
  }

  lemma ReadWord(v: u32)
    ensures ReadU32(BE32(v), 0) == v
  {
    ReadBE32([], v, []);
    assert [] + BE32(v) + [] == BE32(v);
  }

  lemma MulMono(a: int, b: int, m: nat)
    requires a <= b
    ensures a * m <= b * m
  {
  }

  lemma Assoc<T>(a: seq<T>, b: seq<T>, c: seq<T>)
    ensures (a + b) + c == a + (b + c)
  {
  }

  /** `buf.resize(len + n, 0)`: `n` zero bytes. */
  function Zeros(n: nat): (s: bytes)
    ensures |s| == n
  {
    seq(n, _ => 0)
  }
}
