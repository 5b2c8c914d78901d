/**
 * The raw binary dump format: a headerless sequence of the elements' bytes in
 * the host's layout. The element type is seen through a `Codec`: its size in
 * bytes (`sizeof(T)`) and the reinterpretation of an element as bytes and back
 * (the `reinterpret_cast` the source performs).
 */
module Persistence {

  newtype Byte = b: int | 0 <= b < 256

  datatype Codec<!T> = Codec(width: nat, encode: T -> seq<Byte>, decode: seq<Byte> -> T)

  /**
   * A trivially copyable element type: every element occupies exactly
   * `width > 0` bytes and is recovered from them.
   */
  ghost predicate Lawful<T(!new)>(c: Codec<T>)
  {
    && c.width > 0
    && (forall x :: |c.encode(x)| == c.width)
    && (forall x :: c.decode(c.encode(x)) == x)
  }

  /** The bytes written for a run of elements: each element's bytes in order. */
  function Serialize<T>(c: Codec<T>, xs: seq<T>): seq<Byte>
  {
    if xs == [] then [] else c.encode(xs[0]) + Serialize(c, xs[1..])
  }

  /**
   * The elements read back from a file: one per whole `width`-byte chunk,
   * with a trailing partial chunk ignored.
   */
  function Deserialize<T>(c: Codec<T>, bytes: seq<Byte>): seq<T>
    requires c.width > 0
    decreases |bytes|
  {
    if |bytes| < c.width then []
    else [c.decode(bytes[..c.width])] + Deserialize(c, bytes[c.width..])
  }

  /** A dump of `n` elements is exactly `n * width` bytes long. */
  lemma {:induction false} SerializeLength<T(!new)>(c: Codec<T>, xs: seq<T>)
    requires Lawful(c)
    ensures |Serialize(c, xs)| == |xs| * c.width
  {
    if xs != [] {
      SerializeLength(c, xs[1..]);
      calc {
        |Serialize(c, xs)|;
        c.width + |xs[1..]| * c.width;
        (1 + |xs[1..]|) * c.width;
      }
    }
  }

  /** A file of `k` bytes loads as `k / width` elements: the remainder is dropped. */
  lemma {:induction false} DeserializeLength<T>(c: Codec<T>, bytes: seq<Byte>)
    requires c.width > 0
    ensures |Deserialize(c, bytes)| == |bytes| / c.width
  {
    if |bytes| >= c.width {
      DeserializeLength(c, bytes[c.width..]);
      DivStep(|bytes|, c.width);
    }
  }

  /** Taking one divisor off the dividend takes one off the quotient. */
  lemma DivStep(k: nat, w: nat)
    requires 0 < w <= k
    ensures (k - w) / w + 1 == k / w
  {
    var q, r := (k - w) / w, (k - w) % w;
    assert k - w == q * w + r;
    assert k == (q + 1) * w + r;
    DivUnique(k, w, q + 1, r);
  }

  /** The quotient is the only multiplier that leaves a remainder below the divisor. */
  lemma DivUnique(k: int, w: int, a: int, r: int)
    requires 0 < w && 0 <= r < w && k == a * w + r
    ensures k / w == a
  {
    var q := k / w;
    var d := a - q;
    assert k == q * w + k % w;
    assert d * w == k % w - r;
    assert d >= 1 ==> d * w >= w;
    assert d <= -1 ==> d * w <= -w;
  }

  /**
   * Loading a dump followed by fewer than `width` stray bytes gives back the
   * dumped elements.
   */
  lemma {:induction false} TrailingBytesDropped<T(!new)>(c: Codec<T>, xs: seq<T>, extra: seq<Byte>)
    requires Lawful(c) && |extra| < c.width
    ensures Deserialize(c, Serialize(c, xs) + extra) == xs
  {
    if xs == [] {
      assert Serialize(c, xs) + extra == extra;
    } else {
      var head, tail := c.encode(xs[0]), Serialize(c, xs[1..]);
      var bytes := Serialize(c, xs) + extra;
      assert bytes == head + (tail + extra);
      assert bytes[..c.width] == head;
      assert bytes[c.width..] == tail + extra;
      TrailingBytesDropped(c, xs[1..], extra);
      assert xs == [xs[0]] + xs[1..];
    }
  }

  /** Loading a dump gives back exactly the dumped elements. */
  lemma {:induction false} RoundTrip<T(!new)>(c: Codec<T>, xs: seq<T>)
    requires Lawful(c)
    ensures Deserialize(c, Serialize(c, xs)) == xs
  {
    TrailingBytesDropped(c, xs, []);
    assert Serialize(c, xs) + [] == Serialize(c, xs);
  }
}
