/** The view of SCALE encoding that the error codecs rely on. */
module Scale {
  import opened Base

  /** A type's `Encode` and `Decode` implementations. `decode` reads a value from the front of its
      input, as `Decode::decode(&mut &bytes[..])` does, and fails with `None`. */
  datatype Codec<!T> = Codec(encode: T -> seq<byte>, decode: seq<byte> -> Option<T>)

  /** Decoding reads exactly one encoding off the front of its input and ignores whatever follows,
      so a zero-padded encoding still decodes to the encoded value. */
  ghost predicate PrefixDecoding<T(!new)>(c: Codec<T>) {
    forall x: T, rest: seq<byte> :: c.decode(c.encode(x) + rest) == Some(x)
  }

  lemma DecodesPadded<T(!new)>(c: Codec<T>, x: T, padded: seq<byte>, n: nat)
    requires PrefixDecoding(c)
    requires |c.encode(x)| <= n && padded == Resize(c.encode(x), n)
    ensures c.decode(padded) == Some(x)
  {
    var e := c.encode(x);
    assert padded == e + Zeros(n - |e|);
  }
}
