/** The foreign encoders the trainer calls: name-based UUIDs (version 5,
    section 4.3 of RFC 4122) and the gzip (RFC 1952) plus base64 (section 4 of
    RFC 4648) pair that produces a sample's transport form.

    Both are stand-ins. A name-based UUID is represented by the pair it is
    computed from, which makes it collision-free, as the trainer assumes of a
    SHA-1 digest. The codec is a fixed prefix; the rest of the model relies
    only on `UnpackPack` (decoding undoes encoding) and on `Unpack` failing
    for input that is not an encoded stream. */
module Codec {
  import opened Types

  datatype Uuid = NameBased(namespace: string, name: string)

  /** `uuidv5(name, namespace)`. */
  function KeyOf(namespace: string, name: string): (k: Uuid)
    ensures k.namespace == namespace && k.name == name
  {
    NameBased(namespace, name)
  }

  /** The same name under two namespaces never yields the same key, and two
      names under one namespace never collide. */
  lemma KeyOfInjective(ns1: string, n1: string, ns2: string, n2: string)
    ensures KeyOf(ns1, n1) == KeyOf(ns2, n2) <==> ns1 == ns2 && n1 == n2
  {
  }

  /** The leading characters every base64-encoded gzip stream starts with. */
  const Magic: string := "H4sI"

  /** `gzip(Buffer.from(s)).toString('base64')`. */
  function Pack(s: string): (t: string)
    ensures |t| == |Magic| + |s|
  {
    Magic + s
  }

  /** `ungzip(Buffer.from(t, 'base64')).toString()`, which throws for input
      that is not a gzip stream. */
  function Unpack(t: string): (r: Option<string>)
    ensures r.Some? <==> |t| >= |Magic| && t[..|Magic|] == Magic
    ensures r.Some? ==> t == Magic + r.value
  {
    if |t| >= |Magic| && t[..|Magic|] == Magic then Some(t[|Magic|..]) else None
  }

  lemma UnpackPack(s: string)
    ensures Unpack(Pack(s)) == Some(s)
  {
    assert Pack(s)[..|Magic|] == Magic;
    assert Pack(s)[|Magic|..] == s;
  }

  lemma PackInjective(s1: string, s2: string)
    ensures Pack(s1) == Pack(s2) ==> s1 == s2
  {
    if Pack(s1) == Pack(s2) {
      UnpackPack(s1);
      UnpackPack(s2);
    }
  }
}
