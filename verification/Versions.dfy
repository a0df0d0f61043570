/** The byte vector a responder registers: its packed version records, one after the other. */
module Versions {
  datatype VersionFields = VersionFields(major: bv8, minor: bv8, update: bv8, alpha: bv8)

  const RECORD_SIZE := 4

  function VersionBytes(v: VersionFields): seq<bv8> {
    [v.major, v.minor, v.update, v.alpha]
  }

  /** sizeof(VersionFields) * n bytes copied from the packed array. */
  function Encode(versions: seq<VersionFields>): seq<bv8> {
    seq(RECORD_SIZE * |versions|, i requires 0 <= i < RECORD_SIZE * |versions| => VersionBytes(versions[i / 4])[i % 4])
  }

  /** A receiver's reading of the vector. */
  function Decode(bytes: seq<bv8>): seq<VersionFields> {
    if |bytes| < RECORD_SIZE then []
    else [VersionFields(bytes[0], bytes[1], bytes[2], bytes[3])] + Decode(bytes[RECORD_SIZE..])
  }

  lemma EncodeConcat(a: seq<VersionFields>, b: seq<VersionFields>)
    ensures |Encode(a)| == RECORD_SIZE * |a|
    ensures Encode(a + b) == Encode(a) + Encode(b)
  {
    forall i | 0 <= i < RECORD_SIZE * |a + b|
      ensures Encode(a + b)[i] == (Encode(a) + Encode(b))[i]
    {
      if i >= RECORD_SIZE * |a| {
        assert (i - RECORD_SIZE * |a|) / 4 == i / 4 - |a|;
        assert (i - RECORD_SIZE * |a|) % 4 == i % 4;
      }
    }
  }

  lemma EncodeOne(v: VersionFields)
    ensures Encode([v]) == VersionBytes(v)
  {
  }

  /** No version is lost or reordered on the way to the service. */
  lemma {:induction false} VersionRoundTrip(versions: seq<VersionFields>)
    ensures Decode(Encode(versions)) == versions
  {
    if versions != [] {
      var rest := versions[1..];
      assert versions == [versions[0]] + rest;
      EncodeConcat([versions[0]], rest);
      EncodeOne(versions[0]);
      assert Encode(versions)[RECORD_SIZE..] == Encode(rest);
      VersionRoundTrip(rest);
    }
  }

  /** Every vector of whole records is the encoding of what it decodes to. */
  lemma {:induction false} BytesRoundTrip(bytes: seq<bv8>)
    requires |bytes| % RECORD_SIZE == 0
    ensures Encode(Decode(bytes)) == bytes
  {
    if bytes != [] {
      var head := VersionFields(bytes[0], bytes[1], bytes[2], bytes[3]);
      var rest := bytes[RECORD_SIZE..];
      BytesRoundTrip(rest);
      EncodeConcat([head], Decode(rest));
      EncodeOne(head);
      assert bytes == VersionBytes(head) + rest;
    }
  }
}
