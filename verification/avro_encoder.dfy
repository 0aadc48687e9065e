/**
 * The subject+version Avro framing (`Avro\Serializer\Encoders\SchemaSubjectAndVersion`):
 *
 *   magic byte | subject length (pack 'N') | subject bytes | version (pack 'N') | Avro body
 *
 * The schema registry and the Avro binary writer are foreign code: the
 * registry is an object that answers from a resolving function and logs its
 * lookups, and the writer is a function parameter producing opaque bytes.
 */
module AvroEncoders {
  import opened Wrappers
  import opened Pack

  /**
   * `SchemaFormats::MAGIC_BYTE_SUBJECT_VERSION`. SchemaFormats.php is not part
   * of this model, so the tag's value is left unspecified: everything below
   * holds whatever byte it is.
   */
  const MAGIC_BYTE_SUBJECT_VERSION: uint8

  /** The three things a frame carries. */
  datatype Framed = Framed(subject: seq<uint8>, version: int, body: seq<uint8>)

  /** The exact bytes `encode` returns for a subject, the version the registry gave and the Avro body. */
  function Frame(subject: seq<uint8>, version: int, body: seq<uint8>): (r: seq<uint8>)
    ensures |r| == 9 + |subject| + |body|
    ensures r[0] == MAGIC_BYTE_SUBJECT_VERSION
    ensures r[1..5] == PackN(|subject|)
    ensures r[5..5 + |subject|] == subject
    ensures r[5 + |subject|..9 + |subject|] == PackN(version)
    ensures r[9 + |subject|..] == body
  {
    [MAGIC_BYTE_SUBJECT_VERSION] + PackN(|subject|) + subject + PackN(version) + body
  }

  /** Reading a frame back: the tag, the length, that many subject bytes, the version, the rest. */
  function Unframe(bytes: seq<uint8>): (r: Option<Framed>)
    ensures r.Some? ==> 0 <= r.value.version < TWO_32 && |r.value.subject| < TWO_32
  {
    if |bytes| < 5 || bytes[0] != MAGIC_BYTE_SUBJECT_VERSION then None
    else
      var n := UnpackN(bytes[1..5]);
      if |bytes| < 9 + n then None
      else Some(Framed(bytes[5..5 + n], UnpackN(bytes[5 + n..9 + n]), bytes[9 + n..]))
  }

  /** Header round trip: a subject and a version that fit in 32 bits come back out, and the body is the rest. */
  lemma UnframeFrame(subject: seq<uint8>, version: int, body: seq<uint8>)
    requires |subject| < TWO_32 && 0 <= version < TWO_32
    ensures Unframe(Frame(subject, version, body)) == Some(Framed(subject, version, body))
  {
    var r := Frame(subject, version, body);
    var n := |subject|;
    UnpackPackN(n);
    UnpackPackN(version);
    assert UnpackN(r[1..5]) == n;
    assert UnpackN(r[5 + n..9 + n]) == version;
  }

  /** The other way round: whatever reads as a frame is exactly the frame of what was read. */
  lemma FrameUnframe(bytes: seq<uint8>)
    requires Unframe(bytes).Some?
    ensures var f := Unframe(bytes).value; Frame(f.subject, f.version, f.body) == bytes
  {
    var f := Unframe(bytes).value;
    var n := UnpackN(bytes[1..5]);
    PackUnpackN(bytes[1..5]);
    PackUnpackN(bytes[5 + n..9 + n]);
    assert |f.subject| == n;
    var r := Frame(f.subject, f.version, f.body);
    assert r == bytes[..1] + bytes[1..5] + bytes[5..5 + n] + bytes[5 + n..9 + n] + bytes[9 + n..];
    assert bytes == bytes[..1] + bytes[1..5] + bytes[5..5 + n] + bytes[5 + n..9 + n] + bytes[9 + n..];
  }

  /**
   * The registry client, seen from the encoder: `GetSchemaVersion` answers from
   * `resolve` (None when the registry cannot resolve the subject, which the PHP
   * client reports by throwing) and logs each lookup.
   */
  class SchemaRegistry<S> {
    const resolve: (seq<uint8>, S) -> Option<int>
    var lookups: seq<(seq<uint8>, S)>

    constructor (resolve: (seq<uint8>, S) -> Option<int>)
      ensures this.resolve == resolve && lookups == []
    {
      this.resolve := resolve;
      lookups := [];
    }

    method GetSchemaVersion(subject: seq<uint8>, schema: S) returns (version: Option<int>)
      modifies this
      ensures lookups == old(lookups) + [(subject, schema)]
      ensures version == resolve(subject, schema)
    {
      lookups := lookups + [(subject, schema)];
      version := resolve(subject, schema);
    }
  }

  class SchemaSubjectAndVersion<S, M> {
    const registry: SchemaRegistry<S>
    /** The Avro binary writer: the body written for a message under a schema. */
    const write: (S, M) -> seq<uint8>

    constructor (registry: SchemaRegistry<S>, write: (S, M) -> seq<uint8>)
      ensures this.registry == registry && this.write == write
    {
      this.registry := registry;
      this.write := write;
    }

    /**
     * `encode`: one registry lookup with (subject, schema), then the header
     * written byte by byte into a growing buffer, then the Avro body. A failed
     * lookup aborts the encoding (None).
     */
    method Encode(schema: S, message: M, subject: seq<uint8>) returns (r: Option<seq<uint8>>)
      requires |subject| >= 1
      modifies registry
      ensures registry.lookups == old(registry.lookups) + [(subject, schema)]
      ensures registry.resolve(subject, schema).None? ==> r.None?
      ensures registry.resolve(subject, schema).Some? ==>
        r == Some(Frame(subject, registry.resolve(subject, schema).value, write(schema, message)))
    {
      var version := registry.GetSchemaVersion(subject, schema);
      if version.None? {
        return None;
      }
      var io: seq<uint8> := [MAGIC_BYTE_SUBJECT_VERSION];
      io := io + PackN(|subject|);
      for i := 0 to |subject|
        invariant io == [MAGIC_BYTE_SUBJECT_VERSION] + PackN(|subject|) + subject[..i]
      {
        io := io + [subject[i]];
      }
      assert subject[..|subject|] == subject;
      io := io + PackN(version.value);
      io := io + write(schema, message);
      return Some(io);
    }
  }

  /** The worked example: subject "orders-value", version 7, Avro body 0x01 0x02. */
  lemma OrdersValueExample()
    ensures Frame([0x6f, 0x72, 0x64, 0x65, 0x72, 0x73, 0x2d, 0x76, 0x61, 0x6c, 0x75, 0x65], 7, [0x01, 0x02])
      == [MAGIC_BYTE_SUBJECT_VERSION, 0x00, 0x00, 0x00, 0x0c,
          0x6f, 0x72, 0x64, 0x65, 0x72, 0x73, 0x2d, 0x76, 0x61, 0x6c, 0x75, 0x65,
          0x00, 0x00, 0x00, 0x07, 0x01, 0x02]
  {
  }
}
