/** The input of the local protocol's MAC: every field preceded by its length in
    eight big-endian bytes, internal/cni/protocol_auth.go. */
module MacFraming {
  import opened Common

  type Byte = b: int | 0 <= b < 256
  type Bytes = seq<Byte>

  const LENGTH_BYTES := 8

  /** The bytes of "request" and "response". */
  const REQUEST: Bytes := [114, 101, 113, 117, 101, 115, 116]
  const RESPONSE: Bytes := [114, 101, 115, 112, 111, 110, 115, 101]

  function Power256(k: nat): nat {
    if k == 0 then 1 else 256 * Power256(k - 1)
  }

  /** The low k bytes of n, most significant first. */
  function BigEndian(n: nat, k: nat): (r: Bytes)
    ensures |r| == k
  {
    if k == 0 then [] else BigEndian(n / 256, k - 1) + [n % 256]
  }

  function Value(bytes: Bytes): nat {
    if bytes == [] then 0 else 256 * Value(bytes[..|bytes| - 1]) + bytes[|bytes| - 1]
  }

  lemma {:induction false} ValueOfBigEndian(n: nat, k: nat)
    requires n < Power256(k)
    ensures Value(BigEndian(n, k)) == n
  {
    if k > 0 {
      ValueOfBigEndian(n / 256, k - 1);
      var r := BigEndian(n, k);
      assert r[..|r| - 1] == BigEndian(n / 256, k - 1);
    }
  }

  /** A Go string always fits the 64-bit length. */
  predicate Encodable(fields: seq<Bytes>) {
    forall i :: 0 <= i < |fields| ==> |fields[i]| < Power256(LENGTH_BYTES)
  }

  function Frame(field: Bytes): Bytes {
    BigEndian(|field|, LENGTH_BYTES) + field
  }

  function Encode(fields: seq<Bytes>): Bytes {
    if fields == [] then [] else Frame(fields[0]) + Encode(fields[1..])
  }

  /** The loop that feeds the MAC. */
  method MacInput(fields: seq<Bytes>) returns (input: Bytes)
    ensures input == Encode(fields)
  {
    input := [];
    for i := 0 to |fields|
      invariant input + Encode(fields[i..]) == Encode(fields)
    {
      input := input + BigEndian(|fields[i]|, LENGTH_BYTES);
      input := input + fields[i];
      assert fields[i..][0] == fields[i] && fields[i..][1..] == fields[i + 1..];
    }
  }

  /** An independent reader of the framing. */
  function Decode(input: Bytes): Option<seq<Bytes>>
    decreases |input|
  {
    if input == [] then Some([])
    else if |input| < LENGTH_BYTES then None
    else
      var n := Value(input[..LENGTH_BYTES]);
      if |input| < LENGTH_BYTES + n then None
      else
        match Decode(input[LENGTH_BYTES + n..])
        case None => None
        case Some(rest) => Some([input[LENGTH_BYTES..LENGTH_BYTES + n]] + rest)
  }

  /** The reader recovers exactly the fields that were framed. */
  lemma {:induction false} DecodeEncode(fields: seq<Bytes>)
    requires Encodable(fields)
    ensures Decode(Encode(fields)) == Some(fields)
  {
    if fields != [] {
      var field, tail := fields[0], Encode(fields[1..]);
      var input := Encode(fields);
      DecodeEncode(fields[1..]);
      ValueOfBigEndian(|field|, LENGTH_BYTES);
      assert input == BigEndian(|field|, LENGTH_BYTES) + field + tail;
      assert input[..LENGTH_BYTES] == BigEndian(|field|, LENGTH_BYTES);
      assert input[LENGTH_BYTES..LENGTH_BYTES + |field|] == field;
      assert input[LENGTH_BYTES + |field|..] == tail;
      assert fields == [field] + fields[1..];
    }
  }

  lemma EncodeInjective(a: seq<Bytes>, b: seq<Bytes>)
    requires Encodable(a) && Encodable(b) && Encode(a) == Encode(b)
    ensures a == b
  {
    DecodeEncode(a);
    DecodeEncode(b);
  }

  /** What requestMAC and responseMAC authenticate. */
  datatype Message =
    | RequestMessage(version: Bytes, id: Bytes, issuedAt: Bytes, verb: Bytes, path: Bytes, bodyDigest: Bytes)
    | ResponseMessage(version: Bytes, id: Bytes, status: Bytes, bodyDigest: Bytes)

  function Fields(m: Message): seq<Bytes> {
    match m
    case RequestMessage(version, id, issuedAt, verb, path, bodyDigest) =>
      [REQUEST, version, id, issuedAt, verb, path, bodyDigest]
    case ResponseMessage(version, id, status, bodyDigest) => [RESPONSE, version, id, status, bodyDigest]
  }

  /** Messages with the same MAC input are the same message: no request passes
      for a response or for a request with any other field. */
  lemma MessagesUnambiguous(m: Message, m': Message)
    requires Encodable(Fields(m)) && Encodable(Fields(m')) && Encode(Fields(m)) == Encode(Fields(m'))
    ensures m == m'
  {
    EncodeInjective(Fields(m), Fields(m'));
    var f, f' := Fields(m), Fields(m');
    assert |f| == |f'| && f[1] == f'[1] && f[2] == f'[2] && f[3] == f'[3] && f[4] == f'[4];
    if m.RequestMessage? {
      assert f[5] == f'[5] && f[6] == f'[6];
    }
  }
}
