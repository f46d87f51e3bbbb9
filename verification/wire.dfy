/**
 * The field encoding the message classes write with QDataStream, modelled
 * as a self-delimiting byte encoding: every field is a variable-length
 * unsigned integer (seven bits per byte, high bit = "more follows") or a
 * byte array prefixed by its length in that form. Qt's exact layout is not
 * reproduced; what the messages rely on is that each field can be read
 * back from the front of a stream and that reading stops at its end.
 *
 * Reading follows QDataStream's failure behaviour: once a read runs past
 * the end of the data the stream is no longer ok, the failed read and
 * every later read yield the type's default value (0, false, empty).
 */
module Wire {
  import opened Common

  // ---------------------------------------------------------------------
  // Unsigned integers
  // ---------------------------------------------------------------------

  function EncodeNat(n: nat): (r: Bytes)
    ensures |r| > 0
    decreases n
  {
    if n < 128 then [n as byte]
    else [(128 + n % 128) as byte] + EncodeNat(n / 128)
  }

  function DecodeNat(s: Bytes): Option<(nat, Bytes)>
    decreases |s|
  {
    if |s| == 0 then None
    else if s[0] < 128 then Some((s[0] as nat, s[1..]))
    else match DecodeNat(s[1..])
      case None => None
      case Some((k, rest)) => Some(((s[0] as nat - 128) + 128 * k, rest))
  }

  /** An encoded integer is read back from the front of any stream. */
  lemma {:induction false} DecodeEncodeNat(n: nat, rest: Bytes)
    ensures DecodeNat(EncodeNat(n) + rest) == Some((n, rest))
    decreases n
  {
    var s := EncodeNat(n) + rest;
    if n >= 128 {
      DecodeEncodeNat(n / 128, rest);
      assert s[1..] == EncodeNat(n / 128) + rest;
    } else {
      assert s[1..] == rest;
    }
  }

  // ---------------------------------------------------------------------
  // Reading state
  // ---------------------------------------------------------------------

  /** What is left of the stream, and whether every read so far succeeded. */
  datatype Reader = Reader(rest: Bytes, ok: bool)

  /** A value read and the stream after it. */
  datatype Read<T> = Read(value: T, next: Reader)

  /** A stream positioned at the start of some bytes. */
  function Open(data: Bytes): Reader
  {
    Reader(data, true)
  }

  /** The state after a read ran past the end: nothing more can be read. */
  const Failed: Reader := Reader([], false)

  function ReadNat(r: Reader): (x: Read<nat>)
    ensures !r.ok ==> x == Read(0, r)
  {
    if !r.ok then Read(0, r)
    else match DecodeNat(r.rest)
      case None => Read(0, Failed)
      case Some((n, t)) => Read(n, Reader(t, true))
  }

  lemma ReadNatEncoded(n: nat, rest: Bytes)
    ensures ReadNat(Open(EncodeNat(n) + rest)) == Read(n, Open(rest))
  {
    DecodeEncodeNat(n, rest);
  }

  // ---------------------------------------------------------------------
  // Fields built on integers
  // ---------------------------------------------------------------------

  /** A qint64, such as an Init timestamp. */
  newtype int64 = x: int | -0x8000_0000_0000_0000 <= x < 0x8000_0000_0000_0000

  const Int64Offset: int := 0x8000_0000_0000_0000

  function EncodeInt64(t: int64): Bytes
  {
    EncodeNat((t as int + Int64Offset) as nat)
  }

  function ReadInt64(r: Reader): (x: Read<int64>)
    ensures !r.ok ==> x == Read(0, r)
  {
    var n := ReadNat(r);
    if !n.next.ok then Read(0, n.next)
    else if n.value < 2 * Int64Offset then Read((n.value - Int64Offset) as int64, n.next)
    else Read(0, Failed)
  }

  lemma ReadInt64Encoded(t: int64, rest: Bytes)
    ensures ReadInt64(Open(EncodeInt64(t) + rest)) == Read(t, Open(rest))
  {
    ReadNatEncoded((t as int + Int64Offset) as nat, rest);
  }

  /** A bool is one byte; any non-zero byte reads as true. */
  function EncodeBool(b: bool): Bytes
  {
    if b then [1] else [0]
  }

  function ReadBool(r: Reader): (x: Read<bool>)
    ensures !r.ok ==> x == Read(false, r)
  {
    if !r.ok then Read(false, r)
    else if |r.rest| == 0 then Read(false, Failed)
    else Read(r.rest[0] != 0, Reader(r.rest[1..], true))
  }

  lemma ReadBoolEncoded(b: bool, rest: Bytes)
    ensures ReadBool(Open(EncodeBool(b) + rest)) == Read(b, Open(rest))
  {
    assert (EncodeBool(b) + rest)[1..] == rest;
  }

  /** A Connections::Id. */
  function EncodeId(id: Id): Bytes
  {
    EncodeNat(id)
  }

  function ReadId(r: Reader): (x: Read<Id>)
    ensures !r.ok ==> x == Read(0, r)
  {
    ReadNat(r)
  }

  // ---------------------------------------------------------------------
  // Byte arrays and lists of byte arrays
  // ---------------------------------------------------------------------

  /** A QByteArray: its length, then its bytes. */
  function EncodeBytes(b: Bytes): (r: Bytes)
    ensures |r| > |b|
  {
    EncodeNat(|b|) + b
  }

  function ReadBytes(r: Reader): (x: Read<Bytes>)
    ensures !r.ok ==> x == Read([], r)
    ensures x.next.ok ==> |x.next.rest| < |r.rest|
  {
    if !r.ok then Read([], r)
    else match DecodeNat(r.rest)
      case None => Read([], Failed)
      case Some((n, t)) =>
        if n <= |t| then
          DecodeShrinks(r.rest);
          Read(t[..n], Reader(t[n..], true))
        else Read([], Failed)
  }

  lemma {:induction false} DecodeShrinks(s: Bytes)
    ensures DecodeNat(s).Some? ==> |DecodeNat(s).value.1| < |s|
    decreases |s|
  {
    if |s| > 0 && s[0] >= 128 {
      DecodeShrinks(s[1..]);
    }
  }

  lemma ReadBytesEncoded(b: Bytes, rest: Bytes)
    ensures ReadBytes(Open(EncodeBytes(b) + rest)) == Read(b, Open(rest))
  {
    var s := EncodeBytes(b) + rest;
    assert s == EncodeNat(|b|) + (b + rest);
    DecodeEncodeNat(|b|, b + rest);
    assert (b + rest)[..|b|] == b;
    assert (b + rest)[|b|..] == rest;
  }

  /** The concatenated encodings of the elements of a list. */
  function EncodeItems(l: seq<Bytes>): Bytes
  {
    if |l| == 0 then [] else EncodeBytes(l[0]) + EncodeItems(l[1..])
  }

  /** A QList<QByteArray>: its count, then each element. */
  function EncodeList(l: seq<Bytes>): Bytes
  {
    EncodeNat(|l|) + EncodeItems(l)
  }

  /**
   * Reads n byte arrays. As QDataStream does for a QList, a failure part
   * way through yields the empty list.
   */
  function ReadItems(r: Reader, n: nat): (x: Read<seq<Bytes>>)
    ensures !x.next.ok ==> x.value == []
    ensures x.next.ok ==> |x.value| == n
    decreases n
  {
    if n == 0 then Read([], r)
    else
      var first := ReadBytes(r);
      if !first.next.ok then Read([], Failed)
      else
        var others := ReadItems(first.next, n - 1);
        if !others.next.ok then Read([], Failed)
        else Read([first.value] + others.value, others.next)
  }

  function ReadList(r: Reader): (x: Read<seq<Bytes>>)
    ensures !r.ok ==> x.value == [] && !x.next.ok
  {
    var count := ReadNat(r);
    if !count.next.ok then Read([], Failed)
    else ReadItems(count.next, count.value)
  }

  lemma {:induction false} ReadItemsEncoded(l: seq<Bytes>, rest: Bytes)
    ensures ReadItems(Open(EncodeItems(l) + rest), |l|) == Read(l, Open(rest))
  {
    if |l| > 0 {
      var tail := EncodeItems(l[1..]) + rest;
      assert EncodeItems(l) + rest == EncodeBytes(l[0]) + tail;
      ReadBytesEncoded(l[0], tail);
      ReadItemsEncoded(l[1..], rest);
      assert [l[0]] + l[1..] == l;
    }
  }

  lemma ReadListEncoded(l: seq<Bytes>, rest: Bytes)
    ensures ReadList(Open(EncodeList(l) + rest)) == Read(l, Open(rest))
  {
    assert EncodeList(l) + rest == EncodeNat(|l|) + (EncodeItems(l) + rest);
    ReadNatEncoded(|l|, EncodeItems(l) + rest);
    ReadItemsEncoded(l, rest);
  }

  // ---------------------------------------------------------------------
  // The two-field envelope every signed packet uses
  // ---------------------------------------------------------------------

  /** `stream << payload << signature`: the wire form of a signed packet. */
  function Envelope(payload: Bytes, signature: Bytes): Bytes
  {
    EncodeBytes(payload) + EncodeBytes(signature)
  }

  /** `stream >> payload >> signature`. */
  function OpenEnvelope(packet: Bytes): (r: (Bytes, Bytes))
  {
    var p := ReadBytes(Open(packet));
    var s := ReadBytes(p.next);
    (p.value, s.value)
  }

  /** An envelope opens to the payload and signature it was built from. */
  lemma OpenEnvelopeRoundTrip(payload: Bytes, signature: Bytes)
    ensures OpenEnvelope(Envelope(payload, signature)) == (payload, signature)
  {
    var packet := Envelope(payload, signature);
    assert packet == EncodeBytes(payload) + (EncodeBytes(signature) + []);
    ReadBytesEncoded(payload, EncodeBytes(signature) + []);
    ReadBytesEncoded(signature, []);
  }

  /**
   * The envelope is injective: different (payload, signature) pairs never
   * produce the same packet, so comparing packets compares both parts.
   */
  lemma EnvelopeInjective(p1: Bytes, s1: Bytes, p2: Bytes, s2: Bytes)
    requires Envelope(p1, s1) == Envelope(p2, s2)
    ensures p1 == p2 && s1 == s2
  {
    OpenEnvelopeRoundTrip(p1, s1);
    OpenEnvelopeRoundTrip(p2, s2);
  }
}
