/** The byte strings that queries and their results are signed over. */
module Signing {
  import opened Words

  const UUID_V4_SIZE := 36
  const SHA3_256_SIZE := 32

  // ----- little-endian words -----

  function Pow256(k: nat): nat { if k == 0 then 1 else 256 * Pow256(k - 1) }

  function ToLe(n: nat, k: nat): (bytes: seq<u8>)
    ensures |bytes| == k
  {
    if k == 0 then [] else [n % 256] + ToLe(n / 256, k - 1)
  }

  function FromLe(bytes: seq<u8>): nat {
    if bytes == [] then 0 else bytes[0] + 256 * FromLe(bytes[1..])
  }

  /** The low byte comes first: dropping it drops the low eight bits. */
  lemma {:induction false} LowByteFirst(n: nat, k: nat)
    requires k >= 1 && n < Pow256(k)
    ensures ToLe(n, k)[0] == n % 256 && FromLe(ToLe(n, k)[1..]) == n / 256
  {
    assert n / 256 < Pow256(k - 1);
    LeRoundTrip(n / 256, k - 1);
    assert ToLe(n, k)[1..] == ToLe(n / 256, k - 1);
  }

  lemma {:induction false} LeRoundTrip(n: nat, k: nat)
    requires n < Pow256(k)
    ensures FromLe(ToLe(n, k)) == n
  {
    if k > 0 {
      assert n / 256 < Pow256(k - 1);
      LeRoundTrip(n / 256, k - 1);
      assert ToLe(n, k)[1..] == ToLe(n / 256, k - 1);
    }
  }

  lemma {:induction false} LeInverse(bytes: seq<u8>)
    ensures FromLe(bytes) < Pow256(|bytes|)
    ensures ToLe(FromLe(bytes), |bytes|) == bytes
  {
    if bytes != [] {
      LeInverse(bytes[1..]);
      LowByte(bytes[0], FromLe(bytes[1..]));
      assert bytes == [bytes[0]] + bytes[1..];
    }
  }

  lemma LowByte(low: u8, rest: nat)
    ensures (low + 256 * rest) % 256 == low && (low + 256 * rest) / 256 == rest
  {
  }

  lemma WordSizes(k: nat)
    ensures k == 4 ==> Pow256(k) == U32_MAX as int + 1
    ensures k == 8 ==> Pow256(k) == U64_MAX as int + 1
  {
  }

  // ----- the signed part of a query -----

  /** A peer id's bytes are a multihash: code, digest length, digest, each of the first two one byte. */
  datatype PeerId = PeerId(code: u8, digest: seq<u8>)

  predicate ValidPeer(p: PeerId) { p.code < 128 && |p.digest| < 128 }

  function PeerBytes(p: PeerId): seq<u8>
    requires ValidPeer(p)
  {
    [p.code, |p.digest|] + p.digest
  }

  datatype Query = Query(
    queryId: seq<u8>,
    dataset: seq<u8>,
    requestId: seq<u8>,
    query: seq<u8>,
    blockRange: Option<(u64, u64)>,
    chunkId: seq<u8>,
    timestampMs: u64,
    compression: int,
    queryEngine: int,
    outputFormat: int,
    chunkVersion: u32)

  /** What the payload carries: no request id, compression or chunk version. */
  datatype Signed = Signed(
    queryId: seq<u8>,
    worker: PeerId,
    timestampMs: u64,
    dataset: seq<u8>,
    query: seq<u8>,
    chunkId: seq<u8>,
    tail: Tail)

  datatype Tail = Tail(blockRange: Option<(u64, u64)>, queryEngine: int, outputFormat: int)

  function SignedPart(q: Query, worker: PeerId): Signed {
    Signed(q.queryId, worker, q.timestampMs, q.dataset, q.query, q.chunkId,
           Tail(q.blockRange, q.queryEngine, q.outputFormat))
  }

  /** The conversions to u32 that follow the check of the query id must succeed. */
  predicate Sizes(q: Query) {
    |q.queryId| == UUID_V4_SIZE ==> |q.dataset| <= U32_MAX && |q.query| <= U32_MAX && |q.chunkId| <= U32_MAX
  }

  predicate IsByte(n: int) { 0 <= n <= 255 }

  predicate Encodable(s: Signed) {
    && |s.queryId| == UUID_V4_SIZE && ValidPeer(s.worker)
    && |s.dataset| <= U32_MAX && |s.query| <= U32_MAX && |s.chunkId| <= U32_MAX
    && IsByte(s.tail.queryEngine) && IsByte(s.tail.outputFormat)
  }

  function Field(bytes: seq<u8>): seq<u8> { ToLe(|bytes|, 4) + bytes }

  function RangeBytes(range: Option<(u64, u64)>): (bytes: seq<u8>)
    ensures |bytes| == if range.Some? then 16 else 0
  {
    match range
    case None => []
    case Some((begin, end)) => ToLe(begin, 8) + ToLe(end, 8)
  }

  /** Range, then engine and format only if either is set, marked by a 0 byte when there is no range. */
  function TailBytes(t: Tail): seq<u8>
    requires IsByte(t.queryEngine) && IsByte(t.outputFormat)
  {
    RangeBytes(t.blockRange)
    + (if t.queryEngine == 0 && t.outputFormat == 0 then []
       else (if t.blockRange.None? then [0] else []) + [t.queryEngine, t.outputFormat])
  }

  function Encode(s: Signed): seq<u8>
    requires Encodable(s)
  {
    s.queryId + (PeerBytes(s.worker) + (ToLe(s.timestampMs, 8)
    + (Field(s.dataset) + (Field(s.query) + (Field(s.chunkId) + TailBytes(s.tail))))))
  }

  /** The payload to sign; `None` for a malformed query id or an enum value beyond a byte. */
  function Payload(q: Query, worker: PeerId): Option<seq<u8>>
    requires Sizes(q) && ValidPeer(worker)
  {
    if Encodable(SignedPart(q, worker)) then Some(Encode(SignedPart(q, worker))) else None
  }

  /** What precedes the tail, in the order it is appended. */
  function Head(q: Query, worker: PeerId): seq<u8>
    requires ValidPeer(worker)
  {
    q.queryId + PeerBytes(worker) + ToLe(q.timestampMs, 8) + ToLe(|q.dataset|, 4) + q.dataset
    + ToLe(|q.query|, 4) + q.query + ToLe(|q.chunkId|, 4) + q.chunkId
  }

  /** `msg_to_sign`: appends field after field. */
  method MsgToSign(q: Query, worker: PeerId) returns (r: Option<seq<u8>>)
    requires Sizes(q) && ValidPeer(worker)
    ensures r == Payload(q, worker)
  {
    if |q.queryId| != UUID_V4_SIZE {
      return None;
    }
    var msg: seq<u8> := q.queryId;
    msg := msg + PeerBytes(worker);
    msg := msg + ToLe(q.timestampMs, 8);
    msg := msg + ToLe(|q.dataset|, 4);
    msg := msg + q.dataset;
    msg := msg + ToLe(|q.query|, 4);
    msg := msg + q.query;
    msg := msg + ToLe(|q.chunkId|, 4);
    msg := msg + q.chunkId;
    assert msg == Head(q, worker);
    ghost var head := msg;
    if q.blockRange.Some? {
      msg := msg + ToLe(q.blockRange.value.0, 8);
      msg := msg + ToLe(q.blockRange.value.1, 8);
    }
    assert msg == head + RangeBytes(q.blockRange);
    if q.queryEngine != 0 || q.outputFormat != 0 {
      if q.blockRange.None? {
        msg := msg + [0];
      }
      if !IsByte(q.queryEngine) {
        return None;
      }
      msg := msg + [q.queryEngine];
      if !IsByte(q.outputFormat) {
        return None;
      }
      msg := msg + [q.outputFormat];
    }
    ghost var s := SignedPart(q, worker);
    assert msg == head + TailBytes(s.tail);
    HeadAssociates(q, worker);
    return Some(msg);
  }

  lemma {:induction false} HeadAssociates(q: Query, worker: PeerId)
    requires Encodable(SignedPart(q, worker))
    ensures Head(q, worker) + TailBytes(SignedPart(q, worker).tail) == Encode(SignedPart(q, worker))
  {
    var tail := TailBytes(SignedPart(q, worker).tail);
    var m3 := Field(q.chunkId) + tail;
    var m2 := Field(q.query) + m3;
    var m1 := Field(q.dataset) + m2;
    var h0 := q.queryId + PeerBytes(worker) + ToLe(q.timestampMs, 8);
    var h1 := h0 + ToLe(|q.dataset|, 4) + q.dataset;
    var h2 := h1 + ToLe(|q.query|, 4) + q.query;
    AppendField(h2, q.chunkId, tail);
    AppendField(h1, q.query, m3);
    AppendField(h0, q.dataset, m2);
    Reassociate(q.queryId, PeerBytes(worker), ToLe(q.timestampMs, 8), m1);
  }

  lemma Reassociate(a: seq<u8>, b: seq<u8>, c: seq<u8>, d: seq<u8>)
    ensures a + b + c + d == a + (b + (c + d))
  {
  }

  lemma {:induction false} AppendField(head: seq<u8>, bytes: seq<u8>, rest: seq<u8>)
    ensures head + ToLe(|bytes|, 4) + bytes + rest == head + (Field(bytes) + rest)
  {
    Regroup(head, ToLe(|bytes|, 4), bytes, rest);
  }

  lemma Regroup(a: seq<u8>, b: seq<u8>, c: seq<u8>, d: seq<u8>)
    ensures a + b + c + d == a + ((b + c) + d)
  {
  }

  // ----- a decoder -----

  /** Cuts `n` bytes off the front. */
  function Take(msg: seq<u8>, n: nat): Option<(seq<u8>, seq<u8>)> {
    if |msg| < n then None else Some((msg[..n], msg[n..]))
  }

  function TakeField(msg: seq<u8>): Option<(seq<u8>, seq<u8>)> {
    match Take(msg, 4)
    case None => None
    case Some((len, rest)) => Take(rest, FromLe(len))
  }

  function TakePeer(msg: seq<u8>): Option<(PeerId, seq<u8>)> {
    if |msg| < 2 || msg[0] >= 128 || msg[1] >= 128 then None else
    match Take(msg[2..], msg[1])
    case None => None
    case Some((digest, rest)) => Some((PeerId(msg[0], digest), rest))
  }

  function RangeOf(bytes: seq<u8>): Option<(u64, u64)>
    requires |bytes| == 16
  {
    WordOf(bytes[..8]);
    WordOf(bytes[8..]);
    Some((FromLe(bytes[..8]), FromLe(bytes[8..])))
  }

  lemma {:induction false} WordOf(bytes: seq<u8>)
    requires |bytes| == 8
    ensures FromLe(bytes) <= U64_MAX
  {
    LeInverse(bytes);
    WordSizes(|bytes|);
  }

  /** The four shapes a tail can have differ in length. */
  function DecodeTail(bytes: seq<u8>): Option<Tail> {
    if |bytes| == 0 then Some(Tail(None, 0, 0))
    else if |bytes| == 16 then Some(Tail(RangeOf(bytes), 0, 0))
    else if |bytes| == 3 && bytes[0] == 0 && (bytes[1] != 0 || bytes[2] != 0) then Some(Tail(None, bytes[1], bytes[2]))
    else if |bytes| == 18 && (bytes[16] != 0 || bytes[17] != 0)
    then Some(Tail(RangeOf(bytes[..16]), bytes[16], bytes[17]))
    else None
  }

  function Decode(msg: seq<u8>): Option<Signed> {
    match Take(msg, UUID_V4_SIZE)
    case None => None
    case Some((queryId, m1)) =>
      match TakePeer(m1)
      case None => None
      case Some((worker, m2)) =>
        match Take(m2, 8)
        case None => None
        case Some((ts, m3)) => DecodeRest(queryId, worker, FromLe(ts), m3)
  }

  function DecodeRest(queryId: seq<u8>, worker: PeerId, timestamp: nat, msg: seq<u8>): Option<Signed> {
    match TakeField(msg)
    case None => None
    case Some((dataset, m1)) =>
      match TakeField(m1)
      case None => None
      case Some((query, m2)) =>
        match TakeField(m2)
        case None => None
        case Some((chunkId, m3)) =>
          match DecodeTail(m3)
          case None => None
          case Some(tail) =>
            if timestamp > U64_MAX then None
            else Some(Signed(queryId, worker, timestamp, dataset, query, chunkId, tail))
  }

  lemma TakeBack(a: seq<u8>, rest: seq<u8>)
    ensures Take(a + rest, |a|) == Some((a, rest))
  {
  }

  lemma {:induction false} FieldBack(bytes: seq<u8>, rest: seq<u8>)
    requires |bytes| <= U32_MAX
    ensures TakeField(Field(bytes) + rest) == Some((bytes, rest))
  {
    var k := 4;
    WordSizes(k);
    LeRoundTrip(|bytes|, k);
    assert Field(bytes) + rest == ToLe(|bytes|, k) + (bytes + rest);
    TakeBack(ToLe(|bytes|, k), bytes + rest);
    TakeBack(bytes, rest);
  }

  lemma {:induction false} PeerBack(p: PeerId, rest: seq<u8>)
    requires ValidPeer(p)
    ensures TakePeer(PeerBytes(p) + rest) == Some((p, rest))
  {
    assert (PeerBytes(p) + rest)[2..] == p.digest + rest;
    TakeBack(p.digest, rest);
  }

  lemma {:induction false} WordBack(n: u64)
    ensures FromLe(ToLe(n, 8)) == n
  {
    var k := 8;
    WordSizes(k);
    LeRoundTrip(n, k);
  }

  lemma {:induction false} RangeBack(begin: u64, end: u64)
    ensures RangeOf(RangeBytes(Some((begin, end)))) == Some((begin, end))
  {
    var bytes := RangeBytes(Some((begin, end)));
    assert bytes[..8] == ToLe(begin, 8) && bytes[8..] == ToLe(end, 8);
    WordBack(begin);
    WordBack(end);
  }

  /** No two tails share an encoding: each decodes to itself. */
  lemma {:induction false} TailBack(t: Tail)
    requires IsByte(t.queryEngine) && IsByte(t.outputFormat)
    ensures DecodeTail(TailBytes(t)) == Some(t)
  {
    if t.blockRange.Some? {
      var range := RangeBytes(t.blockRange);
      RangeBack(t.blockRange.value.0, t.blockRange.value.1);
      assert TailBytes(t)[..16] == range;
      assert t.queryEngine == 0 && t.outputFormat == 0 ==> TailBytes(t) == range;
    }
  }

  lemma {:induction false} RestBack(s: Signed)
    requires Encodable(s)
    ensures DecodeRest(s.queryId, s.worker, s.timestampMs,
                       Field(s.dataset) + (Field(s.query) + (Field(s.chunkId) + TailBytes(s.tail))))
         == Some(s)
  {
    var m3 := TailBytes(s.tail);
    var m2 := Field(s.chunkId) + m3;
    var m1 := Field(s.query) + m2;
    FieldBack(s.dataset, m1);
    FieldBack(s.query, m2);
    FieldBack(s.chunkId, m3);
    TailBack(s.tail);
  }

  /** Every payload decodes to what was signed. */
  lemma {:induction false} DecodeInvertsEncode(s: Signed)
    requires Encodable(s)
    ensures Decode(Encode(s)) == Some(s)
  {
    var m3 := Field(s.dataset) + (Field(s.query) + (Field(s.chunkId) + TailBytes(s.tail)));
    var m2 := ToLe(s.timestampMs, 8) + m3;
    var m1 := PeerBytes(s.worker) + m2;
    TakeBack(s.queryId, m1);
    PeerBack(s.worker, m2);
    TakeBack(ToLe(s.timestampMs, 8), m3);
    WordBack(s.timestampMs);
    RestBack(s);
  }

  /** A query has a payload exactly with a well-formed id and enum values of one byte. */
  lemma PayloadExistsIff(q: Query, worker: PeerId)
    requires Sizes(q) && ValidPeer(worker)
    ensures Payload(q, worker).Some? <==>
              |q.queryId| == 36 && 0 <= q.queryEngine <= 255 && 0 <= q.outputFormat <= 255
  {
  }

  // ----- where each field lies -----

  predicate At(msg: seq<u8>, pos: nat, bytes: seq<u8>) { pos + |bytes| <= |msg| && msg[pos..pos + |bytes|] == bytes }

  /** Seven pieces joined to the right lie one after the other. */
  lemma {:induction false} PiecesLie(
    a: seq<u8>, b: seq<u8>, c: seq<u8>, d: seq<u8>, e: seq<u8>, f: seq<u8>, g: seq<u8>)
    ensures var m := a + (b + (c + (d + (e + (f + g)))));
            && At(m, 0, a) && At(m, |a|, b) && At(m, |a| + |b|, c) && At(m, |a| + |b| + |c|, d)
            && At(m, |a| + |b| + |c| + |d|, e) && At(m, |a| + |b| + |c| + |d| + |e|, f)
            && At(m, |a| + |b| + |c| + |d| + |e| + |f|, g)
  {
    var m := a + (b + (c + (d + (e + (f + g)))));
    assert m == a + b + c + d + e + f + g;
  }

  /** At `pos` stands a length in four bytes, and behind it what it is the length of. */
  predicate Counted(msg: seq<u8>, pos: nat, bytes: seq<u8>) {
    At(msg, pos + 4, bytes) && FromLe(msg[pos..pos + 4]) == |bytes|
  }

  /** A field is its length in four bytes, low byte first, and its contents. */
  lemma {:induction false} FieldIs(msg: seq<u8>, pos: nat, bytes: seq<u8>)
    requires At(msg, pos, Field(bytes)) && |bytes| <= U32_MAX
    ensures Counted(msg, pos, bytes)
  {
    var k := 4;
    WordSizes(k);
    LeRoundTrip(|bytes|, k);
    assert msg[pos..pos + 4] == msg[pos..pos + |Field(bytes)|][..4] == ToLe(|bytes|, k);
    assert msg[pos + 4..pos + 4 + |bytes|] == msg[pos..pos + |Field(bytes)|][4..] == bytes;
  }

  lemma {:induction false} WordIs(msg: seq<u8>, pos: nat, n: u64, k: nat)
    requires k == 8 && At(msg, pos, ToLe(n, k))
    ensures pos + 8 <= |msg| && FromLe(msg[pos..pos + 8]) == n
  {
    WordSizes(k);
    LeRoundTrip(n, k);
  }

  lemma {:induction false} PayloadPieces(q: Query, worker: PeerId, k: nat)
    requires Sizes(q) && ValidPeer(worker) && Payload(q, worker).Some? && k == 8
    ensures var m, stamp := Payload(q, worker).value, 38 + |worker.digest|;
            && At(m, 0, q.queryId) && At(m, 36, PeerBytes(worker)) && At(m, stamp, ToLe(q.timestampMs, k))
            && At(m, 46 + |worker.digest|, Field(q.dataset))
            && At(m, 46 + |worker.digest| + |Field(q.dataset)|, Field(q.query))
            && At(m, 46 + |worker.digest| + |Field(q.dataset)| + |Field(q.query)|, Field(q.chunkId))
  {
    var s := SignedPart(q, worker);
    PiecesLie(q.queryId, PeerBytes(worker), ToLe(q.timestampMs, k),
              Field(q.dataset), Field(q.query), Field(q.chunkId), TailBytes(s.tail));
  }

  /** Dataset, query and chunk id with their lengths. */
  predicate FieldsFollow(m: seq<u8>, at: nat, q: Query) {
    var query := at + 4 + |q.dataset|;
    var chunk := query + 4 + |q.query|;
    Counted(m, at, q.dataset) && Counted(m, query, q.query) && Counted(m, chunk, q.chunkId)
  }

  lemma FieldLength(bytes: seq<u8>)
    ensures |Field(bytes)| == 4 + |bytes|
  {
  }

  lemma {:induction false} FieldsLie(m: seq<u8>, at: nat, q: Query)
    requires |q.dataset| <= U32_MAX && |q.query| <= U32_MAX && |q.chunkId| <= U32_MAX
    requires At(m, at, Field(q.dataset)) && At(m, at + |Field(q.dataset)|, Field(q.query))
    requires At(m, at + |Field(q.dataset)| + |Field(q.query)|, Field(q.chunkId))
    ensures FieldsFollow(m, at, q)
  {
    FieldLength(q.dataset);
    FieldLength(q.query);
    var query := at + 4 + |q.dataset|;
    var chunk := query + 4 + |q.query|;
    FieldIs(m, at, q.dataset);
    FieldIs(m, query, q.query);
    FieldIs(m, chunk, q.chunkId);
  }

  /** Id, worker and time stamp. */
  predicate Leads(m: seq<u8>, q: Query, worker: PeerId) {
    var stamp := 38 + |worker.digest|;
    && At(m, 0, q.queryId) && ValidPeer(worker) && At(m, 36, [worker.code, |worker.digest|] + worker.digest)
    && stamp + 8 <= |m| && FromLe(m[stamp..stamp + 8]) == q.timestampMs
  }

  /** The payload, byte by byte. */
  lemma {:induction false} PayloadLayout(q: Query, worker: PeerId)
    requires Sizes(q) && ValidPeer(worker) && Payload(q, worker).Some?
    ensures var m := Payload(q, worker).value;
            Leads(m, q, worker) && FieldsFollow(m, 46 + |worker.digest|, q)
  {
    var m, k := Payload(q, worker).value, 8;
    PayloadPieces(q, worker, k);
    WordIs(m, 38 + |worker.digest|, q.timestampMs, k);
    FieldsLie(m, 46 + |worker.digest|, q);
  }

  /** Two queries sign alike exactly when they agree on every signed field and on the worker. */
  lemma {:induction false} PayloadsEqualIff(q1: Query, w1: PeerId, q2: Query, w2: PeerId)
    requires Sizes(q1) && Sizes(q2) && ValidPeer(w1) && ValidPeer(w2)
    requires Payload(q1, w1).Some? && Payload(q2, w2).Some?
    ensures Payload(q1, w1) == Payload(q2, w2) <==>
              && w1 == w2 && q1.queryId == q2.queryId && q1.timestampMs == q2.timestampMs
              && q1.dataset == q2.dataset && q1.query == q2.query && q1.chunkId == q2.chunkId
              && q1.blockRange == q2.blockRange
              && q1.queryEngine == q2.queryEngine && q1.outputFormat == q2.outputFormat
  {
    DecodeInvertsEncode(SignedPart(q1, w1));
    DecodeInvertsEncode(SignedPart(q2, w2));
  }

  /** The request id stands above the signature in the message and is not in the payload. */
  lemma RequestIdNotCovered(q: Query, worker: PeerId, other: seq<u8>)
    requires Sizes(q) && ValidPeer(worker)
    ensures Payload(q.(requestId := other), worker) == Payload(q, worker)
  {
  }

  // ----- the decoder accepts nothing else -----

  lemma TakeSplits(msg: seq<u8>, n: nat)
    requires Take(msg, n).Some?
    ensures msg == Take(msg, n).value.0 + Take(msg, n).value.1 && |Take(msg, n).value.0| == n
  {
  }

  lemma {:induction false} FieldSplits(msg: seq<u8>)
    requires TakeField(msg).Some?
    ensures var (bytes, rest) := TakeField(msg).value; |bytes| <= U32_MAX && msg == Field(bytes) + rest
  {
    var len := msg[..4];
    LeInverse(len);
    WordSizes(|len|);
    TakeSplits(msg, 4);
    TakeSplits(msg[4..], FromLe(len));
  }

  lemma PeerSplits(msg: seq<u8>)
    requires TakePeer(msg).Some?
    ensures var (p, rest) := TakePeer(msg).value; ValidPeer(p) && msg == PeerBytes(p) + rest
  {
  }

  lemma {:induction false} RangeSplits(bytes: seq<u8>)
    requires |bytes| == 16
    ensures RangeBytes(RangeOf(bytes)) == bytes
  {
    LeInverse(bytes[..8]);
    LeInverse(bytes[8..]);
    assert bytes == bytes[..8] + bytes[8..];
  }

  lemma {:induction false} TailSplits(bytes: seq<u8>)
    requires DecodeTail(bytes).Some?
    ensures var t := DecodeTail(bytes).value;
            IsByte(t.queryEngine) && IsByte(t.outputFormat) && TailBytes(t) == bytes
  {
    if |bytes| == 16 {
      RangeSplits(bytes);
    } else if |bytes| == 18 {
      RangeSplits(bytes[..16]);
      assert bytes == bytes[..16] + ([] + [bytes[16], bytes[17]]);
    } else if |bytes| == 3 {
      assert bytes == [] + ([0] + [bytes[1], bytes[2]]);
    }
  }

  lemma {:induction false} RestSplits(queryId: seq<u8>, worker: PeerId, timestamp: u64, msg: seq<u8>)
    requires DecodeRest(queryId, worker, timestamp, msg).Some?
    ensures var s := DecodeRest(queryId, worker, timestamp, msg).value;
            && s.queryId == queryId && s.worker == worker && s.timestampMs == timestamp
            && |s.dataset| <= U32_MAX && |s.query| <= U32_MAX && |s.chunkId| <= U32_MAX
            && IsByte(s.tail.queryEngine) && IsByte(s.tail.outputFormat)
            && msg == Field(s.dataset) + (Field(s.query) + (Field(s.chunkId) + TailBytes(s.tail)))
  {
    FieldSplits(msg);
    var m1 := TakeField(msg).value.1;
    FieldSplits(m1);
    var m2 := TakeField(m1).value.1;
    FieldSplits(m2);
    TailSplits(TakeField(m2).value.1);
  }

  /** What the decoder accepts is exactly what the encoder produces. */
  lemma {:induction false} EncodeInvertsDecode(msg: seq<u8>)
    requires Decode(msg).Some?
    ensures Encodable(Decode(msg).value) && Encode(Decode(msg).value) == msg
  {
    TakeSplits(msg, UUID_V4_SIZE);
    var m1 := msg[UUID_V4_SIZE..];
    PeerSplits(m1);
    var (worker, m2) := TakePeer(m1).value;
    TakeSplits(m2, 8);
    WordOf(m2[..8]);
    LeInverse(m2[..8]);
    RestSplits(msg[..UUID_V4_SIZE], worker, FromLe(m2[..8]), m2[8..]);
  }

  // ----- query results -----

  datatype QueryErr =
    | BadRequest(text: seq<u8>)
    | NotFound(text: seq<u8>)
    | ServerError(text: seq<u8>)
    | TooManyRequests
    | ServerOverloaded

  datatype Answer =
    | Answered(data: seq<u8>, lastBlock: u64, uncompressedSize: Option<u64>)
    | Failed(err: Option<QueryErr>)

  datatype QueryResult = QueryResult(queryId: seq<u8>, result: Option<Answer>, signature: seq<u8>)

  datatype Summary = OkSummary(size: nat, dataHash: seq<u8>, lastBlock: u64) | ErrSummary(err: Option<QueryErr>)

  datatype QueryFinished = QueryFinished(
    workerId: seq<u8>, queryId: seq<u8>, totalTimeMicros: u32, result: Option<Summary>, workerSignature: seq<u8>)

  function OkPayload(queryId: seq<u8>, hash: seq<u8>, lastBlock: u64): Option<seq<u8>> {
    if |hash| != SHA3_256_SIZE || |queryId| != UUID_V4_SIZE then None
    else Some(queryId + hash + ToLe(lastBlock, 8))
  }

  function ErrCode(err: QueryErr): u8 {
    match err
    case BadRequest(_) => 1
    case NotFound(_) => 2
    case ServerError(_) => 3
    case TooManyRequests => 4
    case ServerOverloaded => 5
  }

  predicate SameKind(a: QueryErr, b: QueryErr) {
    match a
    case BadRequest(_) => b.BadRequest?
    case NotFound(_) => b.NotFound?
    case ServerError(_) => b.ServerError?
    case TooManyRequests => b.TooManyRequests?
    case ServerOverloaded => b.ServerOverloaded?
  }

  function ErrPayload(queryId: seq<u8>, err: QueryErr): Option<seq<u8>> {
    if |queryId| != UUID_V4_SIZE then None else Some(queryId + [ErrCode(err)])
  }

  function ResultPayload(sha3: seq<u8> -> seq<u8>, r: QueryResult): Option<seq<u8>> {
    match r.result
    case Some(Answered(data, lastBlock, _)) => OkPayload(r.queryId, sha3(data), lastBlock)
    case Some(Failed(Some(err))) => ErrPayload(r.queryId, err)
    case _ => None
  }

  function Finish(sha3: seq<u8> -> seq<u8>, r: QueryResult, workerId: seq<u8>, totalTimeMicros: u32): QueryFinished {
    QueryFinished(
      workerId, r.queryId, totalTimeMicros,
      match r.result
      case None => None
      case Some(Answered(data, lastBlock, _)) => Some(OkSummary(|data|, sha3(data), lastBlock))
      case Some(Failed(err)) => Some(ErrSummary(err)),
      r.signature)
  }

  function FinishedPayload(f: QueryFinished): Option<seq<u8>> {
    match f.result
    case Some(OkSummary(_, hash, lastBlock)) => OkPayload(f.queryId, hash, lastBlock)
    case Some(ErrSummary(Some(err))) => ErrPayload(f.queryId, err)
    case _ => None
  }

  predicate VerifyResult(
    sha3: seq<u8> -> seq<u8>, verify: (PeerId, seq<u8>, seq<u8>) -> bool, r: QueryResult, signer: PeerId)
  {
    match ResultPayload(sha3, r)
    case None => false
    case Some(msg) => verify(signer, msg, r.signature)
  }

  predicate VerifyFinished(
    parse: seq<u8> -> Option<PeerId>, verify: (PeerId, seq<u8>, seq<u8>) -> bool, f: QueryFinished)
  {
    match (FinishedPayload(f), parse(f.workerId))
    case (Some(msg), Some(worker)) => verify(worker, msg, f.workerSignature)
    case _ => false
  }

  /** A log entry verifies exactly when the result it was made from did, without the data itself. */
  lemma FinishedVerifiesAlike(
    sha3: seq<u8> -> seq<u8>, parse: seq<u8> -> Option<PeerId>, verify: (PeerId, seq<u8>, seq<u8>) -> bool,
    r: QueryResult, workerId: seq<u8>, time: u32)
    ensures VerifyFinished(parse, verify, Finish(sha3, r, workerId, time))
        <==> parse(workerId).Some? && VerifyResult(sha3, verify, r, parse(workerId).value)
  {
  }

  /** A log entry carries the worker, the time, and of the result everything but the data itself. */
  lemma FinishedCarries(sha3: seq<u8> -> seq<u8>, r: QueryResult, workerId: seq<u8>, time: u32)
    ensures var f := Finish(sha3, r, workerId, time);
            && f.workerId == workerId && f.queryId == r.queryId && f.totalTimeMicros == time
            && f.workerSignature == r.signature && (f.result.Some? <==> r.result.Some?)
            && (r.result.Some? && r.result.value.Answered? ==>
                  var (data, last) := (r.result.value.data, r.result.value.lastBlock);
                  f.result.value == OkSummary(|data|, sha3(data), last))
            && (r.result.Some? && r.result.value.Failed? ==> f.result.value == ErrSummary(r.result.value.err))
  {
  }

  /** Result payloads pin the query, and either the data hash and last block or the kind of error. */
  lemma {:induction false} ResultPayloadsEqual(sha3: seq<u8> -> seq<u8>, a: QueryResult, b: QueryResult)
    requires ResultPayload(sha3, a).Some? && ResultPayload(sha3, a) == ResultPayload(sha3, b)
    ensures a.queryId == b.queryId && a.result.Some? && b.result.Some?
    ensures a.result.value.Answered? <==> b.result.value.Answered?
    ensures a.result.value.Answered? ==>
              && sha3(a.result.value.data) == sha3(b.result.value.data)
              && a.result.value.lastBlock == b.result.value.lastBlock
    ensures a.result.value.Failed? ==>
              && a.result.value.err.Some? && b.result.value.err.Some?
              && SameKind(a.result.value.err.value, b.result.value.err.value)
  {
    var m := ResultPayload(sha3, a).value;
    assert m[..UUID_V4_SIZE] == a.queryId && m[..UUID_V4_SIZE] == b.queryId;
    if a.result.value.Answered? {
      OkSplits(a.queryId, sha3(a.result.value.data), a.result.value.lastBlock);
      assert b.result.value.Answered?;
      OkSplits(b.queryId, sha3(b.result.value.data), b.result.value.lastBlock);
    } else {
      assert m[UUID_V4_SIZE] == ErrCode(a.result.value.err.value) == ErrCode(b.result.value.err.value);
    }
  }

  /** A result has a payload exactly with a well-formed query id and a definite outcome. */
  lemma ResultPayloadExistsIff(sha3: seq<u8> -> seq<u8>, r: QueryResult)
    requires r.result.Some? && r.result.value.Answered? ==> |sha3(r.result.value.data)| == 32
    ensures ResultPayload(sha3, r).Some? <==>
              |r.queryId| == 36 && r.result.Some? && (r.result.value.Failed? ==> r.result.value.err.Some?)
  {
  }

  /** The bytes of a payload: the query id, then the hash and last block, or one byte for the kind of error. */
  lemma {:induction false} ResultPayloadBytes(sha3: seq<u8> -> seq<u8>, r: QueryResult)
    requires ResultPayload(sha3, r).Some?
    ensures var m := ResultPayload(sha3, r).value;
            && |m| >= 37 && m[..36] == r.queryId && r.result.Some?
            && match r.result.value
               case Answered(data, lastBlock, _) =>
                 && |m| == 76 && m[36..68] == sha3(data)
                 && m[68] == lastBlock % 256 && FromLe(m[69..]) == lastBlock / 256
               case Failed(err) =>
                 && |m| == 37 && err.Some?
                 && match err.value
                    case BadRequest(_) => m[36] == 1
                    case NotFound(_) => m[36] == 2
                    case ServerError(_) => m[36] == 3
                    case TooManyRequests => m[36] == 4
                    case ServerOverloaded => m[36] == 5
  {
    if r.result.value.Answered? {
      var m := ResultPayload(sha3, r).value;
      var word := ToLe(r.result.value.lastBlock, 8);
      OkSplits(r.queryId, sha3(r.result.value.data), r.result.value.lastBlock);
      assert m[..36] == r.queryId && m[68..] == word && m[69..] == word[1..];
      var k := 8;
      WordSizes(k);
      LowByteFirst(r.result.value.lastBlock, k);
    }
  }

  lemma {:induction false} OkSplits(queryId: seq<u8>, hash: seq<u8>, lastBlock: u64)
    requires OkPayload(queryId, hash, lastBlock).Some?
    ensures var m := OkPayload(queryId, hash, lastBlock).value;
            && |m| == UUID_V4_SIZE + SHA3_256_SIZE + 8
            && m[UUID_V4_SIZE..UUID_V4_SIZE + SHA3_256_SIZE] == hash
            && FromLe(m[UUID_V4_SIZE + SHA3_256_SIZE..]) == lastBlock
  {
    var m := OkPayload(queryId, hash, lastBlock).value;
    assert m[UUID_V4_SIZE + SHA3_256_SIZE..] == ToLe(lastBlock, 8);
    WordBack(lastBlock);
  }
}
