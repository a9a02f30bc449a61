/** Which gossip messages a topic accepts from each of its peers. */
module Gossip {
  import opened Words
  import opened Sequences

  datatype Config = Config(minInterval: nat, maxBurst: u32, keepLast: u64)

  datatype Peer = Peer(lastSeqNo: u64, lastTime: nat, burst: u32)

  datatype Verdict = Accept | Invalid | Ignored

  /**
   * A message with everything its check reads from outside: the custom validator's answer, the
   * wall clock in nanoseconds, and the monotonic clock where the check asks for the elapsed
   * time and again, later, where it takes a fresh instant.
   */
  datatype Message = Message(seqNo: u64, custom: Verdict, wall: u64, clock: nat, later: nat)

  function Elapsed(since: nat, now: nat): nat { if now < since then 0 else now - since }

  /** The rate limiter: inside the interval the burst grows, otherwise a new interval begins. */
  function Tick(s: Peer, m: Message, c: Config): Peer {
    if Elapsed(s.lastTime, m.clock) < c.minInterval then s.(burst := (s.burst + 1) % (U32_MAX + 1))
    else s.(lastTime := m.later, burst := 1)
  }

  function Check(s: Peer, m: Message, c: Config): (Peer, Verdict) {
    if m.seqNo == 0 || m.seqNo > m.wall then (s, Invalid)
    else if WrapAdd64(m.seqNo, c.keepLast) <= s.lastSeqNo then (s, Ignored)
    else
      var s1 := Tick(s, m, c);
      if s1.burst > c.maxBurst then (s1, Ignored)
      else (s1.(lastSeqNo := Max64(s.lastSeqNo, m.seqNo)), Accept)
  }

  /** A topic's answer to one peer; the first message of a peer is taken as it comes. */
  function Receive(s: Option<Peer>, m: Message, c: Config): (Option<Peer>, Verdict) {
    if m.custom != Accept then (s, m.custom)
    else if s.None? then (Some(Peer(m.seqNo, m.later, 1)), Accept)
    else
      var (s1, v) := Check(s.value, m, c);
      (Some(s1), v)
  }

  // ----- runs of one peer -----

  function StateAt(c: Config, ms: seq<Message>): Option<Peer> {
    if ms == [] then None else Receive(StateAt(c, Init(ms)), Last(ms), c).0
  }

  predicate AcceptsLast(c: Config, ms: seq<Message>)
    requires ms != []
  {
    Receive(StateAt(c, Init(ms)), Last(ms), c).1 == Accept
  }

  /** Both clocks only move forward. */
  predicate InOrder(ms: seq<Message>) {
    && (forall i :: 0 <= i < |ms| ==> ms[i].clock <= ms[i].later)
    && (forall i, j :: 0 <= i < j < |ms| ==> ms[i].later <= ms[j].clock)
  }

  /** The message is counted while the 32-bit counter stands at its end, and takes it back to 0. */
  predicate Overflows(s: Peer, m: Message, c: Config) {
    && 0 < m.seqNo <= m.wall && WrapAdd64(m.seqNo, c.keepLast) > s.lastSeqNo
    && Elapsed(s.lastTime, m.clock) < c.minInterval && s.burst == U32_MAX
  }

  predicate OverflowsLast(c: Config, ms: seq<Message>)
    requires ms != []
  {
    var s := StateAt(c, Init(ms));
    Last(ms).custom == Accept && s.Some? && Overflows(s.value, Last(ms), c)
  }

  /** How often the burst counter was taken back to 0. */
  function Wraps(c: Config, ms: seq<Message>): nat {
    if ms == [] then 0 else Wraps(c, Init(ms)) + if OverflowsLast(c, ms) then 1 else 0
  }

  predicate Within(m: Message, start: nat, length: nat) { start <= m.clock < start + length }

  /** How many accepted messages fall into the interval that begins at `start`. */
  function CountIn(c: Config, ms: seq<Message>, start: nat): nat {
    if ms == [] then 0 else
    CountIn(c, Init(ms), start) + if AcceptsLast(c, ms) && Within(Last(ms), start, c.minInterval) then 1 else 0
  }

  // ----- wrapping takes 2^32 messages -----

  lemma CheckCounts(s: Peer, m: Message, c: Config)
    ensures var s1 := Check(s, m, c).0;
            if Overflows(s, m, c) then s1.burst == 0 else s1.burst <= s.burst + 1
  {
  }

  lemma {:induction false} WrapsAreRare(c: Config, ms: seq<Message>)
    ensures 0x1_0000_0000 * Wraps(c, ms) <= |ms|
    ensures StateAt(c, ms).Some? ==> 0x1_0000_0000 * Wraps(c, ms) + StateAt(c, ms).value.burst <= |ms|
  {
    if ms != [] {
      WrapsAreRare(c, Init(ms));
      var before := StateAt(c, Init(ms));
      if before.Some? {
        CheckCounts(before.value, Last(ms), c);
      } else {
        NoStateNoWraps(c, Init(ms));
      }
    }
  }

  lemma {:induction false} NoStateNoWraps(c: Config, ms: seq<Message>)
    requires StateAt(c, ms).None?
    ensures Wraps(c, ms) == 0
  {
    if ms != [] {
      NoStateNoWraps(c, Init(ms));
    }
  }

  // ----- the rate limit -----

  /** Accepted messages of the current interval: the burst, except that refusals also count up. */
  function Used(s: Peer, c: Config): nat { if s.burst < c.maxBurst then s.burst else c.maxBurst }

  /** What a wrapped counter lets through beyond the limit. */
  function Slack(c: Config, ms: seq<Message>): nat {
    if ms == [] then 0 else Slack(c, Init(ms)) + if OverflowsLast(c, ms) then c.maxBurst + 1 else 0
  }

  lemma {:induction false} SlackIs(c: Config, ms: seq<Message>)
    ensures Slack(c, ms) == (c.maxBurst + 1) * Wraps(c, ms)
  {
    if ms != [] {
      SlackIs(c, Init(ms));
      OneMore(c.maxBurst + 1, Wraps(c, Init(ms)));
    }
  }

  lemma OneMore(a: nat, n: nat)
    ensures a * (n + 1) == a * n + a
  {
  }

  /** What is left to a window depends on where the current interval began. */
  predicate Bounded(s: Peer, c: Config, count: nat, start: nat, slack: nat) {
    && (s.lastTime < start ==> count <= Used(s, c) - 1 + slack)
    && (start <= s.lastTime < start + c.minInterval ==> count <= c.maxBurst - 1 + Used(s, c) + slack)
    && (start + c.minInterval <= s.lastTime ==> count <= 2 * c.maxBurst - 1 + slack)
  }

  lemma CheckKeepsBound(s: Peer, m: Message, c: Config, count: nat, start: nat, slack: nat)
    requires 1 <= c.maxBurst && s.lastTime <= m.clock <= m.later
    requires Bounded(s, c, count, start, slack) && (count > 0 ==> start <= m.clock)
    ensures var (s1, v) := Check(s, m, c);
            && s1.lastTime <= m.later
            && Bounded(s1, c, count + (if v == Accept && Within(m, start, c.minInterval) then 1 else 0), start,
                       slack + if Overflows(s, m, c) then c.maxBurst + 1 else 0)
  {
  }

  lemma {:induction false} WindowInvariant(c: Config, ms: seq<Message>, start: nat)
    requires 1 <= c.maxBurst && InOrder(ms)
    ensures var s := StateAt(c, ms);
            if s.None? then CountIn(c, ms, start) == 0 else
            && s.value.lastTime <= Last(ms).later
            && (CountIn(c, ms, start) > 0 ==> start <= Last(ms).later)
            && Bounded(s.value, c, CountIn(c, ms, start), start, Slack(c, ms))
  {
    if ms != [] {
      WindowInvariant(c, Init(ms), start);
      var before := StateAt(c, Init(ms));
      if before.Some? && Last(ms).custom == Accept {
        CheckKeepsBound(before.value, Last(ms), c, CountIn(c, Init(ms), start), start, Slack(c, Init(ms)));
      }
    }
  }

  /** With a burst of zero only the unchecked first message passes, and one for each wrap. */
  lemma {:induction false} ZeroBurst(c: Config, ms: seq<Message>, start: nat)
    requires c.maxBurst == 0
    ensures StateAt(c, ms).None? ==> CountIn(c, ms, start) == 0
    ensures CountIn(c, ms, start) <= 1 + Wraps(c, ms)
    ensures StateAt(c, ms).Some? ==> 1 <= StateAt(c, ms).value.burst || Wraps(c, ms) > 0
  {
    if ms != [] {
      ZeroBurst(c, Init(ms), start);
      if StateAt(c, Init(ms)).Some? {
        CheckCounts(StateAt(c, Init(ms)).value, Last(ms), c);
      }
    }
  }

  /** The most a stretch of one interval can hold while the counter does not wrap. */
  function Limit(c: Config): nat { if c.maxBurst == 0 then 1 else 2 * c.maxBurst - 1 }

  /**
   * No stretch of time as long as the interval holds more than twice the burst, less one, and one
   * more burst for each time the counter wrapped, which takes 2^32 messages.
   */
  lemma {:induction false} RateLimit(c: Config, ms: seq<Message>, start: nat)
    requires InOrder(ms)
    ensures CountIn(c, ms, start) <= Limit(c) + (c.maxBurst + 1) * Wraps(c, ms)
    ensures 0x1_0000_0000 * Wraps(c, ms) <= |ms|
  {
    WrapsAreRare(c, ms);
    if c.maxBurst == 0 {
      ZeroBurst(c, ms, start);
    } else {
      SlackIs(c, ms);
      WindowInvariant(c, ms, start);
    }
  }

  // ----- when the documented limit holds -----

  /** The documented reading: at most `maxBurst` messages in any stretch of `minInterval`. */
  ghost predicate AtMostBurst(c: Config) {
    forall ms, start :: InOrder(ms) && Wraps(c, ms) == 0 ==> CountIn(c, ms, start) <= c.maxBurst
  }

  lemma {:induction false} EmptyWindow(c: Config, ms: seq<Message>, start: nat)
    requires c.minInterval == 0
    ensures CountIn(c, ms, start) == 0
  {
    if ms != [] {
      EmptyWindow(c, Init(ms), start);
    }
  }

  /** With an interval of one tick, a window is one instant and meets one interval only. */
  predicate BoundedInstant(s: Peer, c: Config, count: nat, start: nat) {
    && (s.lastTime < start ==> count == 0)
    && (s.lastTime == start ==> count <= Used(s, c))
    && (s.lastTime > start ==> count <= c.maxBurst)
  }

  lemma CheckKeepsInstant(s: Peer, m: Message, c: Config, count: nat, start: nat)
    requires 1 <= c.maxBurst && c.minInterval == 1 && !Overflows(s, m, c)
    requires s.lastTime <= m.clock <= m.later
    requires BoundedInstant(s, c, count, start) && (count > 0 ==> start <= m.clock)
    ensures var (s1, v) := Check(s, m, c);
            && s1.lastTime <= m.later
            && BoundedInstant(s1, c, count + if v == Accept && Within(m, start, c.minInterval) then 1 else 0, start)
  {
  }

  lemma {:induction false} InstantInvariant(c: Config, ms: seq<Message>, start: nat)
    requires 1 <= c.maxBurst && c.minInterval == 1 && InOrder(ms) && Wraps(c, ms) == 0
    ensures var s := StateAt(c, ms);
            if s.None? then CountIn(c, ms, start) == 0 else
            && s.value.lastTime <= Last(ms).later
            && (CountIn(c, ms, start) > 0 ==> start <= Last(ms).later)
            && BoundedInstant(s.value, c, CountIn(c, ms, start), start)
  {
    if ms != [] {
      InstantInvariant(c, Init(ms), start);
      var before := StateAt(c, Init(ms));
      if before.Some? && Last(ms).custom == Accept {
        CheckKeepsInstant(before.value, Last(ms), c, CountIn(c, Init(ms), start), start);
      }
    }
  }

  // ----- the bound is reached -----

  const RUN_END := 0x2_0000_0000

  /** Sequence numbers that `keepLast` lets through, whatever it is. */
  function SeqOf(c: Config, i: nat): u64
    requires i < RUN_END
  {
    if c.keepLast == 0 then i + 1 else if c.keepLast == U64_MAX then 2 * (i + 1) else 1
  }

  /** One message, the rest of its burst just before the interval ends, then the next burst. */
  function Clocked(c: Config, i: nat): Message
    requires c.minInterval >= 1 && i < RUN_END
  {
    var t: nat := if i == 0 then 0 else if i < c.maxBurst then c.minInterval - 1 else c.minInterval;
    Message(SeqOf(c, i), Accept, U64_MAX, t, t)
  }

  function Squeeze(c: Config, n: nat): (ms: seq<Message>)
    requires c.minInterval >= 1 && n <= RUN_END
    ensures |ms| == n
  {
    if n == 0 then [] else Squeeze(c, n - 1) + [Clocked(c, n - 1)]
  }

  lemma {:induction false} SqueezeAt(c: Config, n: nat, i: nat)
    requires c.minInterval >= 1 && i < n <= RUN_END
    ensures Squeeze(c, n)[i] == Clocked(c, i)
  {
    if i < n - 1 {
      SqueezeAt(c, n - 1, i);
    }
  }

  lemma {:induction false} SqueezeInOrder(c: Config, n: nat)
    requires c.minInterval >= 1 && n <= RUN_END
    ensures InOrder(Squeeze(c, n))
  {
    forall i | 0 <= i < n ensures Squeeze(c, n)[i] == Clocked(c, i) {
      SqueezeAt(c, n, i);
    }
  }

  lemma SqueezeParts(c: Config, n: nat)
    requires c.minInterval >= 1 && 1 <= n <= RUN_END
    ensures Init(Squeeze(c, n)) == Squeeze(c, n - 1) && Last(Squeeze(c, n)) == Clocked(c, n - 1)
  {
  }

  predicate Squeezable(c: Config) { c.minInterval >= 2 && c.maxBurst >= 1 }

  /** The state after `n` of these messages. */
  function SqueezeState(c: Config, n: nat): Peer
    requires 1 <= n <= 2 * c.maxBurst
  {
    if n <= c.maxBurst then Peer(SeqOf(c, n - 1), 0, n) else Peer(SeqOf(c, n - 1), c.minInterval, n - c.maxBurst)
  }

  lemma SeqPasses(c: Config, i: nat)
    requires 1 <= i < RUN_END
    ensures WrapAdd64(SeqOf(c, i), c.keepLast) > SeqOf(c, i - 1)
    ensures Max64(SeqOf(c, i - 1), SeqOf(c, i)) == SeqOf(c, i)
  {
  }

  lemma {:induction false} SqueezeStep(c: Config, i: nat)
    requires Squeezable(c) && 1 <= i < 2 * c.maxBurst
    ensures !Overflows(SqueezeState(c, i), Clocked(c, i), c)
    ensures Check(SqueezeState(c, i), Clocked(c, i), c) == (SqueezeState(c, i + 1), Accept)
  {
    SeqPasses(c, i);
  }

  lemma {:induction false} SqueezeAccepted(c: Config, n: nat)
    requires Squeezable(c) && 1 <= n <= 2 * c.maxBurst
    ensures Wraps(c, Squeeze(c, n)) == 0 && AcceptsLast(c, Squeeze(c, n))
    ensures StateAt(c, Squeeze(c, n)) == Some(SqueezeState(c, n))
  {
    SqueezeParts(c, n);
    if n > 1 {
      SqueezeAccepted(c, n - 1);
      SqueezeStep(c, n - 1);
    }
  }

  lemma {:induction false} SqueezeCount(c: Config, n: nat)
    requires Squeezable(c) && 1 <= n <= 2 * c.maxBurst
    ensures CountIn(c, Squeeze(c, n), c.minInterval - 1) == n - 1
  {
    SqueezeParts(c, n);
    if n > 1 {
      SqueezeCount(c, n - 1);
      SqueezeAccepted(c, n);
    }
  }

  /** Two bursts around the end of an interval, all but one message inside one stretch. */
  lemma {:induction false} SqueezeBreaks(c: Config)
    requires c.minInterval >= 2 && c.maxBurst >= 2
    ensures !AtMostBurst(c)
  {
    var n := 2 * c.maxBurst;
    SqueezeInOrder(c, n);
    SqueezeAccepted(c, n);
    SqueezeCount(c, n);
    assert CountIn(c, Squeeze(c, n), c.minInterval - 1) > c.maxBurst;
  }

  lemma {:induction false} FirstMessageBreaks(c: Config)
    requires c.minInterval >= 1 && c.maxBurst == 0
    ensures !AtMostBurst(c)
  {
    var m, start := Message(1, Accept, 1, 0, 0), 0;
    FirstIsTaken(c, m, start);
    assert InOrder([m]) && CountIn(c, [m], start) > c.maxBurst;
  }

  lemma {:induction false} FirstIsTaken(c: Config, m: Message, start: nat)
    requires m.custom == Accept && Within(m, start, c.minInterval)
    ensures CountIn(c, [m], start) == 1 && Wraps(c, [m]) == 0
  {
    var ms := [m];
    assert Init(ms) == [] && Last(ms) == m;
    assert AcceptsLast(c, ms);
  }

  /**
   * It holds exactly for a burst of one, for any burst but zero when the interval is one tick, and
   * when there is no interval.
   */
  lemma {:induction false} AtMostBurstIff(c: Config)
    ensures AtMostBurst(c) <==> c.maxBurst == 1 || c.minInterval == 0 || (c.minInterval == 1 && c.maxBurst > 0)
  {
    if c.minInterval >= 1 && c.maxBurst == 0 {
      FirstMessageBreaks(c);
    } else if c.minInterval >= 2 && c.maxBurst >= 2 {
      SqueezeBreaks(c);
    } else {
      forall ms, start | InOrder(ms) && Wraps(c, ms) == 0 ensures CountIn(c, ms, start) <= c.maxBurst {
        if c.minInterval == 0 {
          EmptyWindow(c, ms, start);
        } else if c.maxBurst == 1 {
          RateLimit(c, ms, start);
        } else {
          InstantInvariant(c, ms, start);
        }
      }
    }
  }

  // ----- sequence numbers -----

  /** The state remembers the largest accepted sequence number, so no message lags by more than allowed. */
  lemma {:induction false} LastIsLargest(c: Config, ms: seq<Message>, i: nat)
    requires i < |ms| && AcceptsLast(c, ms[..i + 1])
    ensures StateAt(c, ms).Some? && ms[i].seqNo <= StateAt(c, ms).value.lastSeqNo
  {
    if i < |ms| - 1 {
      assert Init(ms)[..i + 1] == ms[..i + 1];
      LastIsLargest(c, Init(ms), i);
    } else {
      assert ms[..i + 1] == ms;
    }
  }

  /** Later accepted messages exceed every earlier one, give or take `keepLast`. */
  lemma {:induction false} NoStaleMessage(c: Config, ms: seq<Message>, i: nat, j: nat)
    requires i < j < |ms| && AcceptsLast(c, ms[..i + 1]) && AcceptsLast(c, ms[..j + 1])
    ensures ms[i].seqNo < ms[j].seqNo + c.keepLast
    ensures 0 < ms[j].seqNo <= ms[j].wall
  {
    assert ms[..j][..i + 1] == ms[..i + 1];
    LastIsLargest(c, ms[..j], i);
    assert Init(ms[..j + 1]) == ms[..j];
    assert WrapAdd64(ms[j].seqNo, c.keepLast) <= ms[j].seqNo + c.keepLast;
  }

  // ----- verdicts from the history alone -----

  /** When the current interval began, how many messages were counted in it, and the largest number accepted. */
  datatype History = History(begun: Option<nat>, since: nat, largest: u64)

  /** What reaches the limiter: the first message, and then those that are neither invalid nor old. */
  predicate Counts(h: History, m: Message, c: Config) {
    && m.custom == Accept
    && (h.begun.None?
        || (1 <= m.seqNo <= m.wall && (m.seqNo + c.keepLast) % 0x1_0000_0000_0000_0000 > h.largest))
  }

  /** An interval begins with the first message, and with one that comes a whole interval after the last began. */
  predicate Begins(h: History, m: Message, c: Config) {
    h.begun.None? || c.minInterval == 0 || h.begun.value + c.minInterval <= m.clock
  }

  /** How many messages the interval has with this one. */
  function Position(h: History, m: Message, c: Config): nat { if Begins(h, m, c) then 1 else h.since + 1 }

  /** The first message passes, and then as many as the burst allows, by a 32-bit count. */
  predicate Passes(h: History, m: Message, c: Config) {
    Counts(h, m, c) && (h.begun.None? || Position(h, m, c) % 0x1_0000_0000 <= c.maxBurst)
  }

  function Extend(h: History, m: Message, c: Config): History {
    if !Counts(h, m, c) then h else
    History(
      if Begins(h, m, c) then Some(m.later) else h.begun,
      Position(h, m, c),
      if Passes(h, m, c) && m.seqNo > h.largest then m.seqNo else h.largest)
  }

  function HistoryOf(c: Config, ms: seq<Message>): History {
    if ms == [] then History(None, 0, 0) else Extend(HistoryOf(c, Init(ms)), Last(ms), c)
  }

  /** The state a peer is kept in, with its 32-bit counter. */
  predicate Stands(h: History, s: Option<Peer>) {
    match h.begun
    case None => s.None? && h.since == 0 && h.largest == 0
    case Some(begun) => s == Some(Peer(h.largest, begun, h.since % 0x1_0000_0000))
  }

  lemma CountWraps(n: nat)
    ensures (n % 0x1_0000_0000 + 1) % 0x1_0000_0000 == (n + 1) % 0x1_0000_0000
  {
  }

  lemma {:induction false} ReceiveExtends(h: History, s: Option<Peer>, m: Message, c: Config)
    requires Stands(h, s)
    ensures Stands(Extend(h, m, c), Receive(s, m, c).0)
    ensures Receive(s, m, c).1 == Accept <==> Passes(h, m, c)
  {
    CountWraps(h.since);
  }

  /** The state is what the history says, after any run. */
  lemma {:induction false} StateStandsFor(c: Config, ms: seq<Message>)
    ensures Stands(HistoryOf(c, ms), StateAt(c, ms))
    ensures ms != [] ==> (AcceptsLast(c, ms) <==> Passes(HistoryOf(c, Init(ms)), Last(ms), c))
  {
    if ms != [] {
      StateStandsFor(c, Init(ms));
      ReceiveExtends(HistoryOf(c, Init(ms)), StateAt(c, Init(ms)), Last(ms), c);
    }
  }

  /** Each verdict, in terms of the messages before. */
  lemma {:induction false} VerdictIff(c: Config, ms: seq<Message>)
    requires ms != []
    ensures var h, m, v := HistoryOf(c, Init(ms)), Last(ms), Receive(StateAt(c, Init(ms)), Last(ms), c).1;
            if m.custom != Accept then v == m.custom
            else if h.begun.None? then v == Accept
            else if m.seqNo == 0 || m.seqNo > m.wall then v == Invalid
            else if (m.seqNo + c.keepLast) % 0x1_0000_0000_0000_0000 <= h.largest then v == Ignored
            else if Position(h, m, c) % 0x1_0000_0000 > c.maxBurst then v == Ignored
            else v == Accept
  {
    StateStandsFor(c, Init(ms));
    CountWraps(HistoryOf(c, Init(ms)).since);
  }

  // ----- topics -----

  datatype Event = Event(from: PeerId, message: Message)

  /** The messages of one peer, in order. */
  function Of(es: seq<Event>, p: PeerId): seq<Message> {
    if es == [] then [] else
    Of(Init(es), p) + if Last(es).from == p then [Last(es).message] else []
  }

  function Lookup(peers: map<PeerId, Peer>, p: PeerId): Option<Peer> {
    if p in peers then Some(peers[p]) else None
  }

  function Store(peers: map<PeerId, Peer>, p: PeerId, s: Option<Peer>): map<PeerId, Peer> {
    if s.Some? then peers[p := s.value] else peers
  }

  function TopicStep(peers: map<PeerId, Peer>, e: Event, c: Config): (map<PeerId, Peer>, Verdict) {
    var (s, v) := Receive(Lookup(peers, e.from), e.message, c);
    (Store(peers, e.from, s), v)
  }

  function TopicAt(c: Config, es: seq<Event>): map<PeerId, Peer> {
    if es == [] then map[] else TopicStep(TopicAt(c, Init(es)), Last(es), c).0
  }

  /** Peers do not influence each other: each sees the topic as if it were alone. */
  lemma {:induction false} PeersAreIndependent(c: Config, es: seq<Event>, p: PeerId)
    ensures Lookup(TopicAt(c, es), p) == StateAt(c, Of(es, p))
  {
    if es != [] {
      PeersAreIndependent(c, Init(es), p);
      if Last(es).from == p {
        assert Init(Of(es, p)) == Of(Init(es), p);
      } else {
        assert Of(es, p) == Of(Init(es), p);
      }
    }
  }

  predicate TopicInOrder(es: seq<Event>) {
    && (forall i :: 0 <= i < |es| ==> es[i].message.clock <= es[i].message.later)
    && (forall i, j :: 0 <= i < j < |es| ==> es[i].message.later <= es[j].message.clock)
  }

  lemma {:induction false} OfInOrder(es: seq<Event>, p: PeerId)
    requires TopicInOrder(es)
    ensures InOrder(Of(es, p)) && |Of(es, p)| <= |es|
    ensures forall i :: 0 <= i < |Of(es, p)| ==> exists k :: 0 <= k < |es| && Of(es, p)[i] == es[k].message
  {
    if es != [] {
      OfInOrder(Init(es), p);
      var before := Of(Init(es), p);
      forall i | 0 <= i < |before| ensures exists k :: 0 <= k < |es| && before[i] == es[k].message {
        var k :| 0 <= k < |Init(es)| && before[i] == Init(es)[k].message;
        assert before[i] == es[k].message;
      }
    }
  }

  predicate TopicAcceptsLast(c: Config, es: seq<Event>)
    requires es != []
  {
    TopicStep(TopicAt(c, Init(es)), Last(es), c).1 == Accept
  }

  /** How many of a peer's messages the topic accepts in the interval that begins at `start`. */
  function TopicCount(c: Config, es: seq<Event>, p: PeerId, start: nat): nat {
    if es == [] then 0 else
    TopicCount(c, Init(es), p, start)
    + if Last(es).from == p && TopicAcceptsLast(c, es) && Within(Last(es).message, start, c.minInterval) then 1 else 0
  }

  /** The topic's verdict on a message is the one its sender would get alone. */
  lemma {:induction false} TopicAcceptsAlone(c: Config, es: seq<Event>)
    requires es != []
    ensures TopicAcceptsLast(c, es) <==> AcceptsLast(c, Of(es, Last(es).from))
  {
    PeersAreIndependent(c, Init(es), Last(es).from);
    assert Init(Of(es, Last(es).from)) == Of(Init(es), Last(es).from);
  }

  lemma {:induction false} TopicCountsAlone(c: Config, es: seq<Event>, p: PeerId, start: nat)
    ensures TopicCount(c, es, p, start) == CountIn(c, Of(es, p), start)
  {
    if es != [] {
      TopicCountsAlone(c, Init(es), p, start);
      if Last(es).from == p {
        TopicAcceptsAlone(c, es);
        assert Init(Of(es, p)) == Of(Init(es), p);
      } else {
        assert Of(es, p) == Of(Init(es), p);
      }
    }
  }

  /** Whatever other peers send, the topic accepts no more of a peer than its rate. */
  lemma {:induction false} TopicRateLimit(c: Config, es: seq<Event>, p: PeerId, start: nat)
    requires TopicInOrder(es)
    ensures TopicCount(c, es, p, start) <= Limit(c) + (c.maxBurst + 1) * Wraps(c, Of(es, p))
    ensures 0x1_0000_0000 * Wraps(c, Of(es, p)) <= |es|
  {
    OfInOrder(es, p);
    TopicCountsAlone(c, es, p, start);
    RateLimit(c, Of(es, p), start);
  }
}

/** The state a topic keeps, updated message by message. */
module GossipState {
  import opened Words
  import G = Gossip

  class PeerState {
    var lastSeqNo: u64
    var lastTime: nat
    var burst: u32

    ghost function View(): G.Peer
      reads this
    {
      G.Peer(lastSeqNo, lastTime, burst)
    }

    constructor (seqNo: u64, now: nat)
      ensures View() == G.Peer(seqNo, now, 1)
    {
      lastSeqNo, lastTime, burst := seqNo, now, 1;
    }

    method ValidateMsg(m: G.Message, c: G.Config) returns (v: G.Verdict)
      modifies this
      ensures (View(), v) == G.Check(old(View()), m, c)
    {
      if m.seqNo == 0 || m.seqNo > m.wall {
        return G.Invalid;
      }
      if WrapAdd64(m.seqNo, c.keepLast) <= lastSeqNo {
        return G.Ignored;
      }
      if G.Elapsed(lastTime, m.clock) < c.minInterval {
        burst := (burst + 1) % (U32_MAX + 1);
      } else {
        lastTime := m.later;
        burst := 1;
      }
      if burst > c.maxBurst {
        return G.Ignored;
      }
      lastSeqNo := Max64(lastSeqNo, m.seqNo);
      return G.Accept;
    }
  }

  class TopicState {
    var peerStates: map<PeerId, PeerState>
    const config: G.Config

    /** No two peers share a state object. */
    ghost predicate Valid()
      reads this
    {
      forall p, q :: p in peerStates && q in peerStates && p != q ==> peerStates[p] != peerStates[q]
    }

    ghost function View(): map<PeerId, G.Peer>
      reads this, peerStates.Values
    {
      map p | p in peerStates :: peerStates[p].View()
    }

    constructor (config: G.Config)
      ensures Valid() && View() == map[] && this.config == config
    {
      peerStates := map[];
      this.config := config;
    }

    method ValidateMsg(from: PeerId, m: G.Message) returns (v: G.Verdict)
      requires Valid()
      modifies this, peerStates.Values
      ensures Valid() && (View(), v) == G.TopicStep(old(View()), G.Event(from, m), config)
    {
      if m.custom != G.Accept {
        assert G.Store(View(), from, G.Lookup(View(), from)) == View();
        return m.custom;
      }
      if from in peerStates {
        var state := peerStates[from];
        v := state.ValidateMsg(m, config);
        assert View() == old(View())[from := state.View()];
      } else {
        var state := new PeerState(m.seqNo, m.later);
        peerStates := peerStates[from := state];
        v := G.Accept;
        assert View() == old(View())[from := state.View()];
      }
    }
  }
}
