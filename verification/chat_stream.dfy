/** The hand-made chat stream of backend/agent.py (CustomChatStream and the
    ChatStreamContext wrapper), as a sequential state machine.

    Scheduling a put with `asyncio.create_task` is modelled as appending to the
    queue at once.  Rather than the queue alone, the state keeps everything ever
    enqueued (`log`) and how many entries the consumer has taken: the asyncio
    queue is `log[taken..]`, and "the sentinel is enqueued at most once" becomes
    a statement about `log`. */
module ChatStream {
  import opened Values

  /** A delta is `Some(text)`; the end-of-stream sentinel is `None`. */
  type Entry = Option<string>

  datatype Stream = Stream(log: seq<Entry>, taken: nat, ended: bool)

  /** A newly constructed stream: empty queue, not ended. */
  const Fresh: Stream := Stream([], 0, false)

  /** The asyncio queue: what has been put and not yet taken. */
  function Queue(s: Stream): seq<Entry>
    requires s.taken <= |s.log|
  {
    s.log[s.taken..]
  }

  /** The number of sentinels among the entries. */
  function Sentinels(log: seq<Entry>): nat {
    if log == [] then 0 else (if log[0].None? then 1 else 0) + Sentinels(log[1..])
  }

  /** The texts of the deltas among the entries, in order. */
  function Payloads(log: seq<Entry>): seq<string> {
    if log == [] then [] else (if log[0].Some? then [log[0].value] else []) + Payloads(log[1..])
  }

  /** Every state the stream operations reach from `Fresh`: the sentinel is
      there exactly when the stream has ended, and it is the last entry. */
  predicate Valid(s: Stream) {
    && s.taken <= |s.log|
    && (s.ended <==> None in s.log)
    && forall k :: 0 <= k < |s.log| - 1 ==> s.log[k].Some?
  }

  lemma {:induction false} PayloadsAppend(a: seq<Entry>, b: seq<Entry>)
    ensures Payloads(a + b) == Payloads(a) + Payloads(b)
    ensures Sentinels(a + b) == Sentinels(a) + Sentinels(b)
    decreases |a|
  {
    if a == [] {
      assert a + b == b;
    } else {
      PayloadsAppend(a[1..], b);
      assert (a + b)[0] == a[0];
      assert (a + b)[1..] == a[1..] + b;
    }
  }

  /** A log with no sentinel carries none; one whose entries are all deltas
      carries exactly their texts. */
  lemma {:induction false} NoSentinel(log: seq<Entry>)
    requires forall k :: 0 <= k < |log| ==> log[k].Some?
    ensures Sentinels(log) == 0 && |Payloads(log)| == |log|
    ensures forall k :: 0 <= k < |log| ==> Payloads(log)[k] == log[k].value
    decreases |log|
  {
    if log != [] {
      NoSentinel(log[1..]);
    }
  }

  /** In a reachable state the sentinel has been enqueued at most once: once
      if the stream has ended, never otherwise. */
  lemma SentinelAtMostOnce(s: Stream)
    requires Valid(s)
    ensures Sentinels(s.log) == (if s.ended then 1 else 0)
  {
    if s.ended {
      var n := |s.log| - 1;
      assert s.log == s.log[..n] + [s.log[n]];
      NoSentinel(s.log[..n]);
      PayloadsAppend(s.log[..n], [s.log[n]]);
    } else {
      NoSentinel(s.log);
    }
  }

  /** `push_delta`: appends the delta while the stream is open, and is a no-op
      once it has ended. */
  function PushDelta(s: Stream, delta: string): (r: Stream)
    ensures s.ended ==> r == s
    ensures !s.ended ==> r == s.(log := s.log + [Some(delta)])
    ensures Valid(s) ==> Valid(r)
  {
    if s.ended then s else s.(log := s.log + [Some(delta)])
  }

  /** `end_stream`: the first call sets the flag and enqueues the sentinel;
      later calls change nothing, so a valid stream holds exactly one sentinel
      afterwards. */
  function EndStream(s: Stream): (r: Stream)
    ensures r.ended && r.taken == s.taken
    ensures s.ended ==> r == s
    ensures !s.ended ==> r.log == s.log + [None]
    ensures Valid(s) ==> Valid(r) && Sentinels(r.log) == 1
  {
    var r := if s.ended then s else Stream(s.log + [None], s.taken, true);
    if Valid(s) then SentinelAtMostOnce(r); r else r
  }

  lemma EndStreamIdempotent(s: Stream)
    ensures EndStream(EndStream(s)) == EndStream(s)
  {
  }

  /** `ChatStreamContext.__aexit__`: leaving the `async with` block ends the
      stream, whether or not the producer already did and whatever raised. */
  function Exit(s: Stream): (r: Stream)
    ensures r.ended && r.taken == s.taken
    ensures s.ended ==> r == s
    ensures Valid(s) ==> Valid(r) && Sentinels(r.log) == 1
  {
    EndStream(s)
  }

  /** Where the consumer (the `async for` over the stream) stands: at the
      `while not self._ended` check, waiting in `queue.get()`, or finished. */
  datatype Phase = AtCheck | InGet | Finished

  /** One run of the consumer over the queue: the texts it yielded, how many
      entries it took, and whether its loop ended. */
  datatype Run = Run(items: seq<string>, count: nat, finished: bool)

  lemma PayloadsCons(e: Entry, rest: seq<Entry>)
    ensures Payloads([e] + rest) == (if e.Some? then [e.value] else []) + Payloads(rest)
  {
    assert ([e] + rest)[0] == e && ([e] + rest)[1..] == rest;
  }

  /** The consumer the sentinel protocol calls for, waiting in `queue.get()`:
      it takes entries until the first sentinel, yielding every delta before
      it in order, and otherwise empties the queue and waits. */
  function DrainQueue(q: seq<Entry>): (r: Run)
    ensures r.count <= |q|
    ensures r.items == Payloads(q[..r.count])
    ensures r.finished <==> None in q
    ensures r.finished ==> 0 < r.count && q[r.count - 1] == None && None !in q[..r.count - 1]
    ensures !r.finished ==> r.count == |q|
  {
    if |q| == 0 then Run([], 0, false)
    else
      match q[0]
      case None =>
        assert q[..1] == [None];
        Run([], 1, true)
      case Some(d) =>
        var rest := DrainQueue(q[1..]);
        assert q[..rest.count + 1] == [q[0]] + q[1..][..rest.count];
        assert rest.finished ==> q[..rest.count] == [q[0]] + q[1..][..rest.count - 1];
        assert q == [q[0]] + q[1..];
        PayloadsCons(q[0], q[1..][..rest.count]);
        Run([d] + rest.items, rest.count + 1, rest.finished)
  }

  /** `CustomChatStream.__aiter__` as written, waiting in `queue.get()`: like
      the draining consumer, except that after each delta it checks the flag
      and stops once the producer has ended, even with deltas still queued. */
  function PullQueue(q: seq<Entry>, ended: bool): (r: Run)
    ensures r.count <= |q|
    ensures r.items == Payloads(q[..r.count])
    ensures r.finished ==> 0 < r.count && (q[r.count - 1] == None || ended) && None !in q[..r.count - 1]
    ensures !r.finished ==> r.count == |q| && None !in q
    ensures ended && q != [] ==> r.count == 1 && r.finished
  {
    if |q| == 0 then Run([], 0, false)
    else
      match q[0]
      case None =>
        assert q[..1] == [None];
        Run([], 1, true)
      case Some(d) =>
        if ended then
          assert q[..1] == [q[0]];
          PayloadsCons(q[0], []);
          Run([d], 1, true)
        else
          var rest := PullQueue(q[1..], ended);
          assert q[..rest.count + 1] == [q[0]] + q[1..][..rest.count];
          assert rest.finished ==> q[..rest.count] == [q[0]] + q[1..][..rest.count - 1];
          assert q == [q[0]] + q[1..];
          PayloadsCons(q[0], q[1..][..rest.count]);
          Run([d] + rest.items, rest.count + 1, rest.finished)
  }

  /** While the producer has not ended, the as-written consumer is the
      draining one. */
  lemma {:induction false} PullOpenIsDrain(q: seq<Entry>)
    ensures PullQueue(q, false) == DrainQueue(q)
  {
    if q != [] && q[0].Some? {
      PullOpenIsDrain(q[1..]);
    }
  }

  /** The as-written consumer never yields more than the draining one would,
      and what it yields is a prefix of that. */
  lemma {:induction false} PullIsPrefixOfDrain(q: seq<Entry>, ended: bool)
    ensures PullQueue(q, ended).count <= DrainQueue(q).count
    ensures PullQueue(q, ended).items <= DrainQueue(q).items
  {
    if q != [] && q[0].Some? {
      PullIsPrefixOfDrain(q[1..], ended);
    }
  }

  /** What a consumer run yielded, and where it left the stream and itself. */
  datatype Pulled = Pulled(items: seq<string>, stream: Stream, phase: Phase)

  /** The stream and phase after a run over its queue. */
  function After(s: Stream, r: Run): (out: Pulled)
    requires s.taken <= |s.log| && r.count <= |Queue(s)|
    ensures out.stream == s.(taken := s.taken + r.count) && out.stream.taken <= |s.log|
    ensures out.items == r.items && out.phase != AtCheck
  {
    Pulled(r.items, s.(taken := s.taken + r.count), if r.finished then Finished else InGet)
  }

  /** The as-written consumer from where it stands: at the loop check it stops
      at once if the flag is set. */
  function Pull(s: Stream, p: Phase): (r: Pulled)
    requires s.taken <= |s.log|
    ensures r.stream == s.(taken := r.stream.taken) && s.taken <= r.stream.taken <= |s.log|
    ensures r.phase != AtCheck
    ensures p == Finished || (p == AtCheck && s.ended) ==> r == Pulled([], s, Finished)
  {
    if p == Finished || (p == AtCheck && s.ended) then Pulled([], s, Finished)
    else After(s, PullQueue(Queue(s), s.ended))
  }

  /** The draining consumer from where it stands. */
  function Drain(s: Stream, p: Phase): (r: Pulled)
    requires s.taken <= |s.log|
    ensures r.stream == s.(taken := r.stream.taken) && s.taken <= r.stream.taken <= |s.log|
    ensures r.phase != AtCheck
    ensures p == Finished ==> r == Pulled([], s, Finished)
  {
    if p == Finished then Pulled([], s, Finished) else After(s, DrainQueue(Queue(s)))
  }

  /** Entering the `async for` over a new stream: the flag is not set, so the
      consumer goes on to wait in `queue.get()` with nothing taken. */
  lemma FreshStart()
    ensures Valid(Fresh)
    ensures Drain(Fresh, AtCheck) == Pulled([], Fresh, InGet)
  {
    assert Queue(Fresh) == [];
  }

  /** Once the producer has ended a valid stream, the draining consumer yields
      every delta still queued and consumes the sentinel. */
  lemma DrainEndedStream(s: Stream, p: Phase)
    requires Valid(s) && s.ended && s.taken < |s.log| && p != Finished
    ensures Drain(s, p).phase == Finished
    ensures Drain(s, p).stream.taken == |s.log|
    ensures Drain(s, p).items == Payloads(Queue(s))
  {
    var q := Queue(s);
    var last := |s.log| - 1;
    assert s.log[last].None? by {
      var k :| 0 <= k < |s.log| && s.log[k] == None;
      assert k == last;
    }
    assert q[|q| - 1] == None;
    var r := DrainQueue(q);
    assert s.log[s.taken + r.count - 1] == q[r.count - 1];
    assert r.count == |q|;
    assert q[..|q|] == q;
  }

  /** When the producer hands over one entry at a time (the consumer runs
      between any two puts), the as-written consumer and the draining one
      behave identically. */
  lemma PullAgreesWithDrainOneAtATime(s: Stream)
    requires Valid(s) && |Queue(s)| <= 1
    ensures Pull(s, InGet) == Drain(s, InGet)
  {
    var q := Queue(s);
    if q != [] && q[0].Some? {
      assert s.log[|s.log| - 1] == q[0];
      assert !s.ended;
    }
    if !s.ended {
      PullOpenIsDrain(q);
    }
  }

  /** The producer has put two deltas and ended before the consumer, waiting in
      `queue.get()`, runs again: the as-written consumer yields the first delta,
      then meets the set flag at its loop check and drops the second, while the
      draining consumer yields both. */
  lemma PullDropsQueuedDelta()
    ensures var s := Stream([Some("a"), Some("b"), None], 0, true);
      && Valid(s)
      && Pull(s, InGet).items == ["a"]
      && Drain(s, InGet).items == ["a", "b"]
  {
    var s := Stream([Some("a"), Some("b"), None], 0, true);
    assert s.log[2] == None;
    DrainEndedStream(s, InGet);
    assert Queue(s) == [Some("a")] + [Some("b")] + [None];
    PayloadsAppend([Some("a")] + [Some("b")], [None]);
    PayloadsAppend([Some("a")], [Some("b")]);
    assert Queue(s)[..1] == [Some("a")];
  }

  /** The texts that are not empty, in order (`if part.text:` in the producer,
      `if chunk:` in the consumer). */
  function NonEmpty(parts: seq<string>): seq<string> {
    if parts == [] then [] else (if parts[0] != "" then [parts[0]] else []) + NonEmpty(parts[1..])
  }

  /** One consumer run: the draining consumer, or the one as written. */
  function Consume(s: Stream, p: Phase, drains: bool): Pulled
    requires s.taken <= |s.log|
  {
    if drains then Drain(s, p) else Pull(s, p)
  }

  /** The producer `_generate_chunks` against a consumer that runs between any
      two puts: each non-empty part is pushed and then consumed, and once the
      parts run out (the reply is complete, or the provider raised and the
      exception was swallowed) the producer ends the stream and the consumer
      runs a last time. */
  function Converse(s: Stream, p: Phase, parts: seq<string>, drains: bool): (r: Pulled)
    requires s.taken <= |s.log|
    ensures r.stream.taken <= |r.stream.log|
    decreases |parts|
  {
    if parts == [] then
      Consume(EndStream(s), p, drains)
    else
      var pushed := if parts[0] != "" then PushDelta(s, parts[0]) else s;
      var now := Consume(pushed, p, drains);
      var rest := Converse(now.stream, now.phase, parts[1..], drains);
      Pulled(now.items + rest.items, rest.stream, rest.phase)
  }

  /** The queue entries of a sequence of deltas. */
  function AsEntries(deltas: seq<string>): (r: seq<Entry>)
    ensures |r| == |deltas| && forall k :: 0 <= k < |r| ==> r[k] == Some(deltas[k])
  {
    seq(|deltas|, k requires 0 <= k < |deltas| => Some(deltas[k]))
  }

  lemma AsEntriesAppend(a: seq<string>, b: seq<string>)
    ensures AsEntries(a + b) == AsEntries(a) + AsEntries(b)
  {
    assert forall k :: 0 <= k < |a + b| ==> AsEntries(a + b)[k] == (AsEntries(a) + AsEntries(b))[k];
  }

  lemma Regroup<T>(a: seq<T>, b: seq<T>, c: seq<T>, d: seq<T>)
    ensures (a + b) + c + d == a + (b + c) + d
  {
  }

  /** One producer step on an open, emptied stream, followed by a consumer run. */
  lemma OpenStep(s: Stream, part: string)
    requires Valid(s) && !s.ended && s.taken == |s.log|
    ensures var pushed := if part != "" then PushDelta(s, part) else s;
      var now := Drain(pushed, InGet);
      && now == Pull(pushed, InGet)
      && now.phase == InGet
      && now.items == (if part != "" then [part] else [])
      && now.stream == Stream(s.log + AsEntries(now.items), |s.log + AsEntries(now.items)|, false)
  {
    var pushed := if part != "" then PushDelta(s, part) else s;
    PullAgreesWithDrainOneAtATime(pushed);
    assert pushed.log[|s.log|..] == AsEntries(if part != "" then [part] else []);
  }

  /** The producer's final step: ending the stream, followed by a consumer run. */
  lemma CloseStep(s: Stream)
    requires Valid(s) && !s.ended && s.taken == |s.log|
    ensures var now := Drain(EndStream(s), InGet);
      && now == Pull(EndStream(s), InGet)
      && now.phase == Finished
      && now.items == []
      && now.stream == Stream(s.log + [None], |s.log| + 1, true)
  {
    var e := EndStream(s);
    PullAgreesWithDrainOneAtATime(e);
    DrainEndedStream(e, InGet);
    assert Queue(e) == [None];
  }

  /** A consumer waiting on an open stream it has emptied receives every
      non-empty part, in order, and finishes on the sentinel; the stream ends
      holding exactly those deltas followed by one sentinel, all taken. */
  lemma {:induction false} ConverseDelivers(s: Stream, parts: seq<string>)
    requires Valid(s) && !s.ended && s.taken == |s.log|
    ensures var r := Converse(s, InGet, parts, true);
      && r.items == NonEmpty(parts)
      && r.phase == Finished
      && r.stream.log == s.log + AsEntries(NonEmpty(parts)) + [None]
      && r.stream.ended && r.stream.taken == |r.stream.log|
    decreases |parts|
  {
    if parts == [] {
      CloseStep(s);
    } else {
      OpenStep(s, parts[0]);
      var pushed := if parts[0] != "" then PushDelta(s, parts[0]) else s;
      var now := Drain(pushed, InGet);
      var head := if parts[0] != "" then [parts[0]] else [];
      assert now.items == head && now.phase == InGet;
      assert now.stream == Stream(s.log + AsEntries(head), |s.log + AsEntries(head)|, false);
      ConverseDelivers(now.stream, parts[1..]);
      var rest := Converse(now.stream, InGet, parts[1..], true);
      assert Converse(s, InGet, parts, true) == Pulled(head + rest.items, rest.stream, rest.phase);
      assert NonEmpty(parts) == head + NonEmpty(parts[1..]);
      var tail := AsEntries(NonEmpty(parts[1..]));
      AsEntriesAppend(head, NonEmpty(parts[1..]));
      assert rest.stream.log == (s.log + AsEntries(head)) + tail + [None];
      Regroup(s.log, AsEntries(head), tail, [None]);
    }
  }

  /** Under the same schedule the as-written consumer behaves exactly as the
      draining one. */
  lemma {:induction false} ConverseAsWrittenAgrees(s: Stream, parts: seq<string>)
    requires Valid(s) && !s.ended && s.taken == |s.log|
    ensures Converse(s, InGet, parts, false) == Converse(s, InGet, parts, true)
    decreases |parts|
  {
    if parts == [] {
      CloseStep(s);
    } else {
      OpenStep(s, parts[0]);
      var pushed := if parts[0] != "" then PushDelta(s, parts[0]) else s;
      var now := Drain(pushed, InGet);
      assert Valid(now.stream);
      ConverseAsWrittenAgrees(now.stream, parts[1..]);
    }
  }
}
