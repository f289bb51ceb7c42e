/**
 How the uploader cuts a run of events into batches, and why no other in-order cut into
 batches the server accepts needs fewer of them.
 */
module Batching {
  import opened Inventory

  const BATCH_SIZE := 200
  const EVENT_OVERHEAD := 256
  const DEFAULT_MAX_BATCH_BYTES := 512 * 1024

  function EventSize(e: Event): nat {
    |e.payload| + EVENT_OVERHEAD
  }

  function Size(events: seq<Event>): nat {
    if events == [] then 0 else Size(events[..|events| - 1]) + EventSize(events[|events| - 1])
  }

  /** The payloads of the events, end to end. */
  function Payloads(events: seq<Event>): Bytes {
    if events == [] then [] else Payloads(events[..|events| - 1]) + events[|events| - 1].payload
  }

  /** A batch within both limits (256 bytes are reckoned for the rest of an event), or a single event however large. */
  predicate Legal(batch: seq<Event>, maxEvents: int, maxBytes: int) {
    |batch| == 1 || (0 < |batch| <= maxEvents && |Payloads(batch)| + 256 * |batch| <= maxBytes)
  }

  /** The running estimate is the payload bytes and the reckoned rest. */
  lemma {:induction false} SizeIsBytes(events: seq<Event>)
    ensures Size(events) == |Payloads(events)| + 256 * |events|
  {
    if events != [] {
      SizeIsBytes(events[..|events| - 1]);
    }
  }

  /**
   A batch cut off the front of a queue: at most 200 events, within the byte limit unless it is a
   single event, and closed only because of the next event.
   */
  predicate Filled(batch: seq<Event>, queue: seq<Event>, maxBytes: int) {
    && 0 < |batch| <= 200 && batch <= queue
    && (|batch| > 1 ==> |Payloads(batch)| + 256 * |batch| <= maxBytes)
    && (|batch| < |queue| ==>
          || |batch| == 200
          || |Payloads(queue[..|batch| + 1])| + 256 * (|batch| + 1) > maxBytes)
  }

  lemma FullIsFilled(queue: seq<Event>, maxBytes: int)
    requires queue != []
    ensures Filled(queue[..FullLen(queue, BATCH_SIZE, maxBytes)], queue, maxBytes)
  {
    var n := FullLen(queue, BATCH_SIZE, maxBytes);
    if n < |queue| {
      assert !Legal(queue[..n + 1], BATCH_SIZE, maxBytes);
    }
  }

  /** The longest legal prefix. */
  function FullLen(events: seq<Event>, maxEvents: int, maxBytes: int): (n: nat)
    requires events != []
    ensures 1 <= n <= |events| && Legal(events[..n], maxEvents, maxBytes)
    ensures forall m | n < m <= |events| :: !Legal(events[..m], maxEvents, maxBytes)
  {
    FullLenFrom(events, 1, maxEvents, maxBytes)
  }

  function FullLenFrom(events: seq<Event>, i: nat, maxEvents: int, maxBytes: int): (n: nat)
    requires 1 <= i <= |events| && Legal(events[..i], maxEvents, maxBytes)
    ensures i <= n <= |events| && Legal(events[..n], maxEvents, maxBytes)
    ensures forall m | n < m <= |events| :: !Legal(events[..m], maxEvents, maxBytes)
    decreases |events| - i
  {
    if i < |events| && i < maxEvents && |Payloads(events[..i + 1])| + 256 * (i + 1) <= maxBytes
    then FullLenFrom(events, i + 1, maxEvents, maxBytes)
    else
      assert forall m | i < m <= |events| :: !Legal(events[..m], maxEvents, maxBytes) by {
        forall m | i < m <= |events| ensures !Legal(events[..m], maxEvents, maxBytes) {
          PrefixSmaller(events, i + 1, m);
        }
      }
      i
  }

  lemma {:induction false} PrefixSmaller(events: seq<Event>, i: nat, m: nat)
    requires i <= m <= |events|
    ensures |Payloads(events[..i])| <= |Payloads(events[..m])|
    decreases m
  {
    if i < m {
      assert events[..m][..m - 1] == events[..m - 1];
      PrefixSmaller(events, i, m - 1);
    }
  }

  /** One more event fits. */
  lemma FitsOneMore(events: seq<Event>, i: nat, maxEvents: int, maxBytes: int)
    requires 1 <= i < |events| && i < maxEvents && Legal(events[..i], maxEvents, maxBytes)
    requires Size(events[..i]) + EventSize(events[i]) <= maxBytes
    ensures Size(events[..i + 1]) == Size(events[..i]) + EventSize(events[i])
    ensures Legal(events[..i + 1], maxEvents, maxBytes)
    ensures FullLenFrom(events, i, maxEvents, maxBytes) == FullLenFrom(events, i + 1, maxEvents, maxBytes)
  {
    assert events[..i + 1][..i] == events[..i];
    SizeIsBytes(events[..i + 1]);
  }

  /** No more events fit, or there are none. */
  lemma FitsNoMore(events: seq<Event>, i: nat, maxEvents: int, maxBytes: int)
    requires 1 <= i <= |events| && Legal(events[..i], maxEvents, maxBytes)
    requires i == |events| || i >= maxEvents || Size(events[..i]) + EventSize(events[i]) > maxBytes
    ensures FullLenFrom(events, i, maxEvents, maxBytes) == i
    ensures i < |events| ==> i >= maxEvents || |Payloads(events[..i + 1])| + 256 * (i + 1) > maxBytes
  {
    if i < |events| {
      assert events[..i + 1][..i] == events[..i];
      SizeIsBytes(events[..i + 1]);
    }
  }

  /** `batchLen`: count events and bytes until one of the limits closes the batch. */
  method BatchLen(events: seq<Event>, maxEvents: int, maxBytes: int) returns (i: nat)
    requires events != []
    ensures i == FullLen(events, maxEvents, maxBytes)
    ensures i > 1 ==> i <= maxEvents && |Payloads(events[..i])| + 256 * i <= maxBytes
    ensures i < |events| ==> i >= maxEvents || |Payloads(events[..i + 1])| + 256 * (i + 1) > maxBytes
  {
    var n := if maxEvents < |events| then maxEvents else |events|;
    var bytes := EventSize(events[0]);
    i := 1;
    assert events[..1][..0] == [];
    while i < n && bytes + EventSize(events[i]) <= maxBytes
      invariant 1 <= i <= |events| && bytes == Size(events[..i])
      invariant Legal(events[..i], maxEvents, maxBytes)
      invariant FullLen(events, maxEvents, maxBytes) == FullLenFrom(events, i, maxEvents, maxBytes)
      decreases n - i
    {
      FitsOneMore(events, i, maxEvents, maxBytes);
      bytes := bytes + EventSize(events[i]);
      i := i + 1;
    }
    FitsNoMore(events, i, maxEvents, maxBytes);
  }

  /** The batches the snapshot loop sends. */
  function Batches(events: seq<Event>, maxEvents: int, maxBytes: int): seq<seq<Event>> {
    if events == [] then []
    else
      var n := FullLen(events, maxEvents, maxBytes);
      [events[..n]] + Batches(events[n..], maxEvents, maxBytes)
  }

  function Flatten(parts: seq<seq<Event>>): seq<Event> {
    if parts == [] then [] else parts[0] + Flatten(parts[1..])
  }

  /** An in-order cut of the events into legal batches. */
  ghost predicate LegalCut(parts: seq<seq<Event>>, events: seq<Event>, maxEvents: int, maxBytes: int) {
    && Flatten(parts) == events
    && forall i | 0 <= i < |parts| :: Legal(parts[i], maxEvents, maxBytes)
  }

  lemma {:induction false} BatchesAreLegal(events: seq<Event>, maxEvents: int, maxBytes: int)
    ensures LegalCut(Batches(events, maxEvents, maxBytes), events, maxEvents, maxBytes)
  {
    if events != [] {
      var n := FullLen(events, maxEvents, maxBytes);
      BatchesAreLegal(events[n..], maxEvents, maxBytes);
      CutGrows(events[..n], events[n..], Batches(events[n..], maxEvents, maxBytes), maxEvents, maxBytes);
      assert events == events[..n] + events[n..];
    }
  }

  lemma CutGrows(first: seq<Event>, rest: seq<Event>, parts: seq<seq<Event>>, maxEvents: int, maxBytes: int)
    requires Legal(first, maxEvents, maxBytes) && LegalCut(parts, rest, maxEvents, maxBytes)
    ensures LegalCut([first] + parts, first + rest, maxEvents, maxBytes)
  {
    assert ([first] + parts)[1..] == parts;
  }

  lemma {:induction false} BytesOfSuffix(events: seq<Event>, k: nat)
    requires k <= |events|
    ensures |Payloads(events[k..])| <= |Payloads(events)|
  {
    if k < |events| {
      assert events[k..][..|events| - k - 1] == events[..|events| - 1][k..];
      BytesOfSuffix(events[..|events| - 1], k);
    }
  }

  /** Starting later never needs more batches. */
  lemma {:induction false} SuffixNeedsNoMore(events: seq<Event>, k: nat, maxEvents: int, maxBytes: int)
    requires k <= |events|
    ensures |Batches(events[k..], maxEvents, maxBytes)| <= |Batches(events, maxEvents, maxBytes)|
    decreases |events|
  {
    if k == 0 {
      assert events[k..] == events;
    } else if k < |events| {
      var n := FullLen(events, maxEvents, maxBytes);
      var rest := events[n..];
      if n <= k {
        assert events[k..] == rest[k - n..];
        SuffixNeedsNoMore(rest, k - n, maxEvents, maxBytes);
      } else {
        var s := events[k..];
        var m := FullLen(s, maxEvents, maxBytes);
        assert s[..n - k] == events[..n][k..];
        BytesOfSuffix(events[..n], k);
        assert Legal(s[..n - k], maxEvents, maxBytes);
        assert n - k <= m;
        assert s[m..] == rest[k + m - n..];
        SuffixNeedsNoMore(rest, k + m - n, maxEvents, maxBytes);
      }
    }
  }

  /** Filling each batch is optimal: every in-order cut into legal batches has at least as many. */
  lemma {:induction false} FillingIsOptimal(events: seq<Event>, parts: seq<seq<Event>>, maxEvents: int, maxBytes: int)
    requires LegalCut(parts, events, maxEvents, maxBytes)
    ensures |Batches(events, maxEvents, maxBytes)| <= |parts|
    decreases |parts|
  {
    if parts != [] {
      var n, k := FullLen(events, maxEvents, maxBytes), |parts[0]|;
      assert events[..k] == parts[0] && events[k..] == Flatten(parts[1..]);
      assert k <= n;
      FillingIsOptimal(events[k..], parts[1..], maxEvents, maxBytes);
      assert events[n..] == events[k..][n - k..];
      SuffixNeedsNoMore(events[k..], n - k, maxEvents, maxBytes);
    }
  }
}
