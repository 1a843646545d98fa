/**
 The per-source rate limiter of relay/oauth.py.  Buckets are lists of event times; the
 table of buckets is bounded by evicting the source whose oldest event is earliest.
 */
module SlidingWindow {

  type Time = real

  /** The address a request came from, by name. */
  type Source = nat

  datatype Event = Event(source: Source, at: Time)

  ghost predicate Sorted(ts: seq<Time>) {
    forall i, j :: 0 <= i < j < |ts| ==> ts[i] <= ts[j]
  }

  /** What popping the events before the cutoff from the left leaves. */
  function Prune(ts: seq<Time>, cutoff: Time): seq<Time> {
    if ts != [] && ts[0] < cutoff then Prune(ts[1..], cutoff) else ts
  }

  function Bucket(events: map<Source, seq<Time>>, key: Source): seq<Time> {
    if key in events then events[key] else []
  }

  function Without(events: map<Source, seq<Time>>, key: Source): map<Source, seq<Time>> {
    map k | k in events && k != key :: events[k]
  }

  /** The table with one bucket pruned; an empty bucket is dropped. */
  function PrunedAt(events: map<Source, seq<Time>>, key: Source, cutoff: Time): map<Source, seq<Time>> {
    var b := Prune(Bucket(events, key), cutoff);
    if b == [] then Without(events, key) else events[key := b]
  }

  function PrunedAll(events: map<Source, seq<Time>>, cutoff: Time): map<Source, seq<Time>> {
    map k | k in events && Prune(events[k], cutoff) != [] :: Prune(events[k], cutoff)
  }

  /** Whether the limiter lets the source through, by its pruned table. */
  predicate Allows(events: map<Source, seq<Time>>, maxEvents: nat, key: Source) {
    key in events ==> |events[key]| < maxEvents
  }

  // -------------------------------------------------------- against the full log

  /** The times recorded for a source, by the full log. */
  function Times(log: seq<Event>, key: Source): seq<Time> {
    if log == [] then []
    else
      var last := log[|log| - 1];
      Times(log[..|log| - 1], key) + if last.source == key then [last.at] else []
  }

  /** How many of the times are not before the cutoff. */
  function CountSince(ts: seq<Time>, cutoff: Time): nat {
    if ts == [] then 0 else (if ts[0] >= cutoff then 1 else 0) + CountSince(ts[1..], cutoff)
  }

  lemma {:induction false} CountGrows(ts: seq<Time>, at: Time, cutoff: Time)
    ensures CountSince(ts + [at], cutoff) == CountSince(ts, cutoff) + if at >= cutoff then 1 else 0
  {
    if ts != [] {
      CountGrows(ts[1..], at, cutoff);
      assert (ts + [at])[1..] == ts[1..] + [at];
    }
  }

  lemma {:induction false} CountAll(ts: seq<Time>, cutoff: Time)
    requires forall i :: 0 <= i < |ts| ==> ts[i] >= cutoff
    ensures CountSince(ts, cutoff) == |ts|
  {
    if ts != [] { CountAll(ts[1..], cutoff); }
  }

  lemma {:induction false} CountOfSuffix(ts: seq<Time>, k: nat, cutoff: Time)
    requires k <= |ts|
    ensures CountSince(ts[k..], cutoff) <= CountSince(ts, cutoff)
  {
    if k > 0 {
      CountOfSuffix(ts[1..], k - 1, cutoff);
      assert ts[1..][k - 1..] == ts[k..];
    }
  }

  /** Pruning loses no event from its cutoff on. */
  lemma {:induction false} PruneCounts(ts: seq<Time>, cutoff: Time, c: Time)
    ensures CountSince(Prune(ts, cutoff), c) <= CountSince(ts, c)
    ensures c >= cutoff ==> CountSince(Prune(ts, cutoff), c) == CountSince(ts, c)
  {
    if ts != [] && ts[0] < cutoff { PruneCounts(ts[1..], cutoff, c); }
  }

  lemma {:induction false} PruneSorted(ts: seq<Time>, cutoff: Time)
    requires Sorted(ts)
    ensures Sorted(Prune(ts, cutoff)) && |Prune(ts, cutoff)| == CountSince(ts, cutoff)
  {
    if ts != [] && ts[0] < cutoff { PruneSorted(ts[1..], cutoff); } else { CountAll(ts, cutoff); }
  }

  /** A bucket never shows more events than its source had, and if the source kept its bucket
      it shows every event from the horizon on. */
  ghost predicate Follows(b: seq<Time>, ts: seq<Time>, kept: bool, horizon: Time) {
    && Sorted(b)
    && (forall c :: CountSince(b, c) <= CountSince(ts, c))
    && (kept ==> forall c :: c >= horizon ==> CountSince(b, c) == CountSince(ts, c))
  }

  ghost predicate OrderedUpTo(ts: seq<Time>, now: Time) {
    && Sorted(ts)
    && forall i :: 0 <= i < |ts| ==> ts[i] <= now
  }

  /** What a source's bucket has to do with its logged times at time `now`. */
  ghost predicate Tracks(b: seq<Time>, ts: seq<Time>, kept: bool, horizon: Time, now: Time) {
    OrderedUpTo(ts, now) && OrderedUpTo(b, now) && Follows(b, ts, kept, horizon)
  }

  lemma {:induction false} PruneTracks(b: seq<Time>, ts: seq<Time>, kept: bool, horizon: Time, now: Time, cutoff: Time)
    requires Tracks(b, ts, kept, horizon, now) && horizon <= cutoff
    ensures Tracks(Prune(b, cutoff), ts, kept, cutoff, now)
  {
    PruneSorted(b, cutoff);
    PruneUpTo(b, cutoff, now);
    forall c { PruneCounts(b, cutoff, c); }
  }

  lemma {:induction false} PruneUpTo(ts: seq<Time>, cutoff: Time, now: Time)
    requires OrderedUpTo(ts, now)
    ensures OrderedUpTo(Prune(ts, cutoff), now)
  {
    if ts != [] && ts[0] < cutoff { PruneUpTo(ts[1..], cutoff, now); }
  }

  lemma {:induction false} RecordTracks(b: seq<Time>, ts: seq<Time>, kept: bool, horizon: Time, now: Time)
    requires Tracks(b, ts, kept, horizon, now)
    ensures Tracks(b + [now], ts + [now], kept, horizon, now)
  {
    forall c ensures CountSince(b + [now], c) == CountSince(b, c) + if now >= c then 1 else 0 { CountGrows(b, now, c); }
    forall c ensures CountSince(ts + [now], c) == CountSince(ts, c) + if now >= c then 1 else 0 { CountGrows(ts, now, c); }
  }

  lemma {:induction false} TimesGrow(log: seq<Event>, key: Source, now: Time, k: Source)
    ensures Times(log + [Event(key, now)], k) == if k == key then Times(log, k) + [now] else Times(log, k)
  {
    var grown := log + [Event(key, now)];
    assert grown[..|grown| - 1] == log;
  }

  // ------------------------------------------------------------- the interval bound

  /** No more than n of the times lie in any closed interval of the window's length. */
  ghost predicate Spread(ts: seq<Time>, n: nat, window: Time) {
    forall i, j :: 0 <= i <= j < |ts| && ts[j] - ts[i] <= window ==> j - i + 1 <= n
  }

  lemma {:induction false} CountFromIndex(ts: seq<Time>, i: nat, cutoff: Time)
    requires Sorted(ts) && i < |ts| && ts[i] >= cutoff
    ensures CountSince(ts, cutoff) >= |ts| - i
  {
    CountOfSuffix(ts, i, cutoff);
    CountAll(ts[i..], cutoff);
  }

  lemma {:induction false} SpreadGrows(ts: seq<Time>, n: nat, window: Time, now: Time)
    requires Sorted(ts) && Spread(ts, n, window) && CountSince(ts, now - window) < n
    requires forall i :: 0 <= i < |ts| ==> ts[i] <= now
    ensures Spread(ts + [now], n, window)
  {
    var us := ts + [now];
    forall i, j | 0 <= i <= j < |us| && us[j] - us[i] <= window ensures j - i + 1 <= n {
      if j < |ts| {
        assert ts[j] - ts[i] <= window;
      } else if i < |ts| {
        CountFromIndex(ts, i, now - window);
      }
    }
  }

  function CountIn(ts: seq<Time>, from: Time, to: Time): nat {
    if ts == [] then 0 else (if from <= ts[0] <= to then 1 else 0) + CountIn(ts[1..], from, to)
  }

  lemma {:induction false} IntervalEnds(ts: seq<Time>, from: Time, to: Time) returns (i: nat, j: nat)
    requires CountIn(ts, from, to) > 0
    ensures i <= j < |ts| && from <= ts[i] && ts[j] <= to
    ensures j - i + 1 >= CountIn(ts, from, to)
  {
    if from <= ts[0] <= to && CountIn(ts[1..], from, to) == 0 {
      i, j := 0, 0;
    } else {
      i, j := IntervalEnds(ts[1..], from, to);
      i, j := if from <= ts[0] <= to then 0 else i + 1, j + 1;
    }
  }

  /** Kept spacing means: any closed interval of the window's length holds at most n events. */
  lemma {:induction false} SpreadBoundsEveryInterval(ts: seq<Time>, n: nat, window: Time, from: Time)
    requires Spread(ts, n, window)
    ensures CountIn(ts, from, from + window) <= n
  {
    if CountIn(ts, from, from + window) > 0 {
      var i, j := IntervalEnds(ts, from, from + window);
      assert ts[j] - ts[i] <= window;
    }
  }

  lemma {:induction false} Fewer<T>(a: set<T>, b: set<T>)
    requires a <= b
    ensures |a| <= |b|
  {
    assert a + (b - a) == b;
  }

  lemma {:induction false} AlreadyPruned(events: map<Source, seq<Time>>, key: Source, cutoff: Time)
    ensures PrunedAt(PrunedAll(events, cutoff), key, cutoff) == PrunedAll(events, cutoff)
  {
    var b := Bucket(PrunedAll(events, cutoff), key);
    if b != [] { PruneTwice(events[key], cutoff); }
  }

  lemma {:induction false} PruneTwice(ts: seq<Time>, cutoff: Time)
    ensures Prune(Prune(ts, cutoff), cutoff) == Prune(ts, cutoff)
  {
    if ts != [] && ts[0] < cutoff { PruneTwice(ts[1..], cutoff); }
  }

  /** A source whose oldest event is earliest: the one evicted when there is no room. */
  ghost predicate Earliest(events: map<Source, seq<Time>>, victim: Source)
    requires forall k :: k in events ==> events[k] != []
  {
    victim in events && forall k :: k in events ==> events[victim][0] <= events[k][0]
  }

  // ------------------------------------------------------------------ whole runs

  datatype Limits = Limits(maxEvents: nat, window: Time, maxSources: nat) {
    ghost predicate Sane() {
      maxEvents > 0 && maxSources > 0 && window >= 0.0
    }
  }

  /** The table after an event is noted: everything stale is swept, and a new source that finds
      the table full takes the place of the earliest one. */
  function Noted(events: map<Source, seq<Time>>, limits: Limits, key: Source, now: Time, victim: Source): map<Source, seq<Time>> {
    var swept := PrunedAll(events, now - limits.window);
    var room := if Crowded(swept, limits, key) then Without(swept, victim) else swept;
    room[key := Bucket(room, key) + [now]]
  }

  predicate Crowded(swept: map<Source, seq<Time>>, limits: Limits, key: Source) {
    key !in swept && |swept| >= limits.maxSources
  }

  datatype Call =
    | Ask(key: Source, now: Time)
    | Note(key: Source, now: Time, victim: Source)

  /** The table beside what really happened: the full log, the sources that lost their record,
      and the time before which events may have been forgotten. */
  datatype Book = Book(events: map<Source, seq<Time>>, log: seq<Event>, lost: set<Source>, horizon: Time, clock: Time)

  ghost predicate Legal(b: Book, limits: Limits, call: Call) {
    && b.clock <= call.now
    && (call.Note? && Crowded(PrunedAll(b.events, call.now - limits.window), limits, call.key) ==>
          Earliest(PrunedAll(b.events, call.now - limits.window), call.victim))
  }

  function Next(b: Book, limits: Limits, call: Call): Book {
    var cutoff := call.now - limits.window;
    match call
    case Ask(key, now) => b.(events := PrunedAt(b.events, key, cutoff), horizon := cutoff, clock := now)
    case Note(key, now, victim) =>
      Book(Noted(b.events, limits, key, now, victim), b.log + [Event(key, now)],
           if Crowded(PrunedAll(b.events, cutoff), limits, key) then b.lost + {victim} else b.lost, cutoff, now)
  }

  /** The book is right about one source. */
  ghost predicate RightAbout(b: Book, limits: Limits, k: Source) {
    && Tracks(Bucket(b.events, k), Times(b.log, k), k !in b.lost, b.horizon, b.clock)
    && b.horizon <= b.clock - limits.window
  }

  predicate AllowedBy(b: Book, limits: Limits, key: Source, now: Time) {
    Allows(PrunedAt(b.events, key, now - limits.window), limits.maxEvents, key)
  }

  /** A refused source really has the full number of events in the window; one that never lost
      its record is refused exactly then. */
  lemma {:induction false} RefusesByTheLog(b: Book, limits: Limits, key: Source, now: Time)
    requires limits.Sane() && RightAbout(b, limits, key) && b.clock <= now
    ensures !AllowedBy(b, limits, key, now) ==> CountSince(Times(b.log, key), now - limits.window) >= limits.maxEvents
    ensures key !in b.lost ==>
              (AllowedBy(b, limits, key, now) <==> CountSince(Times(b.log, key), now - limits.window) < limits.maxEvents)
  {
    PruneSorted(Bucket(b.events, key), now - limits.window);
  }

  lemma {:induction false} BucketAfterNote(events: map<Source, seq<Time>>, limits: Limits, key: Source, now: Time, victim: Source, k: Source)
    ensures var swept := PrunedAll(events, now - limits.window);
            Bucket(Noted(events, limits, key, now, victim), k)
            == (if Crowded(swept, limits, key) && k == victim then [] else Prune(Bucket(events, k), now - limits.window))
               + (if k == key then [now] else [])
  {
    var swept := PrunedAll(events, now - limits.window);
    assert Bucket(swept, k) == Prune(Bucket(events, k), now - limits.window);
    var room := if Crowded(swept, limits, key) then Without(swept, victim) else swept;
    assert Bucket(room, k) == if Crowded(swept, limits, key) && k == victim then [] else Bucket(swept, k);
  }

  lemma {:induction false} AskStaysRight(b: Book, limits: Limits, key: Source, now: Time, k: Source)
    requires RightAbout(b, limits, k) && b.clock <= now && limits.Sane()
    ensures RightAbout(Next(b, limits, Ask(key, now)), limits, k)
  {
    var cutoff := now - limits.window;
    PruneTracks(Bucket(b.events, k), Times(b.log, k), k !in b.lost, b.horizon, now, cutoff);
    assert Bucket(PrunedAt(b.events, key, cutoff), k)
        == if k == key then Prune(Bucket(b.events, k), cutoff) else Bucket(b.events, k);
  }

  /** What noting an event does to the record of one source. */
  lemma {:induction false} NoteShape(b: Book, limits: Limits, key: Source, now: Time, victim: Source, k: Source)
    ensures var next := Next(b, limits, Note(key, now, victim));
            var evicted := Crowded(PrunedAll(b.events, now - limits.window), limits, key) && k == victim;
            && Bucket(next.events, k)
               == (if evicted then [] else Prune(Bucket(b.events, k), now - limits.window)) + (if k == key then [now] else [])
            && Times(next.log, k) == (if k == key then Times(b.log, k) + [now] else Times(b.log, k))
            && (k !in next.lost <==> k !in b.lost && !evicted)
            && next.horizon == now - limits.window && next.clock == now
  {
    var next := Next(b, limits, Note(key, now, victim));
    TimesGrow(b.log, key, now, k);
    BucketAfterNote(b.events, limits, key, now, victim, k);
    assert next.log == b.log + [Event(key, now)];
    assert next.events == Noted(b.events, limits, key, now, victim);
    assert Times(b.log, k) + [] == Times(b.log, k);
  }

  lemma {:induction false} NoteStaysRight(b: Book, limits: Limits, key: Source, now: Time, victim: Source, k: Source)
    requires RightAbout(b, limits, k) && b.clock <= now && limits.Sane()
    ensures RightAbout(Next(b, limits, Note(key, now, victim)), limits, k)
  {
    NoteShape(b, limits, key, now, victim, k);
    var next := Next(b, limits, Note(key, now, victim));
    var evicted := Crowded(PrunedAll(b.events, now - limits.window), limits, key) && k == victim;
    StepTracks(Bucket(b.events, k), Times(b.log, k), k !in b.lost, b.horizon, now, now - limits.window,
               evicted, k == key, Bucket(next.events, k), Times(next.log, k));
  }

  lemma {:induction false} StepTracks(b: seq<Time>, ts: seq<Time>, kept: bool, horizon: Time, now: Time, cutoff: Time,
                   evicted: bool, mine: bool, nextB: seq<Time>, nextTs: seq<Time>)
    requires Tracks(b, ts, kept, horizon, now) && horizon <= cutoff
    requires nextB == (if evicted then [] else Prune(b, cutoff)) + (if mine then [now] else [])
    requires nextTs == if mine then ts + [now] else ts
    ensures Tracks(nextB, nextTs, kept && !evicted, cutoff, now)
  {
    var bucket := if evicted then [] else Prune(b, cutoff);
    PruneTracks(b, ts, kept, horizon, now, cutoff);
    assert Tracks(bucket, ts, kept && !evicted, cutoff, now);
    RecordTracks(bucket, ts, kept && !evicted, cutoff, now);
    assert bucket + [] == bucket;
  }

  lemma {:induction false} NoteKeepsRate(b: Book, limits: Limits, key: Source, now: Time, victim: Source, k: Source)
    requires limits.Sane() && RightAbout(b, limits, k) && b.clock <= now
    requires k !in b.lost && Spread(Times(b.log, k), limits.maxEvents, limits.window)
    requires AllowedBy(b, limits, key, now)
    ensures Spread(Times(b.log + [Event(key, now)], k), limits.maxEvents, limits.window)
  {
    TimesGrow(b.log, key, now, k);
    if k == key {
      RefusesByTheLog(b, limits, key, now);
      SpreadGrows(Times(b.log, k), limits.maxEvents, limits.window, now);
    }
  }

  // -------------------------------------------------------------- the table's size

  ghost predicate InBounds(events: map<Source, seq<Time>>, limits: Limits) {
    && |events| <= limits.maxSources
    && forall k :: k in events ==> events[k] != []
  }

  lemma {:induction false} AskKeepsBounds(events: map<Source, seq<Time>>, limits: Limits, key: Source, now: Time)
    requires InBounds(events, limits)
    ensures InBounds(PrunedAt(events, key, now - limits.window), limits)
  {
    Fewer(PrunedAt(events, key, now - limits.window).Keys, events.Keys);
  }

  lemma {:induction false} NoteKeepsBounds(events: map<Source, seq<Time>>, limits: Limits, key: Source, now: Time, victim: Source)
    requires limits.Sane() && InBounds(events, limits)
    requires Crowded(PrunedAll(events, now - limits.window), limits, key) ==>
               victim in PrunedAll(events, now - limits.window)
    ensures InBounds(Noted(events, limits, key, now, victim), limits)
  {
    var swept := PrunedAll(events, now - limits.window);
    Fewer(swept.Keys, events.Keys);
    var noted := Noted(events, limits, key, now, victim);
    if Crowded(swept, limits, key) {
      assert Without(swept, victim).Keys == swept.Keys - {victim};
      assert noted.Keys == swept.Keys - {victim} + {key};
    } else {
      assert noted.Keys == swept.Keys + {key};
    }
  }

  /** A run of the limiter: time does not go back and the earliest source is the one evicted. */
  ghost predicate Lawful(b: Book, limits: Limits, calls: seq<Call>)
    decreases |calls|
  {
    calls == [] || (Legal(b, limits, calls[0]) && Lawful(Next(b, limits, calls[0]), limits, calls[1..]))
  }

  /** Events are noted only while the limiter allows them, as the service does. */
  predicate Obeys(b: Book, limits: Limits, calls: seq<Call>)
    decreases |calls|
  {
    calls == []
    || (&& (calls[0].Note? ==> AllowedBy(b, limits, calls[0].key, calls[0].now))
        && Obeys(Next(b, limits, calls[0]), limits, calls[1..]))
  }

  function After(b: Book, limits: Limits, calls: seq<Call>): Book
    decreases |calls|
  {
    if calls == [] then b else After(Next(b, limits, calls[0]), limits, calls[1..])
  }

  lemma {:induction false} LostStaysLost(b: Book, limits: Limits, calls: seq<Call>, k: Source)
    ensures k in b.lost ==> k in After(b, limits, calls).lost
    decreases |calls|
  {
    if calls != [] { LostStaysLost(Next(b, limits, calls[0]), limits, calls[1..], k); }
  }

  lemma {:induction false} RunKeepsRate(b: Book, limits: Limits, calls: seq<Call>, k: Source)
    requires limits.Sane() && RightAbout(b, limits, k) && Lawful(b, limits, calls) && Obeys(b, limits, calls)
    requires k !in After(b, limits, calls).lost && Spread(Times(b.log, k), limits.maxEvents, limits.window)
    ensures Spread(Times(After(b, limits, calls).log, k), limits.maxEvents, limits.window)
    decreases |calls|
  {
    LostStaysLost(b, limits, calls, k);
    if calls != [] {
      var call := calls[0];
      if call.Ask? {
        AskStaysRight(b, limits, call.key, call.now, k);
      } else {
        NoteStaysRight(b, limits, call.key, call.now, call.victim, k);
        NoteKeepsRate(b, limits, call.key, call.now, call.victim, k);
      }
      RunKeepsRate(Next(b, limits, call), limits, calls[1..], k);
    }
  }

  lemma {:induction false} RunStaysRight(b: Book, limits: Limits, calls: seq<Call>, k: Source)
    requires limits.Sane() && RightAbout(b, limits, k) && Lawful(b, limits, calls)
    ensures RightAbout(After(b, limits, calls), limits, k)
    decreases |calls|
  {
    if calls != [] {
      var call := calls[0];
      if call.Ask? {
        AskStaysRight(b, limits, call.key, call.now, k);
      } else {
        NoteStaysRight(b, limits, call.key, call.now, call.victim, k);
      }
      RunStaysRight(Next(b, limits, call), limits, calls[1..], k);
    }
  }

  lemma {:induction false} RunKeepsBounds(b: Book, limits: Limits, calls: seq<Call>)
    requires limits.Sane() && InBounds(b.events, limits) && Lawful(b, limits, calls)
    ensures InBounds(After(b, limits, calls).events, limits)
    decreases |calls|
  {
    if calls != [] {
      var call := calls[0];
      if call.Ask? {
        AskKeepsBounds(b.events, limits, call.key, call.now);
      } else {
        NoteKeepsBounds(b.events, limits, call.key, call.now, call.victim);
      }
      RunKeepsBounds(Next(b, limits, call), limits, calls[1..]);
    }
  }

  function Opening(limits: Limits, start: Time): Book {
    Book(map[], [], {}, start - limits.window, start)
  }

  /** From an empty table, whatever is asked and noted: no closed interval of the window's length
      holds more than max_events of a source that was never evicted. */
  lemma {:induction false} RateIsLimited(limits: Limits, start: Time, calls: seq<Call>, key: Source, from: Time)
    requires limits.Sane() && Lawful(Opening(limits, start), limits, calls) && Obeys(Opening(limits, start), limits, calls)
    requires key !in After(Opening(limits, start), limits, calls).lost
    ensures CountIn(Times(After(Opening(limits, start), limits, calls).log, key), from, from + limits.window)
            <= limits.maxEvents
  {
    RunKeepsRate(Opening(limits, start), limits, calls, key);
    SpreadBoundsEveryInterval(Times(After(Opening(limits, start), limits, calls).log, key),
                              limits.maxEvents, limits.window, from);
  }

  /** After any run the limiter answers by the full log, and the table is within its bound. */
  lemma {:induction false} AnswersByTheLog(limits: Limits, start: Time, calls: seq<Call>, key: Source, now: Time)
    requires limits.Sane() && Lawful(Opening(limits, start), limits, calls)
    requires After(Opening(limits, start), limits, calls).clock <= now
    ensures var end := After(Opening(limits, start), limits, calls);
            && |end.events| <= limits.maxSources
            && (!AllowedBy(end, limits, key, now) ==>
                  CountSince(Times(end.log, key), now - limits.window) >= limits.maxEvents)
            && (key !in end.lost ==>
                  (AllowedBy(end, limits, key, now) <==>
                   CountSince(Times(end.log, key), now - limits.window) < limits.maxEvents))
  {
    RunStaysRight(Opening(limits, start), limits, calls, key);
    RefusesByTheLog(After(Opening(limits, start), limits, calls), limits, key, now);
    RunKeepsBounds(Opening(limits, start), limits, calls);
  }

  // ------------------------------------------------- asking first, and noting what counts

  /** A request under the limiter: it asks, and if it is let through and counts, it is noted. */
  function Tried(b: Book, limits: Limits, key: Source, now: Time, counts: bool, victim: Source): Book {
    var asked := Next(b, limits, Ask(key, now));
    if AllowedBy(b, limits, key, now) && counts then Next(asked, limits, Note(key, now, victim)) else asked
  }

  ghost predicate TryLegal(b: Book, limits: Limits, key: Source, now: Time, counts: bool, victim: Source) {
    b.clock <= now && (AllowedBy(b, limits, key, now) && counts ==> Legal(Next(b, limits, Ask(key, now)), limits, Note(key, now, victim)))
  }

  /** The book is right about a source, and if the source never lost its record, no window was overrun. */
  ghost predicate Orderly(b: Book, limits: Limits, k: Source) {
    RightAbout(b, limits, k) && (k !in b.lost ==> Spread(Times(b.log, k), limits.maxEvents, limits.window))
  }

  lemma {:induction false} OrderlyAtFirst(limits: Limits, start: Time, k: Source)
    requires limits.Sane()
    ensures Orderly(Opening(limits, start), limits, k)
  {
  }

  /** Having asked does not change the answer. */
  lemma {:induction false} AskedTwice(b: Book, limits: Limits, key: Source, now: Time)
    ensures AllowedBy(Next(b, limits, Ask(key, now)), limits, key, now) == AllowedBy(b, limits, key, now)
  {
    PruneTwice(Bucket(b.events, key), now - limits.window);
  }

  lemma {:induction false} TriedIsOrderly(b: Book, limits: Limits, key: Source, now: Time, counts: bool, victim: Source, k: Source)
    requires limits.Sane() && Orderly(b, limits, k) && TryLegal(b, limits, key, now, counts, victim)
    ensures Orderly(Tried(b, limits, key, now, counts, victim), limits, k)
    ensures Tried(b, limits, key, now, counts, victim).clock == now
  {
    var asked := Next(b, limits, Ask(key, now));
    AskStaysRight(b, limits, key, now, k);
    if AllowedBy(b, limits, key, now) && counts {
      AskedTwice(b, limits, key, now);
      NoteStaysRight(asked, limits, key, now, victim, k);
      if k !in b.lost { NoteKeepsRate(asked, limits, key, now, victim, k); }
    }
  }

  lemma {:induction false} OrderlyMeans(b: Book, limits: Limits, k: Source, from: Time)
    requires Orderly(b, limits, k) && k !in b.lost
    ensures CountIn(Times(b.log, k), from, from + limits.window) <= limits.maxEvents
  {
    SpreadBoundsEveryInterval(Times(b.log, k), limits.maxEvents, limits.window, from);
  }

  // ------------------------------------------------------------------ the limiter itself

  class Limiter {
    const limits: Limits
    var events: map<Source, seq<Time>>

    constructor (limits: Limits)
      ensures this.limits == limits && events == map[]
    {
      this.limits, events := limits, map[];
    }

    method PruneBucket(key: Source, cutoff: Time)
      requires key in events
      modifies this
      ensures events == PrunedAt(old(events), key, cutoff)
    {
      var bucket := events[key];
      while bucket != [] && bucket[0] < cutoff
        invariant Prune(bucket, cutoff) == Prune(old(events[key]), cutoff)
        decreases |bucket|
      {
        bucket := bucket[1..];
      }
      if bucket == [] { events := Without(events, key); } else { events := events[key := bucket]; }
    }

    method SweepExpired(cutoff: Time)
      modifies this
      ensures events == PrunedAll(old(events), cutoff)
    {
      var keys := events.Keys;
      while keys != {}
        invariant keys <= old(events).Keys && keys <= events.Keys <= old(events).Keys
        invariant forall k :: k in keys ==> events[k] == old(events)[k]
        invariant forall k :: k in old(events) && k !in keys ==>
                    (k in events <==> Prune(old(events)[k], cutoff) != [])
        invariant forall k :: k in events && k !in keys ==> events[k] == Prune(old(events)[k], cutoff)
        decreases |keys|
      {
        var key :| key in keys;
        PruneBucket(key, cutoff);
        keys := keys - {key};
      }
    }

    /** Whether the source may go ahead now.  Only its own bucket is pruned. */
    method Allow(key: Source, now: Time) returns (ok: bool)
      requires forall k :: k in events ==> events[k] != []
      modifies this
      ensures events == PrunedAt(old(events), key, now - limits.window)
      ensures ok == Allows(events, limits.maxEvents, key)
    {
      if key !in events { return true; }
      PruneBucket(key, now - limits.window);
      if key !in events { return true; }
      ok := |events[key]| < limits.maxEvents;
    }

    /** The source whose first event is earliest. */
    method OldestSource() returns (victim: Source)
      requires events != map[] && forall k :: k in events ==> events[k] != []
      ensures Earliest(events, victim)
    {
      victim :| victim in events;
      var rest := events.Keys - {victim};
      while rest != {}
        invariant rest <= events.Keys && victim in events
        invariant forall k :: k in events && k !in rest ==> events[victim][0] <= events[k][0]
        decreases |rest|
      {
        var k :| k in rest;
        rest := rest - {k};
        if events[k][0] < events[victim][0] { victim := k; }
      }
    }

    /** Note one event of the source, making room for its bucket if needed. */
    method Record(key: Source, now: Time) returns (ghost victim: Source)
      requires limits.maxSources > 0
      modifies this
      ensures events == Noted(old(events), limits, key, now, victim)
      ensures var swept := PrunedAll(old(events), now - limits.window);
              key !in swept && |swept| >= limits.maxSources ==>
                && victim in swept && Earliest(swept, victim)
                && forall k :: k in swept && swept[k] != [] && swept[victim] != [] ==> swept[victim][0] <= swept[k][0]
    {
      var cutoff := now - limits.window;
      victim := key;
      SweepExpired(cutoff);
      if key in events {
        AlreadyPruned(old(events), key, cutoff);
        PruneBucket(key, cutoff);
      }
      if key !in events {
        if |events| >= limits.maxSources {
          var oldest := OldestSource();
          victim := oldest;
          events := Without(events, oldest);
        }
        events := events[key := []];
      }
      events := events[key := events[key] + [now]];
    }
  }
}
