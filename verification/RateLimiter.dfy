/** The shared download rate limiter (src/rate_limiter.rs): callers reserve consecutive time slots under a
    lock, at a rate they have loaded before they take it. Time is real-valued seconds. */
module RateLimiter {
  import opened Widths
  import opened Wrappers

  /** One reservation: made at `now` with the rate its caller had loaded, for the time from `start` to `end`. */
  datatype Slot = Slot(bytes: nat, rate: nat, now: real, start: real, end: real)

  function DurationFor(bytes: nat, rate: nat): real
    requires rate > 0
  {
    bytes as real / rate as real
  }

  /** The slot is as long as its bytes take at its rate. */
  ghost predicate Timed(slot: Slot) {
    slot.bytes > 0 && slot.rate > 0 && slot.end == slot.start + DurationFor(slot.bytes, slot.rate)
  }

  function KibToBytes(limit: Option<u64>): u64 {
    match limit
    case Some(kib) => SatMul(kib, 1024)
    case None => 0
  }

  function BytesToKib(bytesPerSecond: u64): Option<u64> {
    if bytesPerSecond == 0 then None else Some(bytesPerSecond / 1024)
  }

  /** The configured limit is reported back unless it is too large to be counted in bytes. */
  lemma LimitRoundTrip(kib: u64)
    requires kib > 0
    ensures BytesToKib(KibToBytes(Some(kib))) == Some(kib) <==> kib <= U64_MAX / 1024
  {
  }

  // ---------------------------------------------------------------- schedules

  /** The reservations since the limit was last set, at `since`: each gets the first moment that is
      neither past nor taken. */
  ghost predicate Schedule(slots: seq<Slot>, since: real) {
    && (forall i {:trigger Timed(slots[i])} :: 0 <= i < |slots| ==> Timed(slots[i]))
    && (forall i :: 0 <= i < |slots| ==> slots[i].start < slots[i].end)
    && (slots != [] ==> slots[0].start == Later(since, slots[0].now))
    && (forall i, k :: 0 <= i && k == i + 1 && k < |slots| ==> slots[k].start == Later(slots[i].end, slots[k].now))
  }

  function Later(a: real, b: real): real { if a < b then b else a }

  /** When the next slot can begin. */
  ghost function NextFree(slots: seq<Slot>, since: real): real
    requires Schedule(slots, since)
  {
    if slots == [] then since else slots[|slots| - 1].end
  }

  lemma ScheduleOneMore(slots: seq<Slot>, since: real, slot: Slot)
    requires Schedule(slots, since) && Timed(slot)
    requires slot.start == Later(NextFree(slots, since), slot.now)
    ensures Schedule(slots + [slot], since)
  {
    var all := slots + [slot];
    assert forall i :: 0 <= i < |slots| ==> all[i] == slots[i];
    forall i | 0 <= i < |all|
      ensures Timed(all[i])
    {
      assert i < |slots| ==> Timed(slots[i]);
    }
    DurationPositive(slot);
  }

  lemma DurationPositive(slot: Slot)
    requires Timed(slot)
    ensures slot.start < slot.end
  {
  }

  /** Slots are disjoint and in the order in which they were reserved. */
  lemma {:induction false} SlotsAreDisjoint(slots: seq<Slot>, since: real, i: nat, j: nat)
    requires Schedule(slots, since) && i < j < |slots|
    ensures slots[i].end <= slots[j].start
    decreases j
  {
    if i + 1 < j {
      SlotsAreDisjoint(slots, since, i, j - 1);
    }
  }

  lemma {:induction false} SlotsFollowStart(slots: seq<Slot>, since: real, i: nat)
    requires Schedule(slots, since) && i < |slots|
    ensures since <= slots[i].start && slots[i].now <= slots[i].start
  {
    if i > 0 {
      SlotsFollowStart(slots, since, i - 1);
    }
  }

  function TotalBytes(slots: seq<Slot>, lo: nat, hi: nat): nat
    requires lo <= hi <= |slots|
    decreases hi - lo
  {
    if lo == hi then 0 else TotalBytes(slots, lo, hi - 1) + slots[hi - 1].bytes
  }

  /** No loaded rate exceeds `limit`. */
  ghost predicate RatesWithin(slots: seq<Slot>, lo: nat, hi: nat, limit: nat)
    requires hi <= |slots|
  {
    forall i :: lo <= i < hi ==> 0 < slots[i].rate <= limit
  }

  /** In `time` seconds at `limit` bytes per second, and one request of `extra` bytes on top. */
  ghost predicate WithinRate(bytes: nat, limit: nat, time: real, extra: nat) {
    bytes as real <= limit as real * time + extra as real
  }

  lemma Scale(l: real, x: real, y: real)
    requires l >= 0.0 && x <= y
    ensures l * x <= l * y
  {
    assert l * (y - x) >= 0.0;
  }

  lemma ScaleSum(l: real, x: real, y: real)
    ensures l * (x + y) == l * x + l * y
  {
  }

  lemma BytesOfSlot(slot: Slot, limit: nat)
    requires Timed(slot) && slot.rate <= limit
    ensures WithinRate(slot.bytes, limit, slot.end - slot.start, 0)
  {
    WorkAtRate(slot.bytes as real, slot.rate as real, limit as real);
  }

  lemma WorkAtRate(bytes: real, rate: real, limit: real)
    requires bytes >= 0.0 && 0.0 < rate <= limit
    ensures bytes <= limit * (bytes / rate)
  {
    var d := bytes / rate;
    assert d * rate == bytes;
    assert d >= 0.0;
    Scale(d, rate, limit);
    assert limit * d == d * limit;
  }

  /** Slots `lo` to `hi` begin at least as far apart as the bytes between them take at the limit. */
  lemma {:induction false} BytesTakeTime(slots: seq<Slot>, since: real, lo: nat, hi: nat, limit: nat)
    requires Schedule(slots, since) && lo <= hi < |slots| && RatesWithin(slots, lo, hi, limit)
    ensures WithinRate(TotalBytes(slots, lo, hi), limit, slots[hi].start - slots[lo].start, 0)
    decreases hi
  {
    if lo < hi {
      BytesTakeTime(slots, since, lo, hi - 1, limit);
      assert Timed(slots[hi - 1]);
      BytesOfSlot(slots[hi - 1], limit);
      OneSlotFurther(TotalBytes(slots, lo, hi - 1), slots[hi - 1].bytes, limit,
                     slots[lo].start, slots[hi - 1].start, slots[hi - 1].end, slots[hi].start);
    }
  }

  lemma OneSlotFurther(total: nat, bytes: nat, limit: nat, first: real, last: real, end: real, next: real)
    requires WithinRate(total, limit, last - first, 0) && WithinRate(bytes, limit, end - last, 0) && end <= next
    ensures WithinRate(total + bytes, limit, next - first, 0)
  {
    var l := limit as real;
    ScaleSum(l, last - first, end - last);
    assert last - first + (end - last) == end - first;
    Scale(l, end - first, next - first);
  }

  /** The throughput bound, for every window of time: the callers whose slots begin in `[from, to]` get at
      most `limit * (to - from)` bytes plus one request, as long as none of them had loaded a higher rate. */
  lemma WindowBound(slots: seq<Slot>, since: real, lo: nat, hi: nat, limit: nat, from: real, to: real)
    requires Schedule(slots, since) && lo < hi <= |slots| && RatesWithin(slots, lo, hi, limit)
    requires forall i :: lo <= i < hi ==> from <= slots[i].start <= to
    ensures WithinRate(TotalBytes(slots, lo, hi), limit, to - from, slots[hi - 1].bytes)
  {
    BytesTakeTime(slots, since, lo, hi - 1, limit);
    OneRequestMore(TotalBytes(slots, lo, hi - 1), slots[hi - 1].bytes, limit,
                   slots[hi - 1].start - slots[lo].start, to - from);
  }

  lemma OneRequestMore(total: nat, bytes: nat, limit: nat, time: real, window: real)
    requires WithinRate(total, limit, time, 0) && time <= window
    ensures WithinRate(total + bytes, limit, window, bytes)
  {
    Scale(limit as real, time, window);
  }

  /** The bound for every window that begins with one slot and ends with another. */
  ghost predicate WindowsWithin(slots: seq<Slot>, limit: nat) {
    forall lo, hi {:trigger TotalBytes(slots, lo, hi)} :: 0 <= lo < hi <= |slots| ==>
      WithinRate(TotalBytes(slots, lo, hi), limit, slots[hi - 1].start - slots[lo].start, slots[hi - 1].bytes)
  }

  lemma SlotStartsOrdered(slots: seq<Slot>, since: real, i: nat, j: nat)
    requires Schedule(slots, since) && i <= j < |slots|
    ensures slots[i].start <= slots[j].start
  {
    if i < j { SlotsAreDisjoint(slots, since, i, j); }
  }

  lemma AllWindows(slots: seq<Slot>, since: real, limit: nat)
    requires Schedule(slots, since) && RatesWithin(slots, 0, |slots|, limit)
    ensures WindowsWithin(slots, limit)
  {
    forall lo: nat, hi: nat {:trigger TotalBytes(slots, lo, hi)} | 0 <= lo < hi <= |slots|
      ensures WithinRate(TotalBytes(slots, lo, hi), limit, slots[hi - 1].start - slots[lo].start, slots[hi - 1].bytes)
    {
      forall i | lo <= i < hi
        ensures slots[lo].start <= slots[i].start <= slots[hi - 1].start
      {
        SlotStartsOrdered(slots, since, lo, i);
        SlotStartsOrdered(slots, since, i, hi - 1);
      }
      WindowBound(slots, since, lo, hi, limit, slots[lo].start, slots[hi - 1].start);
    }
  }

  /** How many of the first slots have begun by `time`; later ones have not. */
  lemma {:induction false} BegunBy(slots: seq<Slot>, since: real, time: real) returns (n: nat)
    requires Schedule(slots, since)
    ensures n <= |slots|
    ensures forall i :: 0 <= i < |slots| ==> (slots[i].start <= time <==> i < n)
    decreases |slots|
  {
    if slots == [] {
      n := 0;
    } else {
      var last := |slots| - 1;
      n := BegunBy(slots[..last], since, time);
      if slots[last].start <= time {
        n := |slots|;
        forall i | 0 <= i < last
          ensures slots[i].start <= time
        {
          SlotsAreDisjoint(slots, since, i, last);
        }
      }
    }
  }

  /** Since the limit was set, no more than `limit * (time - since)` bytes plus one request are released. */
  lemma ReleasedBy(slots: seq<Slot>, since: real, time: real, limit: nat) returns (n: nat)
    requires Schedule(slots, since) && RatesWithin(slots, 0, |slots|, limit)
    ensures n <= |slots| && forall i :: 0 <= i < |slots| ==> (slots[i].start <= time <==> i < n)
    ensures n > 0 ==> WithinRate(TotalBytes(slots, 0, n), limit, time - since, slots[n - 1].bytes)
  {
    n := BegunBy(slots, since, time);
    if n > 0 {
      forall i | 0 <= i < n
        ensures since <= slots[i].start <= time
      {
        SlotsFollowStart(slots, since, i);
      }
      WindowBound(slots, since, 0, n, limit, since, time);
    }
  }

  /** No caller waits longer than the bytes reserved before it take at the lowest loaded rate. */
  lemma {:induction false} LookaheadBound(slots: seq<Slot>, since: real, n: nat, rate: nat)
    requires Schedule(slots, since) && n < |slots| && rate > 0
    requires forall i :: 0 <= i < n ==> rate <= slots[i].rate
    requires forall i, k :: 0 <= i && k == i + 1 && k <= n ==> slots[i].now <= slots[k].now
    requires since <= slots[0].now
    ensures slots[n].start - slots[n].now <= TotalBytes(slots, 0, n) as real / rate as real
  {
    if n > 0 {
      LookaheadBound(slots, since, n - 1, rate);
      var prev := slots[n - 1];
      assert Timed(prev);
      DurationAtMost(prev, rate);
      SumOfQuotients(TotalBytes(slots, 0, n - 1), prev.bytes, rate);
      assert slots[n].start == Later(prev.end, slots[n].now);
      QuotientNonNegative(TotalBytes(slots, 0, n), rate);
    }
  }

  lemma QuotientNonNegative(a: nat, rate: nat)
    requires rate > 0
    ensures a as real / rate as real >= 0.0
  {
  }

  lemma SumOfQuotients(a: nat, b: nat, rate: nat)
    requires rate > 0
    ensures (a + b) as real / rate as real == a as real / rate as real + b as real / rate as real
  {
    var x, y, r := a as real / rate as real, b as real / rate as real, rate as real;
    assert (x + y) * r == x * r + y * r;
    assert (a + b) as real == a as real + b as real;
  }

  lemma DurationAtMost(slot: Slot, rate: nat)
    requires Timed(slot) && 0 < rate <= slot.rate
    ensures slot.end - slot.start <= slot.bytes as real / rate as real
  {
    FasterIsShorter(slot.bytes as real, rate as real, slot.rate as real);
  }

  lemma FasterIsShorter(bytes: real, slow: real, fast: real)
    requires bytes >= 0.0 && 0.0 < slow <= fast
    ensures bytes / fast <= bytes / slow
  {
    WorkAtRate(bytes, slow, fast);
    var q, d := bytes / slow, bytes / fast;
    assert fast * d == bytes;
    assert fast * (q - d) >= 0.0 by { ScaleSum(fast, q - d, d); }
    PositiveFactor(fast, q - d);
  }

  lemma PositiveFactor(a: real, x: real)
    requires a > 0.0 && a * x >= 0.0
    ensures x >= 0.0
  {
  }

  // ---------------------------------------------------------------- events

  /** What callers and setters do, step by step. `set_limit` is two of them, `SetRate` and `Restart`; one
      round of `acquire` is a `Load` and a `Reserve`. */
  datatype Event =
    | SetRate(limit: Option<u64>)
    | Restart(now: real)
    | Load(caller: nat)
    | Reserve(caller: nat, bytes: nat, now: real)

  /** `loaded` is what callers hold in a local variable between loading the rate and taking the lock; the
      slots are those reserved since the schedule was last restarted, at `since`. */
  datatype Limiter = Limiter(bytesPerSecond: u64, nextAvailableAt: real, loaded: map<nat, u64>,
                             slots: seq<Slot>, since: real)
  {
    ghost predicate Valid() {
      && Schedule(slots, since) && nextAvailableAt == NextFree(slots, since)
      && forall c :: c in loaded ==> loaded[c] > 0
    }

    /** No rate in use exceeds `limit`, and none is unlimited. */
    ghost predicate Bounded(limit: nat) {
      && 0 < bytesPerSecond <= limit
      && (forall c :: c in loaded ==> loaded[c] <= limit)
      && RatesWithin(slots, 0, |slots|, limit)
    }

    /** The slot that `caller` gets. */
    ghost function Next(caller: nat, bytes: nat, now: real): Slot
      requires caller in loaded && loaded[caller] > 0
    {
      var start := Later(nextAvailableAt, now);
      Slot(bytes, loaded[caller], now, start, start + DurationFor(bytes, loaded[caller]))
    }
  }

  ghost function New(limit: Option<u64>, now: real): Limiter {
    Limiter(KibToBytes(limit), now, map[], [], now)
  }

  ghost function Step(s: Limiter, e: Event): Limiter {
    match e
    case SetRate(limit) => s.(bytesPerSecond := KibToBytes(limit))
    case Restart(now) => s.(nextAvailableAt := now, slots := [], since := now)
    case Load(caller) =>
      s.(loaded := if s.bytesPerSecond == 0 then s.loaded - {caller} else s.loaded[caller := s.bytesPerSecond])
    case Reserve(caller, bytes, now) =>
      if caller in s.loaded && s.loaded[caller] > 0 && bytes > 0 then
        var slot := s.Next(caller, bytes, now);
        s.(nextAvailableAt := slot.end, slots := s.slots + [slot], loaded := s.loaded - {caller})
      else s
  }

  ghost function Run(s: Limiter, events: seq<Event>): Limiter
    decreases |events|
  {
    if events == [] then s else Run(Step(s, events[0]), events[1..])
  }

  lemma {:induction false} RunConcat(s: Limiter, a: seq<Event>, b: seq<Event>)
    ensures Run(s, a + b) == Run(Run(s, a), b)
    decreases |a|
  {
    if a == [] {
      assert a + b == b;
    } else {
      assert (a + b)[0] == a[0] && (a + b)[1..] == a[1..] + b;
      RunConcat(Step(s, a[0]), a[1..], b);
    }
  }

  lemma RunOneMore(s: Limiter, events: seq<Event>, e: Event)
    ensures Run(s, events + [e]) == Step(Run(s, events), e)
  {
    RunConcat(s, events, [e]);
    assert [e][1..] == [];
  }

  lemma RunTwo(s: Limiter, a: Event, b: Event)
    ensures Run(s, [a, b]) == Step(Step(s, a), b)
  {
    assert [a, b] == [a] + [b] && [a][1..] == [];
    RunOneMore(s, [a], b);
  }

  lemma StepKeepsValid(s: Limiter, e: Event)
    requires s.Valid()
    ensures Step(s, e).Valid()
  {
    if e.Reserve? && e.caller in s.loaded && e.bytes > 0 {
      ScheduleOneMore(s.slots, s.since, s.Next(e.caller, e.bytes, e.now));
    }
  }

  lemma {:induction false} RunKeepsValid(s: Limiter, events: seq<Event>)
    requires s.Valid()
    ensures Run(s, events).Valid()
    decreases |events|
  {
    if events != [] {
      StepKeepsValid(s, events[0]);
      RunKeepsValid(Step(s, events[0]), events[1..]);
    }
  }

  /** Every limit that is set lies within `limit`; in particular none is lifted. */
  ghost predicate SetsWithin(events: seq<Event>, limit: nat) {
    forall i :: 0 <= i < |events| && events[i].SetRate? ==> 0 < KibToBytes(events[i].limit) <= limit
  }

  ghost predicate NothingSet(events: seq<Event>) {
    forall i :: 0 <= i < |events| ==> !events[i].SetRate?
  }

  lemma StepKeepsBounded(s: Limiter, e: Event, limit: nat)
    requires s.Bounded(limit) && (e.SetRate? ==> 0 < KibToBytes(e.limit) <= limit)
    ensures Step(s, e).Bounded(limit)
  {
  }

  lemma {:induction false} RunKeepsBounded(s: Limiter, events: seq<Event>, limit: nat)
    requires s.Bounded(limit) && SetsWithin(events, limit)
    ensures Run(s, events).Bounded(limit)
    decreases |events|
  {
    if events != [] {
      StepKeepsBounded(s, events[0], limit);
      RunKeepsBounded(Step(s, events[0]), events[1..], limit);
    }
  }

  /** The throughput bound for every run: whatever callers and setters do, however their steps interleave,
      as long as the limit is not raised above the one the limiter was made with, every window since the
      last restart gets at most that limit times its length, and one request. */
  lemma RunsWithinLimit(limit: u64, now: real, events: seq<Event>)
    requires KibToBytes(Some(limit)) > 0 && SetsWithin(events, KibToBytes(Some(limit)))
    ensures var s := Run(New(Some(limit), now), events);
            s.Valid() && WindowsWithin(s.slots, KibToBytes(Some(limit)))
  {
    var rate := KibToBytes(Some(limit));
    RunKeepsValid(New(Some(limit), now), events);
    RunKeepsBounded(New(Some(limit), now), events, rate);
    var s := Run(New(Some(limit), now), events);
    AllWindows(s.slots, s.since, rate);
  }

  /** A slot at a higher rate than the limit is too short for its bytes. */
  lemma FastBytes(bytes: nat, rate: nat, limit: nat)
    requires 0 < limit < rate && bytes > 0
    ensures !WithinRate(bytes + 1, limit, DurationFor(bytes, rate), 1)
  {
    var d := DurationFor(bytes, rate);
    assert d * rate as real == bytes as real;
    assert d > 0.0;
    assert limit as real * d < rate as real * d by { assert (rate as real - limit as real) * d > 0.0; }
  }

  lemma TotalOfTwo(slots: seq<Slot>, n: nat)
    requires n + 2 <= |slots|
    ensures TotalBytes(slots, n, n + 2) == slots[n].bytes + slots[n + 1].bytes
  {
    assert TotalBytes(slots, n, n + 1) == TotalBytes(slots, n, n) + slots[n].bytes;
  }

  /** After a reservation at a rate above the limit, one byte reserved at the configured rate follows too soon. */
  lemma FreshAfterStale(s: Limiter, c: nat, bytes: nat, now: real, limit: nat) returns (events: seq<Event>)
    requires s.Valid() && s.bytesPerSecond == limit > 0 && c in s.loaded && s.loaded[c] > limit && bytes > 0
    ensures NothingSet(events) && !WindowsWithin(Run(Step(s, Reserve(c, bytes, now)), events).slots, limit)
  {
    var s1 := Step(s, Reserve(c, bytes, now));
    var s2 := Step(s1, Load(c));
    var s3 := Step(s2, Reserve(c, 1, s1.nextAvailableAt));
    events := [Load(c), Reserve(c, 1, s1.nextAvailableAt)];
    RunTwo(s1, Load(c), Reserve(c, 1, s1.nextAvailableAt));
    var n := |s.slots|;
    var slots := s3.slots;
    assert slots[n] == s.Next(c, bytes, now) && slots[n + 1] == s2.Next(c, 1, s1.nextAvailableAt) && |slots| == n + 2;
    TotalOfTwo(slots, n);
    FastBytes(bytes, s.loaded[c], limit);
  }

  lemma BoundedStaysWithin(s: Limiter, limit: nat)
    requires s.Valid() && s.Bounded(limit)
    ensures forall events :: SetsWithin(events, limit) ==> WindowsWithin(Run(s, events).slots, limit)
  {
    forall events | SetsWithin(events, limit)
      ensures WindowsWithin(Run(s, events).slots, limit)
    {
      RunKeepsValid(s, events);
      RunKeepsBounded(s, events, limit);
      AllWindows(Run(s, events).slots, Run(s, events).since, limit);
    }
  }

  /** When one caller locks while the others and the slots keep to the configured limit: every continuation
      that does not set the limit keeps every window within it exactly when the rate the caller holds is not
      above it. */
  lemma ReservationGuardIsExact(s: Limiter, c: nat, bytes: nat, now: real, limit: nat)
    requires s.Valid() && s.bytesPerSecond == limit > 0 && RatesWithin(s.slots, 0, |s.slots|, limit)
    requires c in s.loaded && bytes > 0 && forall o :: o in s.loaded && o != c ==> s.loaded[o] <= limit
    ensures (forall events :: NothingSet(events) ==> WindowsWithin(Run(Step(s, Reserve(c, bytes, now)), events).slots, limit))
        <==> s.loaded[c] <= limit
  {
    var t := Step(s, Reserve(c, bytes, now));
    if s.loaded[c] <= limit {
      StepKeepsValid(s, Reserve(c, bytes, now));
      StepKeepsBounded(s, Reserve(c, bytes, now), limit);
      BoundedStaysWithin(t, limit);
      assert forall events :: NothingSet(events) ==> SetsWithin(events, limit);
    } else {
      var events := FreshAfterStale(s, c, bytes, now, limit);
    }
  }

  /** The same for all callers at once: right after a limit has been set, say, it holds from then on exactly
      when no caller still holds a higher rate. */
  lemma LimitHoldsExactlyWhenLoaded(s: Limiter, limit: nat)
    requires s.Valid() && s.bytesPerSecond == limit > 0 && RatesWithin(s.slots, 0, |s.slots|, limit)
    ensures (forall events :: NothingSet(events) ==> WindowsWithin(Run(s, events).slots, limit))
        <==> (forall c :: c in s.loaded ==> s.loaded[c] <= limit)
  {
    if forall c :: c in s.loaded ==> s.loaded[c] <= limit {
      BoundedStaysWithin(s, limit);
      assert forall events :: NothingSet(events) ==> SetsWithin(events, limit);
    } else {
      var c :| c in s.loaded && s.loaded[c] > limit;
      var rest := FreshAfterStale(s, c, 1, s.nextAvailableAt, limit);
      var events := [Reserve(c, 1, s.nextAvailableAt)] + rest;
      assert events[0] == Reserve(c, 1, s.nextAvailableAt) && events[1..] == rest;
      assert NothingSet(events) && !WindowsWithin(Run(s, events).slots, limit);
    }
  }

  // ---------------------------------------------------------------- rounds of one caller

  /** How a wait ended: the slot came, the limit changed first, or the limiter is gone. */
  datatype Wake = Slept | Updated | Closed

  /** One round of `acquire`: what others do before the rate is loaded and between loading and locking, the
      time under the lock, and how the wait ends. */
  datatype Round = Round(before: seq<Event>, between: seq<Event>, now: real, wake: Wake)

  /** Steps of other callers and of setters. */
  ghost predicate Foreign(events: seq<Event>, me: nat) {
    forall i :: 0 <= i < |events| ==>
      match events[i]
      case Load(caller) => caller != me
      case Reserve(caller, _, _) => caller != me
      case _ => true
  }

  ghost predicate RoundsOf(rounds: seq<Round>, me: nat) {
    && rounds != [] && !rounds[|rounds| - 1].wake.Updated?
    && forall i :: 0 <= i < |rounds| ==> Foreign(rounds[i].between, me)
  }

  /** Nobody sets the limit while the caller holds a rate. */
  ghost predicate QuietBetween(rounds: seq<Round>) {
    forall i :: 0 <= i < |rounds| ==> NothingSet(rounds[i].between)
  }

  /** Nobody sets the limit at all. */
  ghost predicate Undisturbed(rounds: seq<Round>) {
    forall i :: 0 <= i < |rounds| ==> NothingSet(rounds[i].before) && NothingSet(rounds[i].between)
  }

  ghost predicate StaysOpen(rounds: seq<Round>) {
    forall i :: 0 <= i < |rounds| ==> !rounds[i].wake.Closed?
  }

  ghost predicate RoundsWithin(rounds: seq<Round>, limit: nat) {
    forall i :: 0 <= i < |rounds| ==> SetsWithin(rounds[i].before, limit) && SetsWithin(rounds[i].between, limit)
  }

  ghost function RoundEvents(me: nat, bytes: nat, r: Round): seq<Event> {
    r.before + [Load(me)] + r.between + [Reserve(me, bytes, r.now)]
  }

  /** Everything that happens from the start of round `i` of `acquire` to its return. */
  ghost function AcquireEvents(s: Limiter, me: nat, bytes: nat, rounds: seq<Round>, i: nat): seq<Event>
    decreases |rounds| - i
  {
    if bytes == 0 || i >= |rounds| then []
    else if Run(s, rounds[i].before).bytesPerSecond == 0 then rounds[i].before + [Load(me)]
    else if !rounds[i].wake.Updated? then RoundEvents(me, bytes, rounds[i])
    else
      var first := RoundEvents(me, bytes, rounds[i]);
      first + AcquireEvents(Run(s, first), me, bytes, rounds, i + 1)
  }

  /** A caller only adds its own loads and reservations to what the others set. */
  lemma {:induction false} AcquireSetsNothing(s: Limiter, me: nat, bytes: nat, rounds: seq<Round>, i: nat, limit: nat)
    requires RoundsWithin(rounds, limit)
    ensures SetsWithin(AcquireEvents(s, me, bytes, rounds, i), limit)
    decreases |rounds| - i
  {
    if bytes > 0 && i < |rounds| {
      AcquireSetsNothing(Run(s, RoundEvents(me, bytes, rounds[i])), me, bytes, rounds, i + 1, limit);
    }
  }

  /** What one round does to the events still to come. */
  lemma RoundOff(s: Limiter, done: seq<Event>, t: Limiter, me: nat, bytes: nat, rounds: seq<Round>, i: nat)
    requires bytes > 0 && i < |rounds| && t == Run(s, done)
    ensures var rest := AcquireEvents(t, me, bytes, rounds, i);
            if Run(t, rounds[i].before).bytesPerSecond == 0
            then rest == rounds[i].before + [Load(me)] && Run(s, done + rest) == Run(t, rest)
            else
              var first := RoundEvents(me, bytes, rounds[i]);
              && Run(s, done + first) == Run(t, first)
              && (!rounds[i].wake.Updated? ==> rest == first)
              && (rounds[i].wake.Updated? ==>
                    done + rest == done + first + AcquireEvents(Run(t, first), me, bytes, rounds, i + 1))
  {
    RunConcat(s, done, rounds[i].before + [Load(me)]);
    RunConcat(s, done, RoundEvents(me, bytes, rounds[i]));
  }

  /** Between loading and locking nobody else touches what the caller holds. */
  lemma {:induction false} HeldRate(s: Limiter, events: seq<Event>, me: nat)
    requires Foreign(events, me) && me in s.loaded
    ensures me in Run(s, events).loaded && Run(s, events).loaded[me] == s.loaded[me]
    ensures NothingSet(events) ==> Run(s, events).bytesPerSecond == s.bytesPerSecond
    decreases |events|
  {
    if events != [] {
      HeldRate(Step(s, events[0]), events[1..], me);
    }
  }

  // ---------------------------------------------------------------- the limiter

  class DownloadRateLimiter {
    var bytesPerSecond: u64
    var nextAvailableAt: real
    /** The local variables of callers that are between loading the rate and locking. */
    var loaded: map<nat, u64>
    ghost var slots: seq<Slot>
    ghost var since: real

    ghost function State(): Limiter
      reads this
    {
      Limiter(bytesPerSecond, nextAvailableAt, loaded, slots, since)
    }

    ghost predicate Valid()
      reads this
    {
      State().Valid()
    }

    constructor (limit: Option<u64>, now: real)
      ensures Valid() && State() == New(limit, now)
      ensures limit == None || 0 < limit.value <= U64_MAX / 1024 ==> CurrentLimit() == limit
    {
      bytesPerSecond, nextAvailableAt, loaded := KibToBytes(limit), now, map[];
      slots, since := [], now;
    }

    function CurrentLimit(): (limit: Option<u64>)
      reads this
      ensures limit.None? <==> bytesPerSecond == 0
    {
      BytesToKib(bytesPerSecond)
    }

    method StoreRate(limit: Option<u64>)
      modifies this`bytesPerSecond
      ensures State() == Step(old(State()), SetRate(limit))
    {
      bytesPerSecond := KibToBytes(limit);
    }

    method RestartSchedule(now: real)
      modifies this`nextAvailableAt, this`slots, this`since
      ensures State() == Step(old(State()), Restart(now))
    {
      nextAvailableAt := now;
      slots, since := [], now;
    }

    method LoadRate(me: nat) returns (rate: u64)
      modifies this`loaded
      ensures rate == bytesPerSecond && State() == Step(old(State()), Load(me))
    {
      rate := bytesPerSecond;
      loaded := if rate == 0 then loaded - {me} else loaded[me := rate];
    }

    /** The critical section: take the next slot, at the rate that was loaded before. */
    method ReserveSlot(me: nat, bytes: nat, rate: u64, now: real) returns (waitUntil: real)
      requires me in loaded && loaded[me] == rate > 0 && bytes > 0
      modifies this`nextAvailableAt, this`slots, this`loaded
      ensures State() == Step(old(State()), Reserve(me, bytes, now))
      ensures waitUntil == Later(old(nextAvailableAt), now)
      ensures slots == old(slots) + [Slot(bytes, rate, now, waitUntil, nextAvailableAt)]
    {
      waitUntil := Later(nextAvailableAt, now);
      nextAvailableAt := waitUntil + DurationFor(bytes, rate);
      slots := slots + [Slot(bytes, rate, now, waitUntil, nextAvailableAt)];
      loaded := loaded - {me};
    }

    /** One step of somebody else. */
    method Other(e: Event)
      modifies this
      ensures State() == Step(old(State()), e)
    {
      match e
      case SetRate(limit) => StoreRate(limit);
      case Restart(now) => RestartSchedule(now);
      case Load(caller) => var _ := LoadRate(caller);
      case Reserve(caller, bytes, now) =>
        if caller in loaded && loaded[caller] > 0 && bytes > 0 {
          var _ := ReserveSlot(caller, bytes, loaded[caller], now);
        }
    }

    method Others(events: seq<Event>)
      modifies this
      ensures State() == Run(old(State()), events)
    {
      assert events[..0] == [];
      for i := 0 to |events|
        invariant State() == Run(old(State()), events[..i])
      {
        RunOneMore(old(State()), events[..i], events[i]);
        assert events[..i + 1] == events[..i] + [events[i]];
        Other(events[i]);
      }
      assert events[..|events|] == events;
    }

    /** Two steps; what others do between them is part of the run. */
    method SetLimit(limit: Option<u64>, between: seq<Event>, now: real)
      modifies this
      ensures State() == Run(old(State()), [SetRate(limit)] + between + [Restart(now)])
      ensures NothingSet(between) && (limit == None || 0 < limit.value <= U64_MAX / 1024) ==> CurrentLimit() == limit
    {
      StoreRate(limit);
      if NothingSet(between) { RateUnset(State(), between); }
      Others(between);
      RestartSchedule(now);
      RunConcat(old(State()), [SetRate(limit)], between);
      assert [SetRate(limit)][1..] == [];
      RunOneMore(old(State()), [SetRate(limit)] + between, Restart(now));
    }

    /** One round: load, and unless the limiter is unlimited take the next slot. */
    method Once(me: nat, bytes: nat, r: Round) returns (rate: u64)
      requires Valid() && Foreign(r.between, me) && bytes > 0
      modifies this
      ensures Valid()
      ensures rate == Run(old(State()), r.before).bytesPerSecond
      ensures rate == 0 ==> State() == Run(old(State()), r.before + [Load(me)]) && bytesPerSecond == 0
      ensures rate > 0 ==>
                && State() == Run(old(State()), RoundEvents(me, bytes, r))
                && slots != [] && slots[|slots| - 1].bytes == bytes && slots[|slots| - 1].rate == rate
                && (NothingSet(r.between) ==> rate == bytesPerSecond)
      ensures NothingSet(r.before) && NothingSet(r.between) ==> bytesPerSecond == old(bytesPerSecond)
    {
      ghost var start := State();
      if NothingSet(r.before) { RateUnset(start, r.before); }
      Others(r.before);
      RunOneMore(start, r.before, Load(me));
      RunKeepsValid(start, r.before + [Load(me)]);
      rate := LoadRate(me);
      if rate == 0 {
        return;
      }
      HeldRate(State(), r.between, me);
      RunConcat(start, r.before + [Load(me)], r.between);
      Others(r.between);
      RunOneMore(start, r.before + [Load(me)] + r.between, Reserve(me, bytes, r.now));
      RunKeepsValid(start, RoundEvents(me, bytes, r));
      var _ := ReserveSlot(me, bytes, rate, r.now);
    }

    /** Reserves again whenever the limit changes while waiting. Returns the slot the caller was released in,
        if it had to take one, and how often it reserved. */
    method Acquire(me: nat, bytes: nat, rounds: seq<Round>) returns (ghost released: Option<Slot>, reservations: nat)
      requires Valid() && RoundsOf(rounds, me)
      modifies this
      ensures Valid() && State() == Run(old(State()), AcquireEvents(old(State()), me, bytes, rounds, 0))
      ensures bytes == 0 ==> State() == old(State())
      // Released in the last slot taken, at the rate in force if nobody set it in between.
      ensures released.Some? ==> slots != [] && released.value == slots[|slots| - 1] && released.value.bytes == bytes
      ensures released.Some? && QuietBetween(rounds) ==> released.value.rate == bytesPerSecond
      ensures Undisturbed(rounds) ==> bytesPerSecond == old(bytesPerSecond)
      ensures released.None? && bytes > 0 && StaysOpen(rounds) ==> bytesPerSecond == 0
      ensures reservations <= |rounds| && (released.Some? ==> reservations > 0)
    {
      released, reservations := None, 0;
      if bytes == 0 {
        return;
      }
      ghost var s: Limiter, done: seq<Event> := State(), [];
      for i := 0 to |rounds|
        invariant Valid() && released.None? && reservations == i
        invariant Undisturbed(rounds) ==> bytesPerSecond == old(bytesPerSecond)
        invariant i > 0 ==> rounds[i - 1].wake.Updated?
        invariant State() == Run(s, done)
        invariant AcquireEvents(s, me, bytes, rounds, 0) == done + AcquireEvents(State(), me, bytes, rounds, i)
      {
        RoundOff(s, done, State(), me, bytes, rounds, i);
        var rate := Once(me, bytes, rounds[i]);
        if rate == 0 {
          return;
        }
        reservations := reservations + 1;
        if !rounds[i].wake.Updated? {
          if rounds[i].wake.Slept? {
            released := Some(slots[|slots| - 1]);
          }
          return;
        }
        done := done + RoundEvents(me, bytes, rounds[i]);
      }
    }
  }

  lemma {:induction false} RateUnset(s: Limiter, events: seq<Event>)
    requires NothingSet(events)
    ensures Run(s, events).bytesPerSecond == s.bytesPerSecond
    decreases |events|
  {
    if events != [] {
      RateUnset(Step(s, events[0]), events[1..]);
    }
  }

  /** A limiter whose callers and setters keep to a limit keeps to it through every `acquire`. */
  method AcquireWithin(limiter: DownloadRateLimiter, me: nat, bytes: nat, rounds: seq<Round>, ghost limit: nat)
    returns (ghost released: Option<Slot>)
    requires limiter.Valid() && limiter.State().Bounded(limit) && RoundsOf(rounds, me) && RoundsWithin(rounds, limit)
    modifies limiter
    ensures limiter.Valid() && limiter.State().Bounded(limit) && WindowsWithin(limiter.slots, limit)
    // Nobody passes without a slot while the limiter is open.
    ensures bytes > 0 && StaysOpen(rounds) ==> released.Some?
  {
    AcquireSetsNothing(limiter.State(), me, bytes, rounds, 0, limit);
    RunKeepsBounded(limiter.State(), AcquireEvents(limiter.State(), me, bytes, rounds, 0), limit);
    var reservations: nat;
    released, reservations := limiter.Acquire(me, bytes, rounds);
    AllWindows(limiter.slots, limiter.since, limit);
  }
  // ---------------------------------------------------------------- a limit lowered at the wrong moment

  /** One undisturbed part of a round after the other. */
  lemma RoundRuns(s: Limiter, me: nat, bytes: nat, r: Round)
    ensures Run(s, RoundEvents(me, bytes, r))
         == Step(Run(Step(Run(s, r.before), Load(me)), r.between), Reserve(me, bytes, r.now))
  {
    RunOneMore(s, r.before, Load(me));
    RunConcat(s, r.before + [Load(me)], r.between);
    RunOneMore(s, r.before + [Load(me)] + r.between, Reserve(me, bytes, r.now));
  }

  /** The limit is lowered while a caller holds the old rate. */
  const LOWERED: Round := Round([], [SetRate(Some(1)), Restart(0.0)], 0.0, Slept)

  const UNDISTURBED: Round := Round([], [], 0.0, Slept)

  lemma StaleRound() returns (s: Limiter)
    ensures s == Run(New(Some(2), 0.0), AcquireEvents(New(Some(2), 0.0), 0, 4096, [LOWERED], 0))
    ensures s == Limiter(1024, 2.0, map[], [Slot(4096, 2048, 0.0, 0.0, 2.0)], 0.0)
  {
    var s0 := New(Some(2), 0.0);
    RoundRuns(s0, 0, 4096, LOWERED);
    RunTwo(Step(s0, Load(0)), SetRate(Some(1)), Restart(0.0));
    s := Run(s0, RoundEvents(0, 4096, LOWERED));
    assert DurationFor(4096, 2048) == 2.0;
    assert s.loaded == map[];
  }

  lemma FreshRound(s: Limiter) returns (t: Limiter)
    requires s == Limiter(1024, 2.0, map[], [Slot(4096, 2048, 0.0, 0.0, 2.0)], 0.0)
    ensures t == Run(s, AcquireEvents(s, 1, 4096, [UNDISTURBED], 0))
    ensures t.slots == [Slot(4096, 2048, 0.0, 0.0, 2.0), Slot(4096, 1024, 0.0, 2.0, 6.0)] && t.bytesPerSecond == 1024
  {
    RoundRuns(s, 1, 4096, UNDISTURBED);
    t := Run(s, RoundEvents(1, 4096, UNDISTURBED));
    assert DurationFor(4096, 1024) == 4.0;
  }

  /** At 1 KiB per second, two callers of 4 KiB are released within 2 seconds: 8 KiB where 6 are allowed. */
  method LowerWhileLoading() returns (limiter: DownloadRateLimiter)
    ensures fresh(limiter) && limiter.Valid() && limiter.CurrentLimit() == Some(1)
    ensures !WindowsWithin(limiter.slots, limiter.bytesPerSecond)
  {
    limiter := new DownloadRateLimiter(Some(2), 0.0);
    ghost var s := StaleRound();
    ghost var t := FreshRound(s);
    ghost var released: Option<Slot>;
    var reservations: nat;
    released, reservations := limiter.Acquire(0, 4096, [LOWERED]);
    released, reservations := limiter.Acquire(1, 4096, [UNDISTURBED]);
    TotalOfTwo(limiter.slots, 0);
  }
}
