/** The webhook delivery guard and the handler around it: a capped, time-limited set of delivery
    ids that implements "seen within the window" unless capacity forces an id out. */
module Deliveries {
  import opened Base

  const MAX_ID_LEN := 200

  datatype Delivery = Fresh | Duplicate | Unidentified

  /** A delivery id that was answered Fresh, and the clock reading at which it was. */
  datatype Accepted = Accepted(id: Bytes, at: nat)

  /** `Instant::duration_since`, which saturates at zero. */
  function Since(at: nat, now: nat): nat
  {
    if at <= now then now - at else 0
  }

  /** Whether `now` lies within the window of an acceptance at `at`. A reading earlier than the
      acceptance does. */
  predicate InWindow(at: nat, now: nat, ttl: nat)
  {
    ttl > 0 && now < at + ttl
  }

  lemma SinceMeans(at: nat, now: nat, ttl: nat)
    ensures Since(at, now) < ttl <==> InWindow(at, now, ttl)
  {
  }

  predicate Usable(id: Option<Bytes>)
  {
    id.Some? && 0 < |id.value| <= MAX_ID_LEN
  }

  predicate Remembered(seen: map<Bytes, nat>, id: Option<Bytes>, now: nat, ttl: nat)
  {
    Usable(id) && id.value in seen && InWindow(seen[id.value], now, ttl)
  }

  // ------------------------------------------------------------------ the unbounded history

  /** The specification without a cap: the id was accepted within the window. */
  ghost predicate SeenWithin(log: seq<Accepted>, id: Bytes, now: nat, ttl: nat)
  {
    exists a :: a in log && a.id == id && InWindow(a.at, now, ttl)
  }

  /** Ids other than `id` accepted at or after `since`. */
  ghost function Others(log: seq<Accepted>, id: Bytes, since: nat): set<Bytes>
  {
    set a | a in log && a.id != id && a.at >= since :: a.id
  }

  ghost predicate Crowded(log: seq<Accepted>, id: Bytes, since: nat, capacity: nat)
  {
    |Others(log, id, since)| >= capacity
  }

  lemma {:induction false} SubsetSize<T>(a: set<T>, b: set<T>)
    requires a <= b
    ensures |a| <= |b|
  {
    if a != {} {
      var x :| x in a;
      SubsetSize(a - {x}, b - {x});
    }
  }

  lemma CrowdedGrows(log: seq<Accepted>, more: seq<Accepted>, id: Bytes, since: nat, capacity: nat)
    requires Crowded(log, id, since, capacity)
    ensures Crowded(log + more, id, since, capacity)
  {
    assert forall a :: a in log ==> a in log + more;
    SubsetSize(Others(log, id, since), Others(log + more, id, since));
  }

  /** An id accepted twice within the window was crowded out in between. */
  ghost predicate Spaced(log: seq<Accepted>, ttl: nat, capacity: nat)
  {
    forall i, j :: 0 <= i < j < |log| && log[i].id == log[j].id && InWindow(log[i].at, log[j].at, ttl) ==>
      Crowded(log[..j], log[i].id, log[i].at, capacity)
  }

  // ------------------------------------------------------------------ what the map remembers

  /** An acceptance is remembered, or has expired, or was crowded out. */
  ghost predicate Accounted(seen: map<Bytes, nat>, log: seq<Accepted>, clock: nat, ttl: nat, capacity: nat, a: Accepted)
  {
    || (a.id in seen && a.at <= seen[a.id])
    || !InWindow(a.at, clock, ttl)
    || Crowded(log, a.id, a.at, capacity)
  }

  ghost predicate Remembers(seen: map<Bytes, nat>, log: seq<Accepted>, clock: nat, ttl: nat, capacity: nat)
  {
    && (forall id :: id in seen ==> Accepted(id, seen[id]) in log)
    && (forall a :: a in log ==> a.at <= clock && Accounted(seen, log, clock, ttl, capacity, a))
  }

  function Purged(seen: map<Bytes, nat>, now: nat, ttl: nat): map<Bytes, nat>
  {
    map id | id in seen && Since(seen[id], now) < ttl :: seen[id]
  }

  /** Purging drops what has expired, and only when the map is more than half full. */
  function Kept(seen: map<Bytes, nat>, now: nat, ttl: nat, capacity: nat): map<Bytes, nat>
  {
    if |seen| > capacity / 2 then Purged(seen, now, ttl) else seen
  }

  lemma PurgedMeans(seen: map<Bytes, nat>, now: nat, ttl: nat, id: Bytes)
    ensures id in Purged(seen, now, ttl) <==> id in seen && ttl > 0 && now < seen[id] + ttl
    ensures id in Purged(seen, now, ttl) ==> Purged(seen, now, ttl)[id] == seen[id]
  {
  }

  /** A new id goes in beside the others while there is room, and else in place of an oldest. */
  ghost predicate Replaces(before: map<Bytes, nat>, after: map<Bytes, nat>, id: Bytes, now: nat, capacity: nat)
  {
    if |before| < capacity then after == before[id := now]
    else exists oldest :: oldest in before && (forall x :: x in before ==> before[oldest] <= before[x])
                          && after == (before - {oldest})[id := now]
  }

  lemma PurgeRemembers(seen: map<Bytes, nat>, log: seq<Accepted>, clock: nat, now: nat, ttl: nat, capacity: nat)
    requires Remembers(seen, log, clock, ttl, capacity) && clock <= now
    ensures Remembers(Purged(seen, now, ttl), log, now, ttl, capacity)
    ensures Remembers(seen, log, now, ttl, capacity)
  {
    forall a | a in log
      ensures Accounted(Purged(seen, now, ttl), log, now, ttl, capacity, a)
      ensures Accounted(seen, log, now, ttl, capacity, a)
    {
      assert Accounted(seen, log, clock, ttl, capacity, a);
    }
  }

  /** Accepting a new id, after making room if there is none: the oldest id goes, and by then
      `capacity` other ids have been accepted since it was. */
  lemma AcceptRemembers(seen: map<Bytes, nat>, log: seq<Accepted>, now: nat, ttl: nat, capacity: nat, id: Bytes, oldest: Option<Bytes>)
    requires Remembers(seen, log, now, ttl, capacity)
    requires oldest.Some? ==>
      && oldest.value in seen && id !in seen && |seen| >= capacity
      && forall x :: x in seen ==> seen[oldest.value] <= seen[x]
    ensures var kept := if oldest.Some? then seen - {oldest.value} else seen;
            Remembers(kept[id := now], log + [Accepted(id, now)], now, ttl, capacity)
  {
    var kept := if oldest.Some? then seen - {oldest.value} else seen;
    var after := log + [Accepted(id, now)];
    assert Accepted(id, now) in after && forall a :: a in log ==> a in after;
    forall a | a in after ensures a.at <= now && Accounted(kept[id := now], after, now, ttl, capacity, a) {
      if a in log {
        assert Accounted(seen, log, now, ttl, capacity, a);
        if Crowded(log, a.id, a.at, capacity) {
          CrowdedGrows(log, [Accepted(id, now)], a.id, a.at, capacity);
        } else if oldest == Some(a.id) && a.at <= seen[a.id] {
          EvictedIsCrowded(seen, after, capacity, id, now, a);
        }
      }
    }
  }

  lemma EvictedIsCrowded(seen: map<Bytes, nat>, after: seq<Accepted>, capacity: nat, id: Bytes, now: nat, a: Accepted)
    requires forall x :: x in seen ==> Accepted(x, seen[x]) in after
    requires Accepted(id, now) in after && id !in seen && a.id in seen && |seen| >= capacity
    requires a.at <= seen[a.id] && a.at <= now && forall x :: x in seen ==> seen[a.id] <= seen[x]
    ensures Crowded(after, a.id, a.at, capacity)
  {
    var others := seen.Keys - {a.id} + {id};
    forall x | x in others ensures x in Others(after, a.id, a.at) {
      var y := Accepted(x, if x == id then now else seen[x]);
      assert y in after && y.id != a.id && y.at >= a.at;
    }
    SubsetSize(others, Others(after, a.id, a.at));
    assert |others| == |seen|;
  }

  /** Fresh is the right answer: an acceptance within the window can only have been crowded out. */
  lemma FreshIsRight(seen: map<Bytes, nat>, log: seq<Accepted>, now: nat, ttl: nat, capacity: nat, id: Bytes, a: Accepted)
    requires Remembers(seen, log, now, ttl, capacity)
    requires id in seen ==> !InWindow(seen[id], now, ttl)
    requires a in log && a.id == id && InWindow(a.at, now, ttl)
    ensures Crowded(log, id, a.at, capacity)
  {
    assert Accounted(seen, log, now, ttl, capacity, a);
    assert id in seen ==> Accepted(id, seen[id]) in log;
  }

  lemma DuplicateIsRight(seen: map<Bytes, nat>, log: seq<Accepted>, now: nat, ttl: nat, capacity: nat, id: Bytes)
    requires Remembers(seen, log, now, ttl, capacity) && id in seen && InWindow(seen[id], now, ttl)
    ensures SeenWithin(log, id, now, ttl)
  {
    assert Accepted(id, seen[id]) in log;
  }

  lemma AcceptSpaced(seen: map<Bytes, nat>, log: seq<Accepted>, now: nat, ttl: nat, capacity: nat, id: Bytes)
    requires Spaced(log, ttl, capacity) && Remembers(seen, log, now, ttl, capacity)
    requires id in seen ==> !InWindow(seen[id], now, ttl)
    ensures Spaced(log + [Accepted(id, now)], ttl, capacity)
  {
    var after := log + [Accepted(id, now)];
    forall i, j | 0 <= i < j < |after| && after[i].id == after[j].id && InWindow(after[i].at, after[j].at, ttl)
      ensures Crowded(after[..j], after[i].id, after[i].at, capacity)
    {
      if j < |log| {
        assert after[..j] == log[..j];
        assert after[i] == log[i] && after[j] == log[j];
      } else {
        assert after[..j] == log && after[i] == log[i] && log[i] in log;
        FreshIsRight(seen, log, now, ttl, capacity, id, log[i]);
      }
    }
  }

  // ------------------------------------------------------------------ the guard

  class DeliveryGuard {
    const ttl: nat
    const capacity: nat
    var seen: map<Bytes, nat>
    /** Every acceptance so far, the last clock reading, and whether the readings never fell. */
    ghost var log: seq<Accepted>
    ghost var clock: nat
    ghost var steady: bool

    ghost predicate Valid()
      reads this
    {
      && capacity >= 1 && |seen| <= capacity
      && (steady ==> Remembers(seen, log, clock, ttl, capacity) && Spaced(log, ttl, capacity))
    }

    constructor (ttl: nat, capacity: nat)
      ensures Valid() && seen == map[] && log == [] && clock == 0 && steady
      ensures this.ttl == ttl && this.capacity == if capacity < 1 then 1 else capacity
    {
      this.ttl := ttl;
      this.capacity := if capacity < 1 then 1 else capacity;
      seen, log, clock, steady := map[], [], 0, true;
    }

    /** Record a delivery and report whether it is new. With steady clock readings a Duplicate was
        seen within the window, and a Fresh one that was seen within it has been crowded out by
        at least `capacity` other ids. */
    method Check(id: Option<Bytes>, now: nat) returns (answer: Delivery)
      requires Valid()
      modifies this
      ensures Valid() && steady == (old(steady) && (Usable(id) ==> old(clock) <= now))
      ensures answer == Unidentified <==> id.None? || |id.value| == 0 || |id.value| > 200
      ensures answer == Duplicate <==>
        Usable(id) && id.value in old(seen) && ttl > 0 && now < old(seen)[id.value] + ttl
      ensures answer == Duplicate ==> seen == Kept(old(seen), now, ttl, capacity)
      ensures answer == Fresh ==> Replaces(Kept(old(seen), now, ttl, capacity), seen, id.value, now, capacity)
      ensures answer == Fresh ==> log == old(log) + [Accepted(id.value, now)] && id.value in seen && seen[id.value] == now
      ensures answer != Fresh ==> log == old(log)
      ensures answer == Unidentified ==> seen == old(seen) && clock == old(clock)
      ensures steady && answer == Duplicate ==> SeenWithin(old(log), id.value, now, ttl)
      ensures steady && answer == Fresh ==>
        forall a :: a in old(log) && a.id == id.value && InWindow(a.at, now, ttl) ==> Crowded(old(log), id.value, a.at, capacity)
    {
      if id.None? { return Unidentified; }
      var key := id.value;
      if |key| == 0 || |key| > MAX_ID_LEN { return Unidentified; }
      hide Spaced, Crowded, Remembers, SeenWithin, Replaces, Purged;
      PurgedMeans(seen, now, ttl, key);
      if key in seen { SinceMeans(seen[key], now, ttl); }
      Purge(now);
      if key in seen && Since(seen[key], now) < ttl {
        if steady { DuplicateIsRight(seen, log, now, ttl, capacity, key); }
        return Duplicate;
      }
      if steady {
        forall a | a in log && a.id == key && InWindow(a.at, now, ttl) ensures Crowded(log, key, a.at, capacity) {
          FreshIsRight(seen, log, now, ttl, capacity, key, a);
        }
      }
      Admit(key, now);
      return Fresh;
    }

    /** The first part of `check`: drop what has expired if the map is more than half full. */
    method Purge(now: nat)
      requires Valid()
      modifies this`seen, this`clock, this`steady
      ensures Valid() && clock == now && steady == (old(steady) && old(clock) <= now)
      ensures seen == Kept(old(seen), now, ttl, capacity)
    {
      hide Spaced, Remembers, Purged;
      steady := steady && clock <= now;
      if steady { PurgeRemembers(seen, log, clock, now, ttl, capacity); }
      clock := now;
      if |seen| > capacity / 2 {
        PurgedSize(seen, now, ttl);
        seen := Purged(seen, now, ttl);
      }
    }

    /** Of two deliveries of one id in direct succession, with clock readings in either order and
        less than the window apart, the second is a duplicate. */
    method CheckTwice(id: Option<Bytes>, now: nat, later: nat) returns (first: Delivery, second: Delivery)
      requires Valid()
      modifies this
      ensures Valid()
      ensures first == Fresh && ttl > 0 && later < now + ttl ==> second == Duplicate
    {
      first := Check(id, now);
      second := Check(id, later);
    }

    /** The last part of `check`: make room at the cap by dropping the oldest id, then insert. */
    method Admit(key: Bytes, now: nat)
      requires Valid() && clock == now
      requires key in seen ==> !InWindow(seen[key], now, ttl) && |seen| < capacity
      modifies this`seen, this`log
      ensures Valid() && key in seen && seen[key] == now && log == old(log) + [Accepted(key, now)]
      ensures Replaces(old(seen), seen, key, now, capacity)
    {
      hide Spaced, Remembers;
      ghost var before, evicted: Option<Bytes> := seen, None;
      if |seen| >= capacity {
        var oldest := Oldest(seen);
        seen, evicted := seen - {oldest}, Some(oldest);
        assert seen.Keys == before.Keys - {oldest};
      }
      if steady {
        AcceptSpaced(before, log, now, ttl, capacity, key);
        AcceptRemembers(before, log, now, ttl, capacity, key, evicted);
      }
      GrowByOne(seen, key, now);
      seen := seen[key := now];
      log := log + [Accepted(key, now)];
    }

    /** `min_by_key` over a map in whatever order it is iterated. */
    method Oldest(m: map<Bytes, nat>) returns (oldest: Bytes)
      requires m != map[]
      ensures oldest in m && forall x :: x in m ==> m[oldest] <= m[x]
    {
      oldest :| oldest in m;
      var rest := m.Keys;
      while rest != {}
        invariant rest <= m.Keys && oldest in m
        invariant forall x :: x in m && x !in rest ==> m[oldest] <= m[x]
        decreases |rest|
      {
        var x :| x in rest;
        if m[x] < m[oldest] { oldest := x; }
        rest := rest - {x};
      }
    }
  }

  lemma PurgedSize(seen: map<Bytes, nat>, now: nat, ttl: nat)
    ensures |Purged(seen, now, ttl)| <= |seen|
  {
    SubsetSize(Purged(seen, now, ttl).Keys, seen.Keys);
  }

  lemma GrowByOne(seen: map<Bytes, nat>, key: Bytes, now: nat)
    ensures |seen[key := now]| <= |seen| + 1
  {
    assert seen[key := now].Keys == seen.Keys + {key};
  }

  // ------------------------------------------------------------------ the handler

  datatype Verdict = Verified | NoSecret | BadSignature
  datatype Parsed = Event(triggers: bool) | MissingHeader | Malformed
  datatype Enqueued = Queued | UnknownRepo | EnqueueFailed

  /** A request, with what verification, parsing and enqueueing make of it. */
  datatype Request = Request(knownProvider: bool, verdict: Verdict, delivery: Option<Bytes>, parsed: Parsed, enqueued: Enqueued)

  predicate Authentic(req: Request) { req.knownProvider && req.verdict.Verified? }

  datatype Response = NotFound | InternalError | Unauthorized | BadRequest | Ignored | RunAccepted

  datatype Run = Run(delivery: Option<Bytes>, at: nat)

  /** Each run of an identified delivery has an acceptance of its own, in the same order. */
  ghost predicate RunsTraced(runs: seq<Run>, origin: seq<nat>, log: seq<Accepted>)
  {
    && |origin| == |runs|
    && (forall k :: 0 <= k < |runs| && Usable(runs[k].delivery) ==>
          origin[k] < |log| && log[origin[k]] == Accepted(runs[k].delivery.value, runs[k].at))
    && (forall k, l :: 0 <= k < l < |runs| && Usable(runs[k].delivery) && Usable(runs[l].delivery) ==> origin[k] < origin[l])
  }

  /** Two runs of one delivery id within the window: only if capacity crowded the id out before
      the second was accepted. */
  lemma AtMostOneRunPerWindow(runs: seq<Run>, origin: seq<nat>, log: seq<Accepted>, ttl: nat, capacity: nat, k: nat, l: nat)
    requires RunsTraced(runs, origin, log) && Spaced(log, ttl, capacity)
    requires k < l < |runs| && Usable(runs[k].delivery) && runs[l].delivery == runs[k].delivery
    requires InWindow(runs[k].at, runs[l].at, ttl)
    ensures origin[l] < |log| && Crowded(log[..origin[l]], runs[k].delivery.value, runs[k].at, capacity)
  {
    var i, j := origin[k], origin[l];
    assert log[i].id == log[j].id && i < j;
  }

  class WebhookServer {
    const guard: DeliveryGuard
    var runs: seq<Run>
    ghost var origin: seq<nat>

    ghost predicate Valid()
      reads this, guard
    {
      guard.Valid() && RunsTraced(runs, origin, guard.log)
    }

    constructor (guard: DeliveryGuard)
      requires guard.Valid()
      ensures Valid() && this.guard == guard && runs == []
    {
      this.guard := guard;
      runs, origin := [], [];
    }

    /** Verify, then dedupe, then parse, then dispatch. A request that fails verification leaves
        no trace; only an accepted one adds a run, and it adds exactly one. */
    method Webhook(req: Request, now: nat) returns (resp: Response)
      requires Valid()
      modifies this, guard
      ensures Valid()
      ensures guard.steady == (old(guard.steady) && (Authentic(req) && Usable(req.delivery) ==> old(guard.clock) <= now))
      ensures !Authentic(req) ==>
        guard.seen == old(guard.seen) && guard.log == old(guard.log) && guard.clock == old(guard.clock) && runs == old(runs)
      ensures resp == RunAccepted ==> runs == old(runs) + [Run(req.delivery, now)]
      ensures resp == RunAccepted <==>
        && Authentic(req) && !Remembered(old(guard.seen), req.delivery, now, guard.ttl)
        && req.parsed == Event(true) && req.enqueued.Queued?
      ensures resp != RunAccepted ==> runs == old(runs)
      ensures resp == NotFound <==> !req.knownProvider
      ensures resp == Unauthorized <==> req.knownProvider && req.verdict.BadSignature?
      ensures var novel := Authentic(req) && !Remembered(old(guard.seen), req.delivery, now, guard.ttl);
        && (resp == InternalError <==> (req.knownProvider && req.verdict.NoSecret?)
                                       || (novel && req.parsed == Event(true) && req.enqueued.EnqueueFailed?))
        && (resp == BadRequest <==> novel && !req.parsed.Event?)
        && (resp == Ignored <==> (Authentic(req) && !novel)
                                 || (novel && (req.parsed == Event(false) || (req.parsed == Event(true) && req.enqueued.UnknownRepo?))))
      ensures Authentic(req) && Remembered(old(guard.seen), req.delivery, now, guard.ttl) ==>
        resp == Ignored && guard.log == old(guard.log)
      ensures Authentic(req) && Usable(req.delivery) && !Remembered(old(guard.seen), req.delivery, now, guard.ttl) ==>
        && guard.log == old(guard.log) + [Accepted(req.delivery.value, now)]
        && req.delivery.value in guard.seen && guard.seen[req.delivery.value] == now
      ensures old(guard.log) <= guard.log
      ensures guard.steady && resp == RunAccepted && Usable(req.delivery) ==>
        forall a :: a in old(guard.log) && a.id == req.delivery.value && InWindow(a.at, now, guard.ttl) ==>
          Crowded(old(guard.log), a.id, a.at, guard.capacity)
    {
      if !req.knownProvider { return NotFound; }
      if req.verdict.NoSecret? { return InternalError; }
      if req.verdict.BadSignature? { return Unauthorized; }
      var answer := guard.Check(req.delivery, now);
      if answer == Duplicate { return Ignored; }
      if !req.parsed.Event? { return BadRequest; }
      if !req.parsed.triggers { return Ignored; }
      match req.enqueued
      case Queued =>
        runs := runs + [Run(req.delivery, now)];
        origin := origin + [if answer == Fresh then |guard.log| - 1 else 0];
        return RunAccepted;
      case UnknownRepo => return Ignored;
      case EnqueueFailed => return InternalError;
    }

    /** A delivery that was recorded but not enqueued is lost to its retries. Among whatever other
        requests they arrive, none of them within the window adds a run, although none ever
        was, unless `capacity` other deliveries crowd the id out first. */
    method RetriesAfterFailure(first: Request, now: nat, later: seq<(Request, nat)>) returns (resps: seq<Response>)
      requires Valid() && Authentic(first) && Usable(first.delivery) && first.enqueued.EnqueueFailed?
      requires !Remembered(guard.seen, first.delivery, now, guard.ttl)
      modifies this, guard
      ensures Valid() && |resps| == |later|
      ensures guard.steady && !Crowded(guard.log, first.delivery.value, now, guard.capacity) ==>
        forall k :: |old(runs)| <= k < |runs| && runs[k].delivery == first.delivery ==> !InWindow(now, runs[k].at, guard.ttl)
    {
      ghost var id := first.delivery.value;
      var _ := Webhook(first, now);
      assert Accepted(id, now) in guard.log;
      resps := [];
      while |resps| < |later|
        invariant Valid() && |resps| <= |later| && Accepted(id, now) in guard.log && |old(runs)| <= |runs|
        invariant guard.steady && !Crowded(guard.log, id, now, guard.capacity) ==>
          forall k :: |old(runs)| <= k < |runs| && runs[k].delivery == first.delivery ==> !InWindow(now, runs[k].at, guard.ttl)
        decreases |later| - |resps|
      {
        hide Crowded, Spaced, RunsTraced;
        ghost var before := guard.log;
        var (req, at) := later[|resps|];
        var resp := Webhook(req, at);
        if Crowded(before, id, now, guard.capacity) { CrowdedIsForever(before, guard.log, id, now, guard.capacity); }
        resps := resps + [resp];
      }
    }
  }

  lemma CrowdedIsForever(before: seq<Accepted>, after: seq<Accepted>, id: Bytes, since: nat, capacity: nat)
    requires before <= after && Crowded(before, id, since, capacity)
    ensures Crowded(after, id, since, capacity)
  {
    CrowdedGrows(before, after[|before|..], id, since, capacity);
    assert before + after[|before|..] == after;
  }
}
