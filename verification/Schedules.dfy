/** Bucketed schedules: how many jobs ticks can enqueue, and where they leave the due times. */
module Schedules {
  import opened Core
  import opened Jobs
  import opened JobHistory
  import opened Fencing

  // Floor arithmetic

  lemma BucketMonotone(t: real, u: real, interval: real)
    requires interval > 0.0 && t <= u
    ensures BucketOf(t, interval) <= BucketOf(u, interval)
  {
    assert t / interval <= u / interval by {
      assert u / interval - t / interval == (u - t) / interval;
    }
  }

  lemma ScaleLe(x: real, y: real, k: real)
    requires x <= y && k > 0.0
    ensures x * k <= y * k
  {
  }

  lemma ScaleLt(x: real, y: real, k: real)
    requires x < y && k > 0.0
    ensures x * k < y * k
  {
  }

  /** Where the n-th interval begins, counted from zero. */
  function Boundary(n: int, interval: real): real {
    n as real * interval
  }

  /** The first beginning of an interval after `t`. */
  ghost predicate NextBoundary(t: real, interval: real, due: real) {
    t < due <= t + interval && exists n :: due == Boundary(n, interval)
  }

  /** The next due time is the first beginning of an interval after `t`. */
  lemma NextRunAfter(t: real, interval: real)
    requires interval > 0.0
    ensures NextBoundary(t, interval, NextRun(t, interval))
  {
    NextRunBounds(t, interval);
    assert NextRun(t, interval) == Boundary(BucketOf(t, interval) + 1, interval);
    hide NextRun, Boundary, BucketOf;
  }

  lemma NextRunBounds(t: real, interval: real)
    requires interval > 0.0
    ensures t < NextRun(t, interval) <= t + interval
  {
    var q, b := t / interval, BucketOf(t, interval) as real;
    assert q * interval == t;
    ScaleLe(b, q, interval);
    ScaleLt(q, b + 1.0, interval);
    assert NextRun(t, interval) == (b + 1.0) * interval == b * interval + interval;
  }

  // Which commands create a schedule's job

  /** Every new row of a tick runs a schedule's request, and its key names that schedule, its interval and the
      bucket of the tick. */
  ghost predicate OnlyBuckets(s: Store, s1: Store, t: real) {
    forall id :: id in s1.jobs && id !in s.jobs ==>
      && s1.jobs[id].key.Bucket?
      && var sid := s1.jobs[id].key.schedule;
      && sid in s.schedules && s.schedules[sid].interval > 0.0
      && s1.jobs[id].kind == s.schedules[sid].kind && s1.jobs[id].payload == s.schedules[sid].payload
      && s1.jobs[id].key == Bucket(sid, s.schedules[sid].interval, BucketOf(t, s.schedules[sid].interval))
      && s1.jobs[id].status.Queued? && s1.jobs[id].attempts == 0 && s1.jobs[id].maxAttempts == 3
      && s1.jobs[id].notBefore == t && s1.jobs[id].createdAt == t
  }

  ghost predicate NoBuckets(s: Store, s1: Store) {
    forall id :: id in s1.jobs && id !in s.jobs ==> !s1.jobs[id].key.Bucket?
  }

  /** Ticks write nothing but due times to the schedules. */
  predicate SameRequests(s: Store, s1: Store) {
    && s1.schedules.Keys == s.schedules.Keys
    && forall id :: id in s.schedules ==>
         s1.schedules[id] == s.schedules[id].(nextRunAt := s1.schedules[id].nextRunAt)
  }

  lemma TickOneBuckets(s: Store, id: Id, uuid: Id, t: real)
    requires id in s.schedules && s.schedules[id].interval > 0.0 && TickOne(s, id, uuid, t).Ok?
    ensures var s1 := TickOne(s, id, uuid, t).value.0;
      OnlyBuckets(s, s1, t) && SameRequests(s, s1) && forall k :: k in s.jobs ==> k in s1.jobs && s1.jobs[k] == s.jobs[k]
  {
  }

  lemma {:induction false} TickBuckets(s: Store, ids: seq<(Id, Id)>, t: real)
    requires Inv(s) && Tick(s, ids, t).Ok?
    ensures var s1 := Tick(s, ids, t).value.0; OnlyBuckets(s, s1, t) && SameRequests(s, s1)
  {
    hide Inv, TickOne, BucketOf;
    if ids != [] {
      var front, id, uuid := ids[..|ids| - 1], ids[|ids| - 1].0, ids[|ids| - 1].1;
      TickBuckets(s, front, t);
      var s1 := Tick(s, front, t).value.0;
      if id in s1.schedules && s1.schedules[id].interval > 0.0 && DueAt(s1.schedules[id], t) {
        TickOneBuckets(s1, id, uuid, t);
        TickInv(s, front, t);
        TickOneInv(s1, id, uuid, t);
      }
    }
  }

  lemma StepBuckets(s: Store, c: Cmd)
    requires Inv(s) && Admissible(s, c)
    ensures if c.CTick? then OnlyBuckets(s, Apply(s, c), c.now) else NoBuckets(s, Apply(s, c))
  {
    hide Inv, Expire, Tick, CancelRows, OnlyBuckets, Judge;
    match c {
      case CTick(ids, now) =>
        hide NoBuckets;
        if Tick(s, ids, now).Ok? {
          TickBuckets(s, ids, now);
        } else {
          NothingNew(s, now);
        }
      case CClaim(worker, lease, kinds, order, now) =>
        forall id ensures id in Expire(s, order, now).jobs <==> id in s.jobs {
          ExpireKeepsTokens(s, order, now, id);
        }
      case CCancel(id, order, now) =>
        if id in s.jobs {
          CancelRowsKeys(s, id, order, now);
        }
      case _ =>
    }
  }

  lemma NothingNew(s: Store, t: real)
    ensures OnlyBuckets(s, s, t)
  {
  }

  lemma CancelRowsKeys(s: Store, id: Id, order: seq<Id>, now: real)
    requires Inv(s) && id in s.jobs
    ensures Cancel(s, id, order, now).value.jobs.Keys == s.jobs.Keys
  {
    var run := CancelTarget(id, s.jobs[id].payload);
    hide CancelRows;
    CancelRowsInv(s.(cancelled := s.cancelled + {run}), order, run, now);
  }

  // At most one job per bucket

  lemma {:induction false} Pigeonhole(ids: set<Id>, bucket: map<Id, int>, lo: int, hi: int)
    requires ids <= bucket.Keys && forall id :: id in ids ==> lo <= bucket[id] <= hi
    requires forall i, j :: i in ids && j in ids && i != j ==> bucket[i] != bucket[j]
    ensures |ids| == 0 || |ids| <= hi - lo + 1
    decreases hi - lo
  {
    if ids != {} {
      var some :| some in ids;
      if id :| id in ids && bucket[id] == hi {
        if ids != {id} {
          Pigeonhole(ids - {id}, bucket, lo, hi - 1);
        }
      } else {
        Pigeonhole(ids, bucket, lo, hi - 1);
      }
    }
  }

  /** The jobs of one schedule that exist in `s1` and not yet in `s`. */
  function NewJobs(s: Store, s1: Store, sid: Id): set<Id> {
    set id | id in s1.jobs && id !in s.jobs && s1.jobs[id].key.Bucket? && s1.jobs[id].key.schedule == sid
  }

  /** Between the m-th and the n-th command, ticks name times in [a, b] and the schedule keeps its interval. */
  ghost predicate TicksWithin(cmds: seq<Cmd>, m: nat, n: nat, sid: Id, interval: real, a: real, b: real)
    requires m <= n <= |cmds|
  {
    forall k :: m <= k < n && cmds[k].CTick? ==>
      && a <= cmds[k].now <= b
      && (sid in After(cmds, k).schedules ==> After(cmds, k).schedules[sid].interval == interval)
  }

  ghost predicate InRange(s: Store, ids: set<Id>, sid: Id, interval: real, lo: int, hi: int) {
    forall id :: id in ids && id in s.jobs ==>
      && s.jobs[id].key.Bucket? && s.jobs[id].key == Bucket(sid, interval, s.jobs[id].key.bucket)
      && lo <= s.jobs[id].key.bucket <= hi
  }

  lemma InRangeStep(
    s: Store, s1: Store, s2: Store, c: Cmd, sid: Id, interval: real, a: real, b: real)
    requires interval > 0.0 && Grows(s1, s2)
    requires InRange(s1, NewJobs(s, s1, sid), sid, interval, BucketOf(a, interval), BucketOf(b, interval))
    requires if c.CTick? then OnlyBuckets(s1, s2, c.now) else NoBuckets(s1, s2)
    requires c.CTick? ==> a <= c.now <= b && (sid in s1.schedules ==> s1.schedules[sid].interval == interval)
    ensures InRange(s2, NewJobs(s, s2, sid), sid, interval, BucketOf(a, interval), BucketOf(b, interval))
  {
    if c.CTick? {
      BucketMonotone(a, c.now, interval);
      BucketMonotone(c.now, b, interval);
    }
    hide BucketOf;
    forall id | id in NewJobs(s, s2, sid)
      ensures s2.jobs[id].key == Bucket(sid, interval, s2.jobs[id].key.bucket)
      ensures BucketOf(a, interval) <= s2.jobs[id].key.bucket <= BucketOf(b, interval)
    {
      if id in s1.jobs {
        assert Evolves(s1.jobs[id], s2.jobs[id]);
        assert id in NewJobs(s, s1, sid);
      }
    }
  }

  lemma {:induction false} NewJobsInRange(
    cmds: seq<Cmd>, m: nat, n: nat, sid: Id, interval: real, a: real, b: real)
    requires Possible(cmds) && m <= n <= |cmds| && interval > 0.0 && TicksWithin(cmds, m, n, sid, interval, a, b)
    ensures InRange(After(cmds, n), NewJobs(After(cmds, m), After(cmds, n), sid), sid, interval,
                    BucketOf(a, interval), BucketOf(b, interval))
    decreases n - m
  {
    hide Inv, Apply, InRange, OnlyBuckets, NoBuckets, Grows, After, BucketOf, NewJobs, Admissible, Possible, TicksWithin;
    if m == n {
      NoneInRange(After(cmds, m), sid, interval, a, b);
    } else {
      TicksWithinFront(cmds, m, n, sid, interval, a, b);
      NewJobsInRange(cmds, m, n - 1, sid, interval, a, b);
      Reachable(cmds, n - 1);
      Later(cmds, n - 1, n);
      StepBuckets(After(cmds, n - 1), cmds[n - 1]);
      InRangeStep(After(cmds, m), After(cmds, n - 1), After(cmds, n), cmds[n - 1], sid, interval, a, b);
    }
  }

  lemma NoneInRange(s: Store, sid: Id, interval: real, a: real, b: real)
    requires interval > 0.0
    ensures InRange(s, NewJobs(s, s, sid), sid, interval, BucketOf(a, interval), BucketOf(b, interval))
  {
  }

  lemma TicksWithinFront(cmds: seq<Cmd>, m: nat, n: nat, sid: Id, interval: real, a: real, b: real)
    requires m < n <= |cmds| && TicksWithin(cmds, m, n, sid, interval, a, b)
    ensures TicksWithin(cmds, m, n - 1, sid, interval, a, b)
    ensures cmds[n - 1].CTick? ==>
      && a <= cmds[n - 1].now <= b
      && (sid in After(cmds, n - 1).schedules ==> After(cmds, n - 1).schedules[sid].interval == interval)
  {
  }

  /** Coalescing: ticks at times in [a, b], in any order and between any other commands, give a schedule of
      fixed interval i at most floor(b/i) - floor(a/i) + 1 jobs. */
  lemma ScheduleCoalesces(cmds: seq<Cmd>, m: nat, n: nat, sid: Id, interval: real, a: real, b: real)
    requires Possible(cmds) && m <= n <= |cmds| && interval > 0.0 && a <= b
    requires TicksWithin(cmds, m, n, sid, interval, a, b)
    ensures |NewJobs(After(cmds, m), After(cmds, n), sid)| <= (b / interval).Floor - (a / interval).Floor + 1
  {
    NewJobsInRange(cmds, m, n, sid, interval, a, b);
    Reachable(cmds, n);
    BucketMonotone(a, b, interval);
    hide JournalOk, After, BucketOf, Possible, TicksWithin, JobOk;
    var s1 := After(cmds, n);
    var ids := NewJobs(After(cmds, m), s1, sid);
    var bucket := map id | id in s1.jobs && s1.jobs[id].key.Bucket? :: s1.jobs[id].key.bucket;
    forall i, j | i in ids && j in ids && i != j
      ensures bucket[i] != bucket[j]
    {
      assert s1.jobs[i].key != s1.jobs[j].key;
    }
    Pigeonhole(ids, bucket, BucketOf(a, interval), BucketOf(b, interval));
  }

  // Where a tick leaves the due times

  ghost predicate Handled(s: Store, s1: Store, id: Id, t: real)
    requires id in s.schedules && id in s1.schedules
  {
    || NextBoundary(t, s.schedules[id].interval, s1.schedules[id].nextRunAt)
    || (s1.schedules[id] == s.schedules[id] && Judge(s1, id, t).Hold?)
  }

  /** The jobs that keep a schedule back stay active while other schedules are handled. */
  lemma TickOneKeepsActive(s: Store, id: Id, uuid: Id, t: real, o: Id)
    requires Inv(s) && id in s.schedules && s.schedules[id].interval > 0.0 && TickOne(s, id, uuid, t).Ok?
    requires o in s.schedules && o != id && Judge(s, o, t).Hold?
    ensures var s1 := TickOne(s, id, uuid, t).value.0;
      o in s1.schedules && s1.schedules[o] == s.schedules[o] && Judge(s1, o, t).Hold?
  {
    hide Inv, BucketOf, NextRun, KeyUsed;
    var k :| k in s.jobs && Active(s.jobs[k]) && s.jobs[k].key.Bucket? && s.jobs[k].key.schedule == o;
    var s1 := TickOne(s, id, uuid, t).value.0;
    assert k in s1.jobs && s1.jobs[k] == s.jobs[k];
  }

  lemma TickOneHandles(s: Store, id: Id, uuid: Id, t: real)
    requires id in s.schedules && s.schedules[id].interval > 0.0 && TickOne(s, id, uuid, t).Ok?
    ensures var s1 := TickOne(s, id, uuid, t).value.0; id in s1.schedules && Handled(s, s1, id, t)
  {
    NextRunAfter(t, s.schedules[id].interval);
    hide BucketOf, NextRun, KeyUsed;
  }

  /** A held schedule's tick changes nothing, so it can be repeated. */
  lemma {:induction false} TickOnly(s: Store, ids: seq<(Id, Id)>, t: real, o: Id)
    requires Inv(s) && Tick(s, ids, t).Ok? && o in s.schedules
    ensures var s1 := Tick(s, ids, t).value.0;
      && o in s1.schedules && s1.schedules[o].interval == s.schedules[o].interval
      && (s1.schedules[o] == s.schedules[o] || NextBoundary(t, s.schedules[o].interval, s1.schedules[o].nextRunAt))
      && (DueAt(s.schedules[o], t) && (exists n :: 0 <= n < |ids| && ids[n].0 == o) ==> Handled(s, s1, o, t))
  {
    hide Inv, TickOne, Judge;
    if ids != [] {
      var front, id, uuid := ids[..|ids| - 1], ids[|ids| - 1].0, ids[|ids| - 1].1;
      TickOnly(s, front, t, o);
      TickInv(s, front, t);
      var s1 := Tick(s, front, t).value.0;
      IntervalPositive(s1, o);
      if id in s1.schedules && s1.schedules[id].interval > 0.0 && DueAt(s1.schedules[id], t) {
        TickOneHandles(s1, id, uuid, t);
        TickOneBuckets(s1, id, uuid, t);
        if o != id {
          OthersKept(s1, id, uuid, t, o);
          if Judge(s1, o, t).Hold? {
            TickOneKeepsActive(s1, id, uuid, t, o);
          }
        }
      }
      if n :| 0 <= n < |front| && ids[n].0 == o {
        assert front[n].0 == o;
      }
    }
  }

  lemma OthersKept(s: Store, id: Id, uuid: Id, t: real, o: Id)
    requires id in s.schedules && s.schedules[id].interval > 0.0 && TickOne(s, id, uuid, t).Ok?
    requires o in s.schedules && o != id
    ensures var s1 := TickOne(s, id, uuid, t).value.0; o in s1.schedules && s1.schedules[o] == s.schedules[o]
  {
  }

  ghost predicate ListsDue(s: Store, ids: seq<(Id, Id)>, t: real) {
    forall id :: id in s.schedules && DueAt(s.schedules[id], t) ==> exists n :: 0 <= n < |ids| && ids[n].0 == id
  }

  /** Every due schedule is left due at the start of the next bucket, unless `buffer_one` held it back. */
  lemma TickLeavesDueLater(s: Store, ids: seq<(Id, Id)>, t: real, id: Id)
    requires Inv(s) && Tick(s, ids, t).Ok? && ListsDue(s, ids, t)
    requires id in s.schedules && DueAt(s.schedules[id], t)
    ensures var s1 := Tick(s, ids, t).value.0;
      && id in s1.schedules
      && (|| NextBoundary(t, s.schedules[id].interval, s1.schedules[id].nextRunAt)
          || (&& s1.schedules[id] == s.schedules[id] && s.schedules[id].overlap.BufferOne?
              && HasActiveBucket(s1, id)))
  {
    hide Inv, Tick;
    TickOnly(s, ids, t, id);
  }

  /** A tick repeated at the same time enqueues nothing and changes nothing. */
  lemma {:induction false} RepeatedTickIsIdle(s: Store, ids: seq<(Id, Id)>, again: seq<(Id, Id)>, t: real)
    requires Inv(s) && Tick(s, ids, t).Ok? && ListsDue(s, ids, t)
    ensures var s1 := Tick(s, ids, t).value.0; Tick(s1, again, t) == Ok((s1, 0))
    decreases |again|
  {
    var s1 := Tick(s, ids, t).value.0;
    if again != [] {
      RepeatedTickIsIdle(s, ids, again[..|again| - 1], t);
      var id := again[|again| - 1].0;
      if id in s1.schedules && s1.schedules[id].interval > 0.0 && DueAt(s1.schedules[id], t) {
        TickBuckets(s, ids, t);
        TickOnly(s, ids, t, id);
        assert Judge(s1, id, t).Hold?;
      }
    }
  }
}
