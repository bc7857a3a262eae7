/** A second tick at the time of an earlier one: when it enqueues a schedule that `buffer_one` had held back. */
module HeldTicks {
  import opened Core
  import opened Jobs
  import opened JobHistory
  import opened Fencing
  import opened Schedules
  import opened Workflow

  // What one tick enqueues

  /** A job of the schedule is queued or running. */
  ghost predicate Busy(s: Store, sid: Id) {
    exists id :: id in s.jobs && (s.jobs[id].status.Queued? || s.jobs[id].status.Running?) && s.jobs[id].key.Bucket?
                 && s.jobs[id].key.schedule == sid
  }

  /** The schedule already has a job, of any status, for the interval that holds `t`. */
  ghost predicate BucketTaken(s: Store, sid: Id, interval: real, t: real)
    requires interval > 0.0
  {
    exists id :: id in s.jobs && s.jobs[id].key == Bucket(sid, interval, (t / interval).Floor)
  }

  /** Overdue for longer than the catch-up window, if it has one. */
  predicate TooLate(c: Schedule, t: real) {
    c.catchup != 0.0 && t > c.nextRunAt + c.catchup
  }

  /** Due, in time, not kept waiting by a job of its own, and without a job for this interval. */
  ghost predicate ShouldEnqueue(s: Store, sid: Id, t: real) {
    && sid in s.schedules
    && var c := s.schedules[sid];
    && c.interval > 0.0 && c.enabled && c.nextRunAt <= t && !TooLate(c, t)
    && (Busy(s, sid) ==> c.overlap.Skip? || c.overlap.Allow?)
    && !BucketTaken(s, sid, c.interval, t)
  }

  /** Due, but too late, or skipped because a job of its own is at work. */
  ghost predicate ShouldMiss(s: Store, sid: Id, t: real) {
    && sid in s.schedules
    && var c := s.schedules[sid];
    && c.interval > 0.0 && c.enabled && c.nextRunAt <= t
    && (TooLate(c, t) || (c.overlap.SkipIfRunning? && Busy(s, sid)))
  }

  function BucketKey(c: Schedule, sid: Id, t: real): Key
    requires c.interval > 0.0
  {
    Bucket(sid, c.interval, BucketOf(t, c.interval))
  }

  /** The log got an entry that the schedule was missed. */
  ghost predicate MissLogged(s: Store, s1: Store, sid: Id) {
    exists n :: |s.events| <= n < |s1.events| && s1.events[n].body.ScheduleMissed? && s1.events[n].body.schedule == sid
  }

  ghost predicate Misses(s: Store, sid: Id, t: real) {
    sid in s.schedules && s.schedules[sid].interval > 0.0 && DueAt(s.schedules[sid], t) && Judge(s, sid, t).Miss?
  }

  lemma JudgedBy(s: Store, sid: Id, t: real)
    ensures Enqueues(s, sid, t) <==> ShouldEnqueue(s, sid, t)
    ensures Misses(s, sid, t) <==> ShouldMiss(s, sid, t)
  {
    if sid in s.schedules && s.schedules[sid].interval > 0.0 {
      var key := BucketKey(s.schedules[sid], sid, t);
      BusyIs(s, sid);
      TakenIs(s, key);
      hide HasActiveBucket, Busy, KeyUsed;
      assert BucketTaken(s, sid, s.schedules[sid].interval, t) <==> KeyUsed(s, key);
      hide BucketTaken;
    }
  }

  lemma BusyIs(s: Store, sid: Id)
    ensures Busy(s, sid) <==> HasActiveBucket(s, sid)
  {
  }

  lemma TakenIs(s: Store, key: Key)
    ensures KeyUsed(s, key) <==> exists id :: id in s.jobs && s.jobs[id].key == key
  {
    if id :| id in s.jobs && s.jobs[id].key == key {
      assert HasKey(s, key, id);
    }
  }

  /** The schedule is due, nothing misses it or holds it back, and its bucket has no job yet. */
  ghost predicate Enqueues(s: Store, sid: Id, t: real) {
    && sid in s.schedules && s.schedules[sid].interval > 0.0 && DueAt(s.schedules[sid], t)
    && Judge(s, sid, t).Due? && !KeyUsed(s, BucketKey(s.schedules[sid], sid, t))
  }

  /** The rows that one schedule's turn adds: at most the job of its own bucket, and entries about itself. */
  ghost predicate AddsOnly(s: Store, s1: Store, id: Id) {
    && s.events <= s1.events
    && (forall n :: |s.events| <= n < |s1.events| && s1.events[n].body.ScheduleMissed? ==> s1.events[n].body.schedule == id)
    && (forall k :: k in s.jobs ==> k in s1.jobs && s1.jobs[k] == s.jobs[k])
    && (forall k :: k in s1.jobs && k !in s.jobs ==> s1.jobs[k].key.Bucket? && s1.jobs[k].key.schedule == id)
  }

  lemma TickOneAdds(s: Store, id: Id, uuid: Id, t: real)
    requires id in s.schedules && s.schedules[id].interval > 0.0 && TickOne(s, id, uuid, t).Ok?
    ensures var s1 := TickOne(s, id, uuid, t).value.0;
      && AddsOnly(s, s1, id)
      && (NewJobs(s, s1, id) != {} <==>
            Judge(s, id, t).Due? && !KeyUsed(s, BucketKey(s.schedules[id], id, t)))
      && (MissLogged(s, s1, id) <==> Judge(s, id, t).Miss?)
  {
    hide BucketOf, NextRun, KeyUsed, Judge, SameRequest, Cancelled;
    var s1 := TickOne(s, id, uuid, t).value.0;
    if Judge(s, id, t).Due? && !KeyUsed(s, BucketKey(s.schedules[id], id, t)) {
      assert uuid in NewJobs(s, s1, id);
    }
    if Judge(s, id, t).Miss? {
      assert s1.events[|s.events|].body.ScheduleMissed?;
    }
  }

  /** Another schedule's turn leaves this one's jobs, and what decides about it, as they were. */
  lemma OthersDoNotMatter(s: Store, s1: Store, id: Id, sid: Id, t: real)
    requires AddsOnly(s, s1, id) && id != sid
    requires sid in s.schedules && sid in s1.schedules && s1.schedules[sid] == s.schedules[sid]
    ensures NewJobs(s, s1, sid) == {} && Judge(s1, sid, t) == Judge(s, sid, t)
    ensures s.schedules[sid].interval > 0.0 ==>
      (KeyUsed(s1, BucketKey(s.schedules[sid], sid, t)) <==> KeyUsed(s, BucketKey(s.schedules[sid], sid, t)))
  {
    hide BucketOf;
    assert HasActiveBucket(s1, sid) <==> HasActiveBucket(s, sid) by {
      if HasActiveBucket(s, sid) {
        var k :| k in s.jobs && Active(s.jobs[k]) && s.jobs[k].key.Bucket? && s.jobs[k].key.schedule == sid;
        assert k in s1.jobs && s1.jobs[k] == s.jobs[k];
      }
    }
    hide HasActiveBucket;
    if s.schedules[sid].interval > 0.0 {
      var key := BucketKey(s.schedules[sid], sid, t);
      if KeyUsed(s, key) {
        var k :| HasKey(s, key, k);
        assert HasKey(s1, key, k);
      }
      if KeyUsed(s1, key) {
        var k :| HasKey(s1, key, k);
        assert HasKey(s, key, k);
      }
    }
  }

  lemma NewJobsAdd(s: Store, s1: Store, s2: Store, id: Id, sid: Id)
    requires (forall k :: k in s.jobs ==> k in s1.jobs && s1.jobs[k] == s.jobs[k]) && AddsOnly(s1, s2, id)
    ensures NewJobs(s, s2, sid) == NewJobs(s, s1, sid) + NewJobs(s1, s2, sid)
  {
  }

  lemma MissesAdd(s: Store, s1: Store, s2: Store, sid: Id)
    requires s.events <= s1.events && s1.events <= s2.events
    ensures MissLogged(s, s2, sid) <==> MissLogged(s, s1, sid) || MissLogged(s1, s2, sid)
  {
    if n :| |s.events| <= n < |s1.events| && s1.events[n].body.ScheduleMissed? && s1.events[n].body.schedule == sid {
      assert s2.events[n] == s1.events[n];
    }
    if n :| |s.events| <= n < |s2.events| && s2.events[n].body.ScheduleMissed? && s2.events[n].body.schedule == sid {
      assert n < |s1.events| ==> s1.events[n] == s2.events[n];
    }
  }

  predicate Lists(ids: seq<(Id, Id)>, sid: Id) {
    exists n :: 0 <= n < |ids| && ids[n].0 == sid
  }

  /** Where a tick stands with one schedule after some of its list: not reached, nothing is decided; reached, it
      has enqueued exactly when it should, and will not again. */
  ghost predicate Decided(s: Store, s1: Store, sid: Id, t: real, reached: bool)
    requires sid in s.schedules
  {
    && sid in s1.schedules && s.events <= s1.events
    && (forall k :: k in s.jobs ==> k in s1.jobs && s1.jobs[k] == s.jobs[k])
    && (!reached ==>
          && NewJobs(s, s1, sid) == {} && !MissLogged(s, s1, sid) && s1.schedules[sid] == s.schedules[sid]
          && Judge(s1, sid, t) == Judge(s, sid, t)
          && (s.schedules[sid].interval > 0.0 ==>
                (KeyUsed(s1, BucketKey(s.schedules[sid], sid, t)) <==> KeyUsed(s, BucketKey(s.schedules[sid], sid, t)))))
    && (reached ==>
          && (NewJobs(s, s1, sid) != {} <==> Enqueues(s, sid, t))
          && (MissLogged(s, s1, sid) <==> Misses(s, sid, t))
          && (DueAt(s1.schedules[sid], t) ==> Judge(s1, sid, t).Hold?))
  }

  lemma DecideOther(s: Store, s1: Store, s2: Store, id: Id, sid: Id, t: real, reached: bool)
    requires sid in s.schedules && Decided(s, s1, sid, t, reached) && AddsOnly(s1, s2, id) && id != sid
    requires sid in s2.schedules && s2.schedules[sid] == s1.schedules[sid]
    ensures Decided(s, s2, sid, t, reached)
  {
    hide Judge, KeyUsed, BucketOf, Enqueues, Misses;
    OthersDoNotMatter(s1, s2, id, sid, t);
    NewJobsAdd(s, s1, s2, id, sid);
    MissesAdd(s, s1, s2, sid);
    hide NewJobs;
  }

  lemma DecideThis(s: Store, s1: Store, uuid: Id, sid: Id, t: real, reached: bool)
    requires sid in s.schedules && Decided(s, s1, sid, t, reached) && DueAt(s1.schedules[sid], t)
    requires s1.schedules[sid].interval > 0.0 && TickOne(s1, sid, uuid, t).Ok?
    ensures Decided(s, TickOne(s1, sid, uuid, t).value.0, sid, t, true)
  {
    hide KeyUsed, BucketOf, NextRun, NewJobs, MissLogged;
    var s2 := TickOne(s1, sid, uuid, t).value.0;
    TickOneAdds(s1, sid, uuid, t);
    TickOneHandles(s1, sid, uuid, t);
    NewJobsAdd(s, s1, s2, sid, sid);
    MissesAdd(s, s1, s2, sid);
    hide TickOne, Judge;
  }

  lemma {:induction false} TickDecides(s: Store, ids: seq<(Id, Id)>, t: real, sid: Id)
    requires Inv(s) && Tick(s, ids, t).Ok? && sid in s.schedules
    ensures Decided(s, Tick(s, ids, t).value.0, sid, t, DueAt(s.schedules[sid], t) && Lists(ids, sid))
  {
    hide Inv, TickOne, Decided, Judge, Enqueues, Misses;
    if ids == [] {
      NothingDecided(s, sid, t);
    } else {
      var front, id, uuid := ids[..|ids| - 1], ids[|ids| - 1].0, ids[|ids| - 1].1;
      TickDecides(s, front, t, sid);
      TickInv(s, front, t);
      TickOnly(s, front, t, sid);
      var s1 := Tick(s, front, t).value.0;
      IntervalPositive(s1, sid);
      ListsSnoc(front, ids[|ids| - 1], sid);
      assert ids == front + [ids[|ids| - 1]];
      var reached := DueAt(s.schedules[sid], t) && Lists(front, sid);
      if id in s1.schedules && s1.schedules[id].interval > 0.0 && DueAt(s1.schedules[id], t) {
        if id == sid {
          DecideThis(s, s1, uuid, sid, t, reached);
        } else {
          TickOneAdds(s1, id, uuid, t);
          OthersKept(s1, id, uuid, t, sid);
          DecideOther(s, s1, TickOne(s1, id, uuid, t).value.0, id, sid, t, reached);
        }
      } else if id == sid && !reached && DueAt(s.schedules[sid], t) {
        UndecidedIsDue(s, s1, sid, t);
      }
    }
  }

  lemma NothingDecided(s: Store, sid: Id, t: real)
    requires sid in s.schedules
    ensures Decided(s, s, sid, t, false)
  {
  }

  lemma UndecidedIsDue(s: Store, s1: Store, sid: Id, t: real)
    requires sid in s.schedules && Decided(s, s1, sid, t, false) && DueAt(s.schedules[sid], t)
    ensures sid in s1.schedules && DueAt(s1.schedules[sid], t)
  {
  }

  lemma ListsSnoc(ids: seq<(Id, Id)>, last: (Id, Id), sid: Id)
    ensures Lists(ids + [last], sid) <==> Lists(ids, sid) || last.0 == sid
  {
    var more := ids + [last];
    if Lists(ids, sid) {
      var n :| 0 <= n < |ids| && ids[n].0 == sid;
      assert more[n].0 == sid;
    }
    if last.0 == sid {
      assert more[|ids|].0 == sid;
    }
  }

  /** A tick enqueues a schedule's job exactly when the schedule is due, within its catch-up window, not kept waiting by
      a job of its own, and without a job for this interval; it logs a miss exactly when the schedule is due and too
      late, or is to be skipped while a job of its own is at work. */
  lemma TickEnqueuesExactly(s: Store, ids: seq<(Id, Id)>, t: real, sid: Id)
    requires Inv(s) && Tick(s, ids, t).Ok? && ListsDue(s, ids, t)
    ensures NewJobs(s, Tick(s, ids, t).value.0, sid) != {} <==> ShouldEnqueue(s, sid, t)
    ensures MissLogged(s, Tick(s, ids, t).value.0, sid) <==> ShouldMiss(s, sid, t)
  {
    if sid in s.schedules {
      hide Tick, Judge, KeyUsed, NewJobs, MissLogged, Enqueues, Misses, ShouldEnqueue, ShouldMiss;
      TickDecides(s, ids, t, sid);
      JudgedBy(s, sid, t);
      UnlistedIsNotDue(s, ids, t, sid);
    } else {
      TickBuckets(s, ids, t);
      UnknownIsNotMissed(s, ids, t, sid);
    }
  }

  lemma UnlistedIsNotDue(s: Store, ids: seq<(Id, Id)>, t: real, sid: Id)
    requires ListsDue(s, ids, t) && sid in s.schedules
    ensures !(DueAt(s.schedules[sid], t) && Lists(ids, sid)) ==> !Enqueues(s, sid, t) && !Misses(s, sid, t)
  {
  }

  /** No entry about a schedule that does not exist. */
  lemma {:induction false} UnknownIsNotMissed(s: Store, ids: seq<(Id, Id)>, t: real, sid: Id)
    requires Inv(s) && Tick(s, ids, t).Ok? && sid !in s.schedules
    ensures s.events <= Tick(s, ids, t).value.0.events && !MissLogged(s, Tick(s, ids, t).value.0, sid)
  {
    hide Inv, TickOne, MissLogged, Judge;
    if ids == [] {
      NothingMissed(s, sid);
    } else {
      var front, id, uuid := ids[..|ids| - 1], ids[|ids| - 1].0, ids[|ids| - 1].1;
      UnknownIsNotMissed(s, front, t, sid);
      TickBuckets(s, front, t);
      var s1 := Tick(s, front, t).value.0;
      if id in s1.schedules && s1.schedules[id].interval > 0.0 && DueAt(s1.schedules[id], t) {
        TickOneAdds(s1, id, uuid, t);
        var s2 := TickOne(s1, id, uuid, t).value.0;
        MissesAdd(s, s1, s2, sid);
        OthersNotMissed(s1, s2, id, sid);
      }
    }
  }

  lemma NothingMissed(s: Store, sid: Id)
    ensures !MissLogged(s, s, sid)
  {
  }

  lemma OthersNotMissed(s: Store, s1: Store, id: Id, sid: Id)
    requires AddsOnly(s, s1, id) && id != sid
    ensures !MissLogged(s, s1, sid)
  {
  }

  // Between two ticks

  /** No tick, and no edit of this schedule. */
  predicate Quiet(c: Cmd, sid: Id) {
    !c.CTick? && !(c.CPutSchedule? && c.id == sid)
  }

  predicate SameSchedule(s: Store, s1: Store, sid: Id) {
    (sid in s1.schedules <==> sid in s.schedules) && (sid in s.schedules ==> s1.schedules[sid] == s.schedules[sid])
  }

  lemma StepQuiet(s: Store, c: Cmd, sid: Id)
    requires Inv(s) && Admissible(s, c) && Quiet(c, sid)
    ensures SameSchedule(s, Apply(s, c), sid)
  {
    hide Inv, Expire, CancelRows, Tick;
    match c {
      case CClaim(_, _, _, order, now) => ExpireKeepsSchedules(s, order, now);
      case CCancel(id, order, now) => if id in s.jobs { CancelKeepsSchedules(s, id, order, now); }
      case _ =>
    }
  }

  lemma {:induction false} RunQuiet(s: Store, cmds: seq<Cmd>, sid: Id)
    requires Inv(s) && AdmissibleRun(s, cmds) && forall n :: 0 <= n < |cmds| ==> Quiet(cmds[n], sid)
    ensures SameSchedule(s, Run(s, cmds), sid)
  {
    hide Inv, Apply, Quiet;
    if cmds != [] {
      var front := cmds[..|cmds| - 1];
      PrefixAdmissible(s, cmds, |front|);
      assert Admissible(Run(s, cmds[..|front|]), cmds[|front|]);
      hide AdmissibleRun;
      RunQuiet(s, front, sid);
      RunInv(s, front);
      StepQuiet(Run(s, front), cmds[|front|], sid);
    }
  }

  /** The schedule is still due after a tick, because `buffer_one` holds it behind a job that is active. */
  ghost predicate Held(s: Store, sid: Id, t: real) {
    && sid in s.schedules && DueAt(s.schedules[sid], t) && s.schedules[sid].overlap.BufferOne?
    && HasActiveBucket(s, sid)
  }

  lemma EnqueuesWhenReleased(s: Store, s1: Store, sid: Id, t: real)
    requires Inv(s) && SameSchedule(s, s1, sid)
    requires sid in s.schedules && DueAt(s.schedules[sid], t) ==> Judge(s, sid, t).Hold?
    ensures Enqueues(s1, sid, t)
      <==> && Held(s, sid, t) && !HasActiveBucket(s1, sid)
           && !KeyUsed(s1, BucketKey(s.schedules[sid], sid, t))
  {
    hide HasActiveBucket, KeyUsed, BucketOf;
    if sid in s.schedules {
      IntervalPositive(s, sid);
      hide Inv;
    }
  }

  lemma DueMeansHeld(s: Store, ids: seq<(Id, Id)>, t: real, sid: Id)
    requires Inv(s) && Tick(s, ids, t).Ok? && ListsDue(s, ids, t)
    ensures var s1 := Tick(s, ids, t).value.0; sid in s1.schedules && DueAt(s1.schedules[sid], t) ==> Judge(s1, sid, t).Hold?
  {
    TickBuckets(s, ids, t);
    if sid in s.schedules {
      hide Inv, Tick, Judge, OnlyBuckets;
      TickOnly(s, ids, t, sid);
    }
  }

  /** Two ticks at one time, and between them any commands but ticks and edits of the schedule: the second tick
      enqueues a job for the schedule exactly when the first had to hold it back, no job of it is active any more,
      and the bucket has no job yet. */
  lemma LaterTickEnqueuesExactly(
    s: Store, ids: seq<(Id, Id)>, t: real, cmds: seq<Cmd>, again: seq<(Id, Id)>, sid: Id)
    requires Inv(s) && Tick(s, ids, t).Ok? && ListsDue(s, ids, t)
    requires var s1 := Tick(s, ids, t).value.0;
      && AdmissibleRun(s1, cmds) && (forall n :: 0 <= n < |cmds| ==> Quiet(cmds[n], sid))
      && Tick(Run(s1, cmds), again, t).Ok? && ListsDue(Run(s1, cmds), again, t)
    ensures var s1 := Tick(s, ids, t).value.0;
      var s2 := Run(s1, cmds);
      && (sid in s1.schedules ==> s1.schedules[sid].interval > 0.0)
      && (NewJobs(s2, Tick(s2, again, t).value.0, sid) != {}
          <==> && Held(s1, sid, t) && !HasActiveBucket(s2, sid)
               && !KeyUsed(s2, BucketKey(s1.schedules[sid], sid, t)))
  {
    var s1 := Tick(s, ids, t).value.0;
    hide Inv, Tick, Run, Judge, HasActiveBucket, KeyUsed, NewJobs, BucketOf, ListsDue, AdmissibleRun, Quiet, Enqueues, Held,
      SameSchedule;
    TickInv(s, ids, t);
    RunInv(s1, cmds);
    RunQuiet(s1, cmds, sid);
    DueMeansHeld(s, ids, t, sid);
    if sid in s1.schedules {
      IntervalPositive(s1, sid);
    }
    TickEnqueuesExactly(Run(s1, cmds), again, t, sid);
    JudgedBy(Run(s1, cmds), sid, t);
    EnqueuesWhenReleased(s1, Run(s1, cmds), sid, t);
  }

  // A run in which the second tick enqueues

  const SID: Id := 7
  const JOB: Id := 1
  const REQUEST := Payload(Absent, None, false, 0)
  const PLAN := Schedule(Other(0), REQUEST, 10.0, true, BufferOne, 0.0, 0.0)

  /** The schedule is put and ticked at 0; a tick at 10 finds its job active and holds it back; the job is claimed and
      completed; and there is a second tick at 10. */
  function ReleasedRun(): seq<Cmd> {
    [CPutSchedule(SID, PLAN, 0.0), CTick([(SID, JOB)], 0.0), CTick([(SID, 2)], 10.0),
     CClaim(5, 100.0, None, [], 10.0), CComplete(JOB, 5, 1, 0, None, 9, 10.0), CTick([(SID, 3)], 10.0)]
  }

  function FirstJob(): Job {
    NewJob(0, Other(0), REQUEST, Bucket(SID, 10.0, 0), Some(0.0), 3, 0.0)
  }

  lemma Buckets()
    ensures BucketOf(0.0, 10.0) == 0 && BucketOf(10.0, 10.0) == 1
    ensures NextRun(0.0, 10.0) == 10.0
  {
    assert 0.0 / 10.0 == 0.0 && 10.0 / 10.0 == 1.0;
  }

  lemma TickSingle(s: Store, id: Id, uuid: Id, t: real)
    requires id in s.schedules && s.schedules[id].interval > 0.0 && DueAt(s.schedules[id], t)
    ensures Tick(s, [(id, uuid)], t) == match TickOne(s, id, uuid, t)
      case Ok((s1, n)) => Ok((s1, n))
      case Err(e) => Err(e)
  {
    assert [(id, uuid)][..0] == [];
    assert Tick(s, [], t) == Ok((s, 0));
  }

  /** After the put, the store holds the one schedule, due at 0. */
  lemma FirstTick(s: Store)
    requires s.jobs == map[] && s.cancelled == {} && s.schedules == map[SID := PLAN]
    ensures var s1 := Apply(s, CTick([(SID, JOB)], 0.0));
      && s1.jobs == map[JOB := FirstJob()] && s1.cancelled == {}
      && s1.schedules == map[SID := PLAN.(nextRunAt := 10.0)]
  {
    Buckets();
    hide BucketOf, NextRun;
    assert !KeyUsed(s, Bucket(SID, 10.0, 0));
    assert Judge(s, SID, 0.0).Due?;
    TickSingle(s, SID, JOB, 0.0);
    hide KeyUsed, Tick, Judge;
  }

  lemma SecondTick(s: Store)
    requires s.jobs == map[JOB := FirstJob()] && s.schedules == map[SID := PLAN.(nextRunAt := 10.0)]
    ensures Tick(s, [(SID, 2)], 10.0) == Ok((s, 0)) && Held(s, SID, 10.0)
  {
    assert JOB in s.jobs && Active(s.jobs[JOB]);
    TickSingle(s, SID, 2, 10.0);
    hide Tick, EnqueueRow;
  }

  lemma FinishJob(s: Store)
    requires s.jobs == map[JOB := FirstJob()]
    ensures var s1 := Apply(s, CClaim(5, 100.0, None, [], 10.0));
      var s2 := Apply(s1, CComplete(JOB, 5, 1, 0, None, 9, 10.0));
      && s2.jobs.Keys == {JOB} && s2.jobs[JOB].status.Succeeded? && s2.jobs[JOB].key == FirstJob().key
      && s2.schedules == s.schedules && s2.cancelled == s.cancelled
  {
    assert Expire(s, [], 10.0) == s;
    assert JOB in s.jobs && Claimable(s.jobs[JOB], 10.0, None);
    FirstOfFinds(s, 10.0, None);
    hide IsFirst, FirstOf, Expire;
    assert FirstOf(s, 10.0, None) == Some(JOB) by { OnlyJob(s); }
    var s1 := Apply(s, CClaim(5, 100.0, None, [], 10.0));
    assert s1 == ClaimRow(s, JOB, 5, 100.0, 10.0);
    assert Holds(s1, JOB, 5, 1, 10.0);
  }

  lemma OnlyJob(s: Store)
    requires s.jobs.Keys == {JOB} && FirstOf(s, 10.0, None).Some?
    ensures FirstOf(s, 10.0, None) == Some(JOB)
  {
    FirstOfFinds(s, 10.0, None);
  }

  lemma ThirdTick(s: Store)
    requires s.jobs.Keys == {JOB} && s.jobs[JOB].status.Succeeded? && s.jobs[JOB].key == FirstJob().key
    requires s.schedules == map[SID := PLAN.(nextRunAt := 10.0)] && s.cancelled == {}
    ensures Tick(s, [(SID, 3)], 10.0).Ok? && 3 in NewJobs(s, Tick(s, [(SID, 3)], 10.0).value.0, SID)
  {
    Buckets();
    hide BucketOf, NextRun;
    assert !KeyUsed(s, Bucket(SID, 10.0, 1));
    assert Judge(s, SID, 10.0).Due?;
    TickSingle(s, SID, 3, 10.0);
    hide KeyUsed, Tick, Judge;
  }

  /** The second tick at one time can enqueue: `buffer_one` held the schedule back at the first, and its job
      finished in between. */
  lemma SecondTickCanEnqueue()
    ensures Possible(ReleasedRun())
    ensures Held(After(ReleasedRun(), 3), SID, 10.0) && After(ReleasedRun(), 3).jobs == After(ReleasedRun(), 2).jobs
    ensures NewJobs(After(ReleasedRun(), 5), After(ReleasedRun(), 6), SID) != {}
  {
    var cmds := ReleasedRun();
    hide Tick, Run, Expire, FirstOf, Claim, Complete, EnqueueRow, NewJobs, Held;
    var s0 := EmptyStore();
    var s1 := Apply(s0, cmds[0]);
    FirstTick(s1);
    var s2 := Apply(s1, cmds[1]);
    SecondTick(s2);
    var s3 := Apply(s2, cmds[2]);
    FinishJob(s3);
    var s4 := Apply(s3, cmds[3]);
    var s5 := Apply(s4, cmds[4]);
    ThirdTick(s5);
    Unfold(cmds);
    hide Apply;
    assert ListsExpired(s3, [], 10.0) by { NothingRuns(s3); }
    forall n | 0 <= n < |cmds| ensures Admissible(Run(s0, cmds[..n]), cmds[n]) {
    }
  }

  lemma NothingRuns(s: Store)
    requires s.jobs == map[JOB := FirstJob()]
    ensures ListsExpired(s, [], 10.0)
  {
  }

  /** The states of a run of six commands. */
  lemma Unfold(cmds: seq<Cmd>)
    requires |cmds| == 6
    ensures Run(EmptyStore(), cmds[..0]) == EmptyStore()
    ensures forall n: nat :: n < 6 ==>
      Run(EmptyStore(), cmds[..n + 1]) == Apply(Run(EmptyStore(), cmds[..n]), cmds[n])
  {
    forall n: nat | n < 6
      ensures Run(EmptyStore(), cmds[..n + 1]) == Apply(Run(EmptyStore(), cmds[..n]), cmds[n])
    {
      assert cmds[..n + 1][..n] == cmds[..n];
    }
  }
}
