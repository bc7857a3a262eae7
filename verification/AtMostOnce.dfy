/**
 At most one order and at most one send per execution key. Nothing is assumed here: not leases, not
 clocks, not what the exchange answers, and not the ledger's own laws.
 */
module AtMostOnce {
  import opened Core
  import opened Ledger
  import opened Execution

  ghost function Run(limits: Limits, steps: seq<Step>): Sys {
    if steps == [] then Init()
    else Next(Run(limits, steps[..|steps| - 1]), limits, steps[|steps| - 1])
  }

  /** The same orders with the same intents. */
  ghost predicate Same(b: Book, b1: Book) {
    && b1.orders.Keys == b.orders.Keys
    && (forall k :: k in b.orders ==> b1.orders[k].fingerprint == b.orders[k].fingerprint)
  }

  lemma FinishSame(b: Book, r: Record, f: Fill)
    requires Finish(b, r, f).Ok?
    ensures Same(b, Finish(b, r, f).value.0)
  {
  }

  lemma MarkSame(b: Book, limits: Limits, mode: RiskMode, r: Record)
    requires Mark(b, limits, mode, r).Ok?
    ensures Same(b, Mark(b, limits, mode, r).value.0)
  {
  }

  lemma SettleSame(s: Sys, a: nat)
    requires a in s.actors
    ensures Same(s.book, SettleStep(s, a).book)
  {
    hide Finish;
    match s.actors[a]
    case Answered(r, f) =>
      if Finish(s.book, r, f).Ok? {
        FinishSame(s.book, r, f);
      }
    case Blocked(k, why) =>
      if k in s.book.orders {
        var r := s.book.orders[k].data.(rejection := Some(why));
        if Finish(s.book, r, REJECTED_FILL).Ok? {
          FinishSame(s.book, r, REJECTED_FILL);
        }
      }
    case Looked(k, answer) =>
      if k in s.book.orders && answer.Some? && Finish(s.book, s.book.orders[k].data, answer.value).Ok? {
        FinishSame(s.book, s.book.orders[k].data, answer.value);
      }
    case _ =>
  }

  /** Only the reservation adds an order, and no step changes an intent. */
  lemma StepSame(s: Sys, limits: Limits, step: Step)
    requires !step.DoReserve?
    ensures Same(s.book, Next(s, limits, step).book)
  {
    hide Mark, SettleStep;
    match step
    case DoMark(a, mode) =>
      if a in s.actors && s.actors[a].Reserved? && Mark(s.book, limits, mode, s.actors[a].record).Ok? {
        MarkSame(s.book, limits, mode, s.actors[a].record);
      }
    case Settle(a) =>
      if a in s.actors {
        SettleSame(s, a);
      }
    case _ =>
  }

  /** The reservation adds nothing, or exactly the order of its own intent. */
  lemma ReserveSame(s: Sys, limits: Limits, step: Step)
    requires step.DoReserve? && step.a in s.actors && s.actors[step.a].Ready?
    ensures var i, b, b1 := s.actors[step.a].intent, s.book, ReserveStep(s, limits, step).book;
      || b1 == b
      || (&& i.key !in b.orders && b1.orders.Keys == b.orders.Keys + {i.key} && b1.orders[i.key].fingerprint == i
          && (forall k :: k in b.orders ==> b1.orders[k].fingerprint == b.orders[k].fingerprint))
  {
    hide Finish, AdmissibleQuote, PaperFill, HasOpenOrder, DailyBuys, Exposure, Reservation, RiskModeError, ValidIntent;
    var i := s.actors[step.a].intent;
    if limits.paper && Reserve(s.book, limits, step.mode, i, None, step.guard, step.now).Ok? {
      var b0 := Reserve(s.book, limits, step.mode, i, None, step.guard, step.now).value;
      assert b0.orders == Insert(s.book, i, step.now).orders;
      if Finish(b0, NewRecord(i), PaperFill(i, step.quote)).Ok? {
        FinishSame(b0, NewRecord(i), PaperFill(i, step.quote));
      }
    }
  }

  // The invariant

  /** The order of the record has the record's intent. */
  predicate Carries(b: Book, r: Record) {
    r.intent.key in b.orders && b.orders[r.intent.key].fingerprint == r.intent
  }

  ghost predicate Stage(b: Book, intents: map<OrderKey, Intent>, sends: map<OrderKey, nat>, actor: Actor) {
    match actor
    case Checked(k) => k.PipelineKey?
    case Fresh(k, c) => k.PipelineKey? && c.key == k
    case Ready(_) => true
    case Reserved(r) => Carries(b, r) && Count(sends, r.intent.key) == 0
    case Marked(r) => Carries(b, r) && Count(sends, r.intent.key) == 0
    case Answered(r, _) => r.intent.key in b.orders
    case Blocked(k, _) => k in b.orders && Count(sends, k) == 0
    case Failed(k) => k in b.orders
    case Looked(k, _) => k in b.orders
  }

  ghost predicate Keyed(intents: map<OrderKey, Intent>) {
    forall k :: k in intents ==> intents[k].key == k
  }

  ghost predicate Stages(s: Sys) {
    && Keyed(s.intents) && SendsOk(s.book, s.sends) && OneOwner(s.actors)
    && (forall c :: c in s.actors ==> Stage(s.book, s.intents, s.sends, s.actors[c]))
  }

  ghost predicate StagesBut(s: Sys, a: nat) {
    && Keyed(s.intents) && SendsOk(s.book, s.sends) && OneOwner(s.actors)
    && (forall c :: c in s.actors && c != a ==> Stage(s.book, s.intents, s.sends, s.actors[c]))
  }

  lemma GoneStages(s: Sys, a: nat)
    requires StagesBut(s, a)
    ensures Stages(Gone(s, a))
  {
  }

  lemma AtStages(s: Sys, a: nat, actor: Actor)
    requires StagesBut(s, a) && Stage(s.book, s.intents, s.sends, actor)
    requires Owned(actor).None? || (a in s.actors && Owned(actor) == Owned(s.actors[a]))
             || (forall c :: c in s.actors && c != a ==> Owned(s.actors[c]) != Owned(actor))
    ensures Stages(At(s, a, actor))
  {
  }

  /** Changing rows, but no key and no intent, changes nobody's stage. */
  lemma SameStages(s: Sys, b1: Book)
    requires Stages(s) && Same(s.book, b1)
    ensures Stages(s.(book := b1))
  {
  }

  lemma ReadStages(s: Sys, limits: Limits, step: Step)
    requires Stages(s)
    requires step.Execute? || step.ReadIntent? || step.Call? || step.Lookup? || step.Crash?
    ensures Stages(Next(s, limits, step))
  {
    hide SendsOk, OneOwner, ValidIntent;
    assert StagesBut(s, step.a);
    match step
    case Execute(a, run, _) => AtStages(s, a, Checked(PipelineKey(run)));
    case ReadIntent(a, gate, candidate) =>
      if a in s.actors && s.actors[a].Checked? {
        var k := s.actors[a].key;
        assert Stage(s.book, s.intents, s.sends, s.actors[a]);
        if k in s.intents {
          AtStages(s, a, Ready(s.intents[k]));
        } else if gate && candidate.key == k {
          AtStages(s, a, Fresh(k, candidate));
        } else {
          GoneStages(s, a);
        }
      }
    case Call(a, intent) =>
      if a !in s.actors && ValidIntent(intent) {
        AtStages(s, a, Ready(intent));
      }
    case Lookup(a, key, found) =>
      if a !in s.actors && key in s.book.orders {
        AtStages(s, a, Looked(key, found));
      }
    case Crash(a) => GoneStages(s, a);
  }

  lemma PersistStages(s: Sys, limits: Limits, a: nat)
    requires Stages(s)
    ensures Stages(Next(s, limits, Persist(a)))
  {
    hide SendsOk, OneOwner, ValidIntent;
    if a in s.actors && s.actors[a].Fresh? {
      var k, candidate := s.actors[a].key, s.actors[a].candidate;
      assert StagesBut(s, a) && Stage(s.book, s.intents, s.sends, s.actors[a]);
      if k in s.intents {
        AtStages(s, a, Ready(s.intents[k]));
      } else if !ValidIntent(candidate) {
        GoneStages(s, a);
      } else {
        var s1 := s.(intents := s.intents[k := candidate]);
        forall c | c in s.actors && c != a ensures Stage(s1.book, s1.intents, s1.sends, s.actors[c]) {
          assert Stage(s.book, s.intents, s.sends, s.actors[c]);
        }
        AtStages(s1, a, Ready(candidate));
      }
    }
  }

  lemma ReserveStages(s: Sys, limits: Limits, step: Step)
    requires Stages(s) && step.DoReserve? && step.a in s.actors && s.actors[step.a].Ready?
    ensures Stages(ReserveStep(s, limits, step))
  {
    hide Reserve, PaperSubmit;
    ReserveSame(s, limits, step);
    ReserveInserts(s, limits, step);
    var a, b1 := step.a, ReserveStep(s, limits, step).book;
    var s1, i := s.(book := b1), s.actors[step.a].intent;
    assert Stage(s.book, s.intents, s.sends, s.actors[a]);
    forall c | c in s.actors
      ensures Stage(b1, s.intents, s.sends, s.actors[c])
      ensures i.key !in s.book.orders ==> Owned(s.actors[c]) != Some(i.key)
    {
      assert Stage(s.book, s.intents, s.sends, s.actors[c]);
    }
    assert StagesBut(s1, a);
    hide Stage, Keyed, SendsOk, OneOwner;
    GoneStages(s1, a);
    if Reserve(s.book, limits, step.mode, i, step.remote, step.guard, step.now).Ok? && i.key !in s.book.orders && !limits.paper {
      NewOrderStage(s1, i);
      AtStages(s1, a, Reserved(NewRecord(i)));
    }
  }

  lemma ReserveInserts(s: Sys, limits: Limits, step: Step)
    requires step.DoReserve? && step.a in s.actors && s.actors[step.a].Ready?
    ensures var i := s.actors[step.a].intent;
      Reserve(s.book, limits, step.mode, i, step.remote, step.guard, step.now).Ok? && i.key !in s.book.orders && !limits.paper
      ==> Carries(ReserveStep(s, limits, step).book, NewRecord(i))
  {
  }

  lemma NewOrderStage(s: Sys, i: Intent)
    requires Carries(s.book, NewRecord(i)) && Count(s.sends, i.key) == 0
    ensures Stage(s.book, s.intents, s.sends, Reserved(NewRecord(i)))
  {
  }

  lemma MarkShape(s: Sys, limits: Limits, a: nat, mode: RiskMode)
    requires a in s.actors && s.actors[a].Reserved?
    ensures Same(s.book, MarkStep(s, limits, a, mode).book)
    ensures var s1 := s.(book := MarkStep(s, limits, a, mode).book);
      || MarkStep(s, limits, a, mode) == Gone(s1, a)
      || MarkStep(s, limits, a, mode) == At(s1, a, Marked(s.actors[a].record.(status := Submitting)))
  {
    var r := s.actors[a].record;
    if Mark(s.book, limits, mode, r).Ok? {
      MarkSame(s.book, limits, mode, r);
      var b1 := Mark(s.book, limits, mode, r).value.0;
      assert MarkStep(s, limits, a, mode).book == b1;
      assert RiskModeError(mode, limits.protectiveExit, r.intent.side).None? ==>
        Mark(s.book, limits, mode, r).value.1 == r.(status := Submitting);
      hide Mark, Same;
    }
  }

  lemma MarkStages(s: Sys, limits: Limits, a: nat, mode: RiskMode)
    requires Stages(s) && a in s.actors && s.actors[a].Reserved?
    ensures Stages(MarkStep(s, limits, a, mode))
  {
    hide MarkStep, Keyed, SendsOk, OneOwner, StagesBut;
    MarkShape(s, limits, a, mode);
    var s1 := s.(book := MarkStep(s, limits, a, mode).book);
    assert Stage(s.book, s.intents, s.sends, s.actors[a]);
    SameStages(s, s1.book);
    AllBut(s1, a);
    hide Stages;
    GoneStages(s1, a);
    AtStages(s1, a, Marked(s.actors[a].record.(status := Submitting)));
  }

  lemma AllBut(s: Sys, a: nat)
    requires Stages(s)
    ensures StagesBut(s, a)
  {
  }

  /** The only step that sends: it leaves the stage from which sending is possible. */
  lemma SendStages(
    s: Sys, limits: Limits, a: nat, guard: bool, mode: RiskMode, posted: bool, answer: Option<Fill>)
    requires Stages(s) && a in s.actors && s.actors[a].Marked?
    ensures Stages(SendStep(s, limits, a, guard, mode, posted, answer))
  {
    var r := s.actors[a].record;
    var refused := SendRefusal(limits, guard, mode, r.intent.side);
    var k := r.intent.key;
    assert Stage(s.book, s.intents, s.sends, s.actors[a]);
    if refused.Some? {
      AtStages(s, a, Blocked(k, refused.value));
    } else if !posted {
      AtStages(s, a, Failed(k));
    } else {
      var sends := s.sends[k := 1];
      forall c | c in s.actors && c != a ensures Stage(s.book, s.intents, sends, s.actors[c]) {
        assert Stage(s.book, s.intents, s.sends, s.actors[c]);
      }
      hide Stage;
      AtStages(s.(sends := sends), a, if answer.Some? then Answered(r, answer.value) else Failed(k));
    }
  }

  lemma SettleStages(s: Sys, a: nat)
    requires Stages(s) && a in s.actors
    ensures Stages(SettleStep(s, a))
  {
    SettleSame(s, a);
    var s1 := s.(book := SettleStep(s, a).book);
    SameStages(s, s1.book);
    AllBut(s1, a);
    GoneStages(s1, a);
    if s.actors[a].Answered? {
      AtStages(s1, a, Failed(s.actors[a].record.intent.key));
    }
    hide Finish, SettleBlocked, SettleUnknown, ReconcileOrder, Stage, OneOwner, Keyed, SendsOk;
    assert SettleStep(s, a) == Gone(s1, a) || SettleStep(s, a) == s
        || (s.actors[a].Answered? && SettleStep(s, a) == At(s1, a, Failed(s.actors[a].record.intent.key)));
  }

  lemma StepStages(s: Sys, limits: Limits, step: Step)
    requires Stages(s)
    ensures Stages(Next(s, limits, step))
  {
    hide Stages, MarkStep, SendStep, SettleStep, ReserveStep;
    match step
    case Bind(venue, funding) => SameStages(s, Next(s, limits, step).book);
    case Persist(a) => PersistStages(s, limits, a);
    case DoReserve(a, _, _, _, _, _) =>
      if a in s.actors && s.actors[a].Ready? { ReserveStages(s, limits, step); }
    case DoMark(a, mode) => if a in s.actors && s.actors[a].Reserved? { MarkStages(s, limits, a, mode); }
    case Send(a, guard, mode, posted, answer) =>
      if a in s.actors && s.actors[a].Marked? { SendStages(s, limits, a, guard, mode, posted, answer); }
    case Settle(a) => if a in s.actors { SettleStages(s, a); }
    case _ => ReadStages(s, limits, step);
  }

  lemma {:induction false} RunStages(limits: Limits, steps: seq<Step>)
    ensures Stages(Run(limits, steps))
  {
    if steps != [] {
      RunStages(limits, steps[..|steps| - 1]);
      StepStages(Run(limits, steps[..|steps| - 1]), limits, steps[|steps| - 1]);
    }
  }

  /** What one step never undoes. */
  ghost predicate Kept(s: Sys, s1: Sys) {
    && (forall k :: k in s.book.orders ==>
         k in s1.book.orders && s1.book.orders[k].fingerprint == s.book.orders[k].fingerprint)
    && (forall k :: k in s.intents ==> k in s1.intents && s1.intents[k] == s.intents[k])
    && (forall k :: Sends(s, k) <= Sends(s1, k))
  }

  lemma ReserveKept(s: Sys, limits: Limits, step: Step)
    requires step.DoReserve? && step.a in s.actors && s.actors[step.a].Ready?
    ensures Kept(s, ReserveStep(s, limits, step))
  {
    ReserveSame(s, limits, step);
    hide Reserve, PaperSubmit, Existing;
    assert ReserveStep(s, limits, step).intents == s.intents && ReserveStep(s, limits, step).sends == s.sends;
    hide ReserveStep;
  }

  lemma SendsKept(s: Sys, limits: Limits, step: Step)
    requires !step.DoReserve?
    ensures var s1 := Next(s, limits, step);
      (forall k :: k in s.intents ==> k in s1.intents && s1.intents[k] == s.intents[k])
      && (forall k :: Sends(s, k) <= Sends(s1, k))
  {
  }

  lemma SameKept(s: Sys, s1: Sys)
    requires Same(s.book, s1.book) || s1 == s
    requires forall k :: k in s.intents ==> k in s1.intents && s1.intents[k] == s.intents[k]
    requires forall k :: Sends(s, k) <= Sends(s1, k)
    ensures Kept(s, s1)
  {
  }

  lemma StepKept(s: Sys, limits: Limits, step: Step)
    ensures Kept(s, Next(s, limits, step))
  {
    hide ReserveStep, Mark, SettleStep, Same, Kept;
    if !step.DoReserve? {
      StepSame(s, limits, step);
      SendsKept(s, limits, step);
      SameKept(s, Next(s, limits, step));
    } else if step.a in s.actors && s.actors[step.a].Ready? {
      ReserveKept(s, limits, step);
    } else {
      SameKept(s, s);
    }
  }

  lemma {:induction false} RunKept(limits: Limits, steps: seq<Step>, m: nat)
    requires m <= |steps|
    ensures Kept(Run(limits, steps[..m]), Run(limits, steps))
  {
    hide Next;
    if m == |steps| {
      assert steps[..m] == steps;
    } else {
      var n := |steps| - 1;
      RunKept(limits, steps[..n], m);
      assert steps[..n][..m] == steps[..m];
      StepKept(Run(limits, steps[..n]), limits, steps[n]);
    }
  }

  // The intent of a workflow's order

  /** The order of this key, and whoever is about to submit it, has the stored intent. */
  ghost predicate FirstIntent(s: Sys, k: OrderKey) {
    && (k in s.book.orders ==> k in s.intents && s.book.orders[k].fingerprint == s.intents[k])
    && (forall c :: c in s.actors && s.actors[c].Ready? && s.actors[c].intent.key == k ==>
          k in s.intents && s.actors[c].intent == s.intents[k])
  }

  /** No other caller of `submit` uses the key. */
  predicate Uncalled(steps: seq<Step>, k: OrderKey) {
    forall n :: 0 <= n < |steps| ==> !(steps[n].Call? && steps[n].intent.key == k)
  }

  /** Only reading or storing an intent, and a call, make an actor ready to submit. */
  lemma ReadyActors(s: Sys, limits: Limits, step: Step)
    requires Stages(s)
    ensures var s1 := Next(s, limits, step);
      forall c :: c in s1.actors && s1.actors[c].Ready? ==>
        || (c in s.actors && s.actors[c] == s1.actors[c])
        || (step.Call? && s1.actors[c].intent == step.intent)
        || (s1.actors[c].intent.key in s1.intents && s1.actors[c].intent == s1.intents[s1.actors[c].intent.key])
  {
    hide Mark, Finish, SettleBlocked, SettleUnknown, ReconcileOrder, Reserve, PaperSubmit, Existing, ValidIntent, SendsOk,
      OneOwner;
    if (step.Persist? || step.ReadIntent?) && step.a in s.actors {
      assert Stage(s.book, s.intents, s.sends, s.actors[step.a]);
    }
  }

  lemma StepFirstIntent(s: Sys, limits: Limits, step: Step, k: OrderKey)
    requires Stages(s) && FirstIntent(s, k) && !(step.Call? && step.intent.key == k)
    ensures FirstIntent(Next(s, limits, step), k)
  {
    ReadyActors(s, limits, step);
    StepKept(s, limits, step);
    hide Stages, Finish, Mark;
    if step.DoReserve? {
      if step.a in s.actors && s.actors[step.a].Ready? {
        ReserveSame(s, limits, step);
        hide ReserveStep;
      }
    } else {
      StepSame(s, limits, step);
      hide Next;
    }
  }

  lemma {:induction false} RunFirstIntent(limits: Limits, steps: seq<Step>, k: OrderKey)
    requires Uncalled(steps, k)
    ensures FirstIntent(Run(limits, steps), k)
  {
    hide Next, Stages, FirstIntent;
    if steps == [] {
      NothingStored(k);
    } else {
      var front := steps[..|steps| - 1];
      RunFirstIntent(limits, front, k);
      RunStages(limits, front);
      StepFirstIntent(Run(limits, front), limits, steps[|steps| - 1], k);
    }
  }

  lemma NothingStored(k: OrderKey)
    ensures FirstIntent(Init(), k)
  {
  }

  /** Exactly-once execution. Over every interleaving of workers, crashes between any two transactions,
      lost leases and retries: every key has one order and that order is sent at most once. A key that only
      workflows use has the first intent ever persisted under it. */
  lemma ExecutedAtMostOnce(limits: Limits, steps: seq<Step>, m: nat, k: OrderKey)
    requires m <= |steps|
    ensures var s, s1 := Run(limits, steps[..m]), Run(limits, steps);
      && Sends(s1, k) <= 1
      && (Sends(s1, k) == 1 ==> k in s1.book.orders)
      && (k in s.intents ==> k in s1.intents && s1.intents[k] == s.intents[k])
      && (k in s.book.orders ==> k in s1.book.orders && s1.book.orders[k].fingerprint == s.book.orders[k].fingerprint)
      && (Uncalled(steps, k) && k in s1.book.orders ==>
            k in s1.intents && s1.book.orders[k].fingerprint == s1.intents[k])
  {
    hide Next, Stage;
    RunStages(limits, steps);
    RunKept(limits, steps, m);
    if Uncalled(steps, k) {
      RunFirstIntent(limits, steps, k);
    }
  }

  /** A guard failure is final only for an order that was never sent. */
  lemma BlockedWasNeverSent(limits: Limits, steps: seq<Step>, a: nat)
    requires a in Run(limits, steps).actors && Run(limits, steps).actors[a].Blocked?
    ensures Sends(Run(limits, steps), Run(limits, steps).actors[a].key) == 0
  {
    RunStages(limits, steps);
    var s := Run(limits, steps);
    assert Stage(s.book, s.intents, s.sends, s.actors[a]);
  }
}
