/**
 Whole drains under interference (apps/api/src/services/blob-gc.ts:78-153): each drain reads its rows
 in one SELECT, works through them in order and counts what becomes of each, while uploads and other
 drains take their steps in between. The steps on rows and objects are those of BlobRuns.
 */
module BlobDrains {
  import opened Options
  import opened BlobTables
  import opened BlobRuns
  import Fencing = BlobFencing

  /** A drain's rows, one job each, how many it has got through, its result so far, and whether it threw. */
  datatype Drain = Drain(jobs: seq<Id>, position: nat, result: BlobGcResult, aborted: bool)

  /** The owner of a job is the drain that created it. */
  datatype System = System(s: State, drains: map<Id, Drain>, owners: map<Id, Id>)

  datatype Move =
    | Upload(step: Step)
    | Start(drain: Id, jobs: seq<Id>, keys: seq<Key>, timestamp: int)
    | Advance(drain: Id, step: Step)

  predicate Distinct<T(==)>(xs: seq<T>) {
    forall i, j :: 0 <= i < j < |xs| ==> xs[i] != xs[j]
  }

  /** New jobs for rows of the queue that are due; every row of the queue has a lifetime. */
  predicate Unread(s: State, jobs: seq<Id>, keys: seq<Key>, timestamp: int)
    requires |jobs| == |keys|
  {
    && (forall i :: 0 <= i < |jobs| ==> jobs[i] !in s.jobs)
    && (forall i :: 0 <= i < |keys| ==>
          keys[i] in s.queue && s.queue[keys[i]].nextAt <= timestamp && keys[i] in s.h.lifetimes)
  }

  /** What the SELECT may return: distinct due rows, at most BATCH_LIMIT of them. */
  predicate Selects(sys: System, move: Move)
    requires move.Start?
  {
    && move.drain !in sys.drains
    && |move.jobs| == |move.keys| <= BATCH_LIMIT
    && Distinct(move.jobs) && Distinct(move.keys)
    && Unread(sys.s, move.jobs, move.keys, move.timestamp)
    && (forall i :: 0 <= i < |move.jobs| ==> move.jobs[i] !in sys.owners)
  }

  /** The SELECT reads all its rows at once. */
  function ReadSteps(jobs: seq<Id>, keys: seq<Key>, timestamp: int): seq<Step>
    requires |jobs| == |keys|
  {
    seq(|jobs|, i requires 0 <= i < |jobs| => ReadDue(jobs[i], keys[i], timestamp))
  }

  /** The loop has come to this job. */
  predicate AtWork(sys: System, drain: Id) {
    && drain in sys.drains && !sys.drains[drain].aborted
    && sys.drains[drain].position < |sys.drains[drain].jobs|
  }

  function CurrentJob(sys: System, drain: Id): Id
    requires AtWork(sys, drain)
  {
    sys.drains[drain].jobs[sys.drains[drain].position]
  }

  /** `result.x += 1`, and on to the next row, once the row is through; an exception ends the drain. */
  function Passed(d: Drain, stage: Stage): Drain {
    match stage
    case Finished(outcome) => d.(position := d.position + 1, result := Counted(d.result, outcome))
    case Aborted => d.(aborted := true)
    case _ => d
  }

  function AfterStart(sys: System, move: Move): System
    requires move.Start?
  {
    if !Selects(sys, move) then sys
    else
      System(
        Run(sys.s, ReadSteps(move.jobs, move.keys, move.timestamp)),
        sys.drains[move.drain := Drain(move.jobs, 0, BlobGcResult(0, 0, 0, 0), false)],
        map j | j in sys.owners.Keys + (set i | i in move.jobs) :: if j in move.jobs then move.drain else sys.owners[j])
  }

  function AfterAdvance(sys: System, drain: Id, step: Step): System {
    if !AtWork(sys, drain) || ActingJob(step) != Some(CurrentJob(sys, drain)) then sys
    else
      var job, after := CurrentJob(sys, drain), Exec(sys.s, step);
      if job !in after.jobs then sys
      else System(after, sys.drains[drain := Passed(sys.drains[drain], after.jobs[job].stage)], sys.owners)
  }

  function Perform(sys: System, move: Move): System {
    match move
    case Upload(step) =>
      if ActingJob(step).None? && !step.ReadDue? then sys.(s := Exec(sys.s, step)) else sys
    case Start(_, _, _, _) => AfterStart(sys, move)
    case Advance(drain, step) => AfterAdvance(sys, drain, step)
  }

  function PerformAll(sys: System, moves: seq<Move>): System
    decreases |moves|
  {
    if moves == [] then sys else PerformAll(Perform(sys, moves[0]), moves[1..])
  }

  ghost predicate Reached(sys: System) {
    exists start, moves :: Initial(start) && PerformAll(System(start, map[], map[]), moves) == sys
  }

  // ---------------------------------------------------------------------------------------
  // The counters
  // ---------------------------------------------------------------------------------------

  /** How many of the first `n` rows ended like this. */
  function CountOf(jobs: map<Id, Job>, rows: seq<Id>, n: nat, outcome: Outcome): nat
    requires n <= |rows|
  {
    if n == 0 then 0
    else
      CountOf(jobs, rows, n - 1, outcome)
      + if rows[n - 1] in jobs && jobs[rows[n - 1]].stage == Finished(outcome) then 1 else 0
  }

  /** The rows before the position are through, the one at it is not, the later ones are as they were read. */
  ghost predicate InOrder(jobs: map<Id, Job>, d: Drain) {
    && d.position <= |d.jobs|
    && (forall i :: 0 <= i < |d.jobs| ==> d.jobs[i] in jobs)
    && (forall i :: 0 <= i < d.position ==> jobs[d.jobs[i]].stage.Finished?)
    && (d.position < |d.jobs| ==>
          && !jobs[d.jobs[d.position]].stage.Finished?
          && (d.aborted <==> jobs[d.jobs[d.position]].stage == Aborted))
    && (d.position == |d.jobs| ==> !d.aborted)
    && (forall i :: d.position < i < |d.jobs| ==> jobs[d.jobs[i]].stage == Reading)
  }

  /** Each counter counts the rows that ended so, and each row passed is counted once. */
  predicate CountsRight(jobs: map<Id, Job>, d: Drain)
    requires d.position <= |d.jobs|
  {
    && d.result.deleted == CountOf(jobs, d.jobs, d.position, Deleted)
    && d.result.referenced == CountOf(jobs, d.jobs, d.position, Referenced)
    && d.result.deferred == CountOf(jobs, d.jobs, d.position, Deferred)
    && d.result.contended == CountOf(jobs, d.jobs, d.position, Contended)
    && Total(d.result) == d.position
  }

  predicate OwnsRows(owners: map<Id, Id>, drain: Id, rows: seq<Id>) {
    forall i :: 0 <= i < |rows| ==> rows[i] in owners && owners[rows[i]] == drain
  }

  ghost predicate DrainOk(sys: System, drain: Id)
    requires drain in sys.drains
  {
    var d := sys.drains[drain];
    && Distinct(d.jobs)
    && OwnsRows(sys.owners, drain, d.jobs)
    && InOrder(sys.s.jobs, d)
    && CountsRight(sys.s.jobs, d)
  }

  ghost predicate DrainsOk(sys: System) {
    forall drain :: drain in sys.drains ==> DrainOk(sys, drain)
  }

  /** The first `n` of these jobs are the same in both. */
  ghost predicate Agree(jobs: map<Id, Job>, jobs': map<Id, Job>, rows: seq<Id>, n: nat)
    requires n <= |rows|
  {
    forall i :: 0 <= i < n ==> rows[i] in jobs && rows[i] in jobs' && jobs'[rows[i]] == jobs[rows[i]]
  }

  lemma CountOfStays(jobs: map<Id, Job>, jobs': map<Id, Job>, rows: seq<Id>, n: nat, outcome: Outcome)
    requires n <= |rows| && Agree(jobs, jobs', rows, n)
    ensures CountOf(jobs', rows, n, outcome) == CountOf(jobs, rows, n, outcome)
  {
  }

  lemma CountsStay(jobs: map<Id, Job>, jobs': map<Id, Job>, d: Drain)
    requires d.position <= |d.jobs| && CountsRight(jobs, d) && Agree(jobs, jobs', d.jobs, d.position)
    ensures CountsRight(jobs', d)
  {
    hide Agree, CountOf;
    CountOfStays(jobs, jobs', d.jobs, d.position, Deleted);
    CountOfStays(jobs, jobs', d.jobs, d.position, Referenced);
    CountOfStays(jobs, jobs', d.jobs, d.position, Deferred);
    CountOfStays(jobs, jobs', d.jobs, d.position, Contended);
  }

  lemma OrderStays(jobs: map<Id, Job>, jobs': map<Id, Job>, d: Drain)
    requires InOrder(jobs, d) && Agree(jobs, jobs', d.jobs, |d.jobs|)
    ensures InOrder(jobs', d)
  {
  }

  /** Drains whose jobs stay as they are. */
  lemma DrainStays(sys: System, sys': System, drain: Id)
    requires drain in sys.drains && drain in sys'.drains && sys'.drains[drain] == sys.drains[drain]
    requires DrainOk(sys, drain) && OwnsRows(sys'.owners, drain, sys.drains[drain].jobs)
    requires Agree(sys.s.jobs, sys'.s.jobs, sys.drains[drain].jobs, |sys.drains[drain].jobs|)
    ensures DrainOk(sys', drain)
  {
    var d := sys.drains[drain];
    assert Agree(sys.s.jobs, sys'.s.jobs, d.jobs, d.position);
    hide Agree, CountsRight, OwnsRows;
    OrderStays(sys.s.jobs, sys'.s.jobs, d);
    CountsStay(sys.s.jobs, sys'.s.jobs, d);
  }

  lemma BystandersAgree(sys: System, step: Step, drain: Id)
    requires drain in sys.drains && DrainOk(sys, drain)
    requires forall i :: 0 <= i < |sys.drains[drain].jobs| ==> ActingJob(step) != Some(sys.drains[drain].jobs[i])
    ensures Agree(sys.s.jobs, Exec(sys.s, step).jobs, sys.drains[drain].jobs, |sys.drains[drain].jobs|)
  {
    hide Exec, CountsRight, OwnsRows, ActingJob;
    var d := sys.drains[drain];
    forall i | 0 <= i < |d.jobs|
      ensures d.jobs[i] in sys.s.jobs && d.jobs[i] in Exec(sys.s, step).jobs
      ensures Exec(sys.s, step).jobs[d.jobs[i]] == sys.s.jobs[d.jobs[i]]
    {
      BystanderStays(sys.s, step, d.jobs[i]);
    }
  }

  lemma UploadKeepsDrains(sys: System, step: Step)
    requires DrainsOk(sys) && ActingJob(step).None? && !step.ReadDue?
    ensures DrainsOk(sys.(s := Exec(sys.s, step)))
  {
    hide Exec, CountsRight, InOrder, Agree;
    var after := sys.(s := Exec(sys.s, step));
    forall drain | drain in sys.drains
      ensures DrainOk(after, drain)
    {
      assert DrainOk(sys, drain);
      BystandersAgree(sys, step, drain);
      DrainStays(sys, after, drain);
    }
  }

  /** The SELECT makes a job of each row and leaves everything else as it is. */
  lemma {:induction false} ReadsCreate(s: State, jobs: seq<Id>, keys: seq<Key>, timestamp: int)
    requires |jobs| == |keys| && Distinct(jobs) && Unread(s, jobs, keys, timestamp)
    ensures var after := Run(s, ReadSteps(jobs, keys, timestamp));
            && after == s.(jobs := after.jobs)
            && (forall j :: j in s.jobs ==> j in after.jobs && after.jobs[j] == s.jobs[j])
            && (forall i :: 0 <= i < |jobs| ==> jobs[i] in after.jobs && after.jobs[jobs[i]].stage == Reading)
    decreases |jobs|
  {
    var steps := ReadSteps(jobs, keys, timestamp);
    if jobs != [] {
      var next := Exec(s, steps[0]);
      assert steps[1..] == ReadSteps(jobs[1..], keys[1..], timestamp);
      assert Unread(s, jobs, keys, timestamp);
      assert next == s.(jobs := s.jobs[jobs[0] := Job(keys[0], s.queue[keys[0]], timestamp, s.h.lifetimes[keys[0]], Reading)]);
      hide Exec;
      ReadsCreate(next, jobs[1..], keys[1..], timestamp);
      assert Run(s, steps) == Run(next, steps[1..]);
      hide Run;
      forall i | 0 <= i < |jobs|
        ensures jobs[i] in Run(s, steps).jobs && Run(s, steps).jobs[jobs[i]].stage == Reading
      {
        assert i > 0 ==> jobs[i] == jobs[1..][i - 1];
      }
    }
  }

  lemma NewDrainIsOk(sys: System, drain: Id)
    requires drain in sys.drains && Distinct(sys.drains[drain].jobs)
    requires OwnsRows(sys.owners, drain, sys.drains[drain].jobs)
    requires sys.drains[drain] == Drain(sys.drains[drain].jobs, 0, BlobGcResult(0, 0, 0, 0), false)
    requires forall i :: 0 <= i < |sys.drains[drain].jobs| ==>
                           && sys.drains[drain].jobs[i] in sys.s.jobs
                           && sys.s.jobs[sys.drains[drain].jobs[i]].stage == Reading
    ensures DrainOk(sys, drain)
  {
  }

  lemma StartKeepsDrains(sys: System, move: Move)
    requires DrainsOk(sys) && move.Start?
    ensures DrainsOk(AfterStart(sys, move))
  {
    if Selects(sys, move) {
      var after := AfterStart(sys, move);
      ReadsCreate(sys.s, move.jobs, move.keys, move.timestamp);
      hide Run, ReadSteps, CountsRight;
      forall drain | drain in after.drains
        ensures DrainOk(after, drain)
      {
        if drain == move.drain {
          hide InOrder;
          NewDrainIsOk(after, drain);
        } else {
          assert DrainOk(sys, drain);
          DrainStays(sys, after, drain);
        }
      }
    }
  }

  /** The row in work changes, the others do not. */
  lemma OthersAgree(sys: System, drain: Id, step: Step)
    requires AtWork(sys, drain) && DrainOk(sys, drain) && ActingJob(step) == Some(CurrentJob(sys, drain))
    ensures var d, after := sys.drains[drain], Exec(sys.s, step);
            forall i :: 0 <= i < |d.jobs| && i != d.position ==>
              d.jobs[i] in sys.s.jobs && d.jobs[i] in after.jobs && after.jobs[d.jobs[i]] == sys.s.jobs[d.jobs[i]]
  {
    hide Exec, CountsRight, OwnsRows, ActingJob;
    var d := sys.drains[drain];
    forall i | 0 <= i < |d.jobs| && i != d.position
      ensures d.jobs[i] in sys.s.jobs && d.jobs[i] in Exec(sys.s, step).jobs
      ensures Exec(sys.s, step).jobs[d.jobs[i]] == sys.s.jobs[d.jobs[i]]
    {
      BystanderStays(sys.s, step, d.jobs[i]);
    }
  }

  lemma OrderAdvances(jobs: map<Id, Job>, jobs': map<Id, Job>, d: Drain)
    requires InOrder(jobs, d) && d.position < |d.jobs| && !d.aborted && d.jobs[d.position] in jobs'
    requires forall i :: 0 <= i < |d.jobs| && i != d.position ==>
                           d.jobs[i] in jobs && d.jobs[i] in jobs' && jobs'[d.jobs[i]] == jobs[d.jobs[i]]
    ensures InOrder(jobs', Passed(d, jobs'[d.jobs[d.position]].stage))
  {
  }

  lemma CountsNext(jobs: map<Id, Job>, d: Drain, outcome: Outcome)
    requires d.position < |d.jobs| && CountsRight(jobs, d)
    requires d.jobs[d.position] in jobs && jobs[d.jobs[d.position]].stage == Finished(outcome)
    ensures CountsRight(jobs, d.(position := d.position + 1, result := Counted(d.result, outcome)))
  {
  }

  lemma CountsAdvance(jobs: map<Id, Job>, jobs': map<Id, Job>, d: Drain)
    requires d.position < |d.jobs| && d.jobs[d.position] in jobs'
    requires CountsRight(jobs, d) && Agree(jobs, jobs', d.jobs, d.position)
    ensures Passed(d, jobs'[d.jobs[d.position]].stage).position <= |d.jobs|
    ensures CountsRight(jobs', Passed(d, jobs'[d.jobs[d.position]].stage))
  {
    hide CountOf, Counted, Total;
    CountsStay(jobs, jobs', d);
    var stage := jobs'[d.jobs[d.position]].stage;
    if stage.Finished? {
      CountsNext(jobs', d, stage.outcome);
    }
  }

  lemma AdvanceKeepsOwn(sys: System, drain: Id, step: Step)
    requires DrainsOk(sys) && AtWork(sys, drain) && ActingJob(step) == Some(CurrentJob(sys, drain))
    ensures DrainOk(AfterAdvance(sys, drain, step), drain)
  {
    hide Exec, InOrder, CountsRight, OwnsRows, ActingJob;
    assert DrainOk(sys, drain);
    var d, after := sys.drains[drain], Exec(sys.s, step);
    OthersAgree(sys, drain, step);
    if CurrentJob(sys, drain) in after.jobs {
      OrderAdvances(sys.s.jobs, after.jobs, d);
      CountsAdvance(sys.s.jobs, after.jobs, d);
    }
  }

  lemma AdvanceKeepsDrains(sys: System, drain: Id, step: Step)
    requires DrainsOk(sys)
    ensures DrainsOk(AfterAdvance(sys, drain, step))
  {
    hide Exec, CountsRight, InOrder, Agree, ActingJob;
    if AtWork(sys, drain) && ActingJob(step) == Some(CurrentJob(sys, drain)) {
      var after := AfterAdvance(sys, drain, step);
      AdvanceKeepsOwn(sys, drain, step);
      assert DrainOk(sys, drain);
      forall other | other in sys.drains && other != drain
        ensures DrainOk(after, other)
      {
        assert DrainOk(sys, other);
        BystandersAgree(sys, step, other);
        if CurrentJob(sys, drain) in Exec(sys.s, step).jobs {
          DrainStays(sys, after, other);
        }
      }
    }
  }

  lemma {:induction false} MovesKeepDrains(sys: System, moves: seq<Move>)
    requires DrainsOk(sys)
    ensures DrainsOk(PerformAll(sys, moves))
    decreases |moves|
  {
    hide DrainsOk, AfterStart, AfterAdvance, Exec;
    if moves != [] {
      match moves[0] {
        case Upload(step) =>
          if ActingJob(step).None? && !step.ReadDue? {
            UploadKeepsDrains(sys, step);
          }
        case Start(_, _, _, _) => StartKeepsDrains(sys, moves[0]);
        case Advance(drain, step) => AdvanceKeepsDrains(sys, drain, step);
      }
      MovesKeepDrains(Perform(sys, moves[0]), moves[1..]);
    }
  }

  /** The rows a drain has got through. */
  function RowsPassed(sys: System, drain: Id): seq<Id>
    requires drain in sys.drains && sys.drains[drain].position <= |sys.drains[drain].jobs|
  {
    sys.drains[drain].jobs[..sys.drains[drain].position]
  }

  /**
   At any moment of any run, whatever the other drains and the uploads do, a drain's counters add up to
   the rows it has got through and each counts the rows that ended so; the row whose DELETE threw is
   the last and is not counted, and a drain that reached its end counted all its rows.
   */
  lemma CountersSumToRows(sys: System, drain: Id)
    requires Reached(sys) && drain in sys.drains
    ensures var d := sys.drains[drain];
            && d.position <= |d.jobs|
            && Total(d.result) == d.position
            && CountsRight(sys.s.jobs, d)
            && (forall i :: 0 <= i < |d.jobs| ==> d.jobs[i] in sys.s.jobs)
            && (forall i :: 0 <= i < d.position ==> sys.s.jobs[d.jobs[i]].stage.Finished?)
            && (d.aborted ==> d.position < |d.jobs| && sys.s.jobs[d.jobs[d.position]].stage == Aborted)
            && (forall i :: 0 <= i < |d.jobs| && sys.s.jobs[d.jobs[i]].stage == Aborted ==> d.aborted && i == d.position)
            && (forall i :: 0 <= i < |d.jobs| && sys.s.jobs[d.jobs[i]].stage.Finished? ==> i < d.position)
  {
    hide Perform, Initial;
    var start, moves :| Initial(start) && PerformAll(System(start, map[], map[]), moves) == sys;
    MovesKeepDrains(System(start, map[], map[]), moves);
    assert DrainOk(sys, drain);
  }

  // ---------------------------------------------------------------------------------------
  // Claims lost to a rival
  // ---------------------------------------------------------------------------------------

  lemma MoveIsSteps(sys: System, move: Move) returns (steps: seq<Step>)
    ensures Run(sys.s, steps) == Perform(sys, move).s
  {
    hide Exec, Unread;
    steps := [];
    if Perform(sys, move).s != sys.s {
      match move {
        case Upload(step) =>
          steps := [step];
          assert steps[1..] == [];
        case Start(_, jobs, keys, timestamp) => steps := ReadSteps(jobs, keys, timestamp);
        case Advance(_, step) =>
          steps := [step];
          assert steps[1..] == [];
      }
    }
  }

  /** A run of drains and uploads is one of the interleavings of BlobRuns. */
  lemma {:induction false} MovesAreSteps(sys: System, moves: seq<Move>) returns (steps: seq<Step>)
    ensures Run(sys.s, steps) == PerformAll(sys, moves).s
    decreases |moves|
  {
    hide Exec, Perform;
    if moves == [] {
      steps := [];
    } else {
      var first := MoveIsSteps(sys, moves[0]);
      var rest := MovesAreSteps(Perform(sys, moves[0]), moves[1..]);
      RunAppends(sys.s, first, rest);
      steps := first + rest;
    }
  }

  lemma ReachedIsReachable(sys: System)
    requires Reached(sys)
    ensures Reachable(sys.s)
  {
    hide Initial, PerformAll;
    var start, moves :| Initial(start) && PerformAll(System(start, map[], map[]), moves) == sys;
    var steps := MovesAreSteps(System(start, map[], map[]), moves);
  }

  /**
   Two drains have come to the same row as they read it. Once the first has claimed it, then whatever
   happens next, as long as the row is not dropped and queued anew, the second finds it contended,
   counts it so and goes on to its next row.
   */
  lemma LostClaimIsContended(sys: System, first: Id, second: Id, moves: seq<Move>)
    requires Reached(sys) && AtWork(sys, first) && Fencing.Claims(sys.s, CurrentJob(sys, first))
    requires var mid := PerformAll(Perform(sys, Advance(first, Claim(CurrentJob(sys, first)))), moves);
             && AtWork(mid, second) && InStage(mid.s, CurrentJob(mid, second), Reading)
             && var lost := mid.s.jobs[CurrentJob(mid, second)];
                && Fencing.ClaimedVersion(sys.s, CurrentJob(sys, first)).key == lost.key
                && Fencing.ClaimedVersion(sys.s, CurrentJob(sys, first)).row == lost.row
                && lost.key in mid.s.h.lifetimes && mid.s.h.lifetimes[lost.key] == sys.s.h.lifetimes[lost.key]
    ensures var mid := PerformAll(Perform(sys, Advance(first, Claim(CurrentJob(sys, first)))), moves);
            var d, d' := mid.drains[second], Perform(mid, Advance(second, Claim(CurrentJob(mid, second)))).drains[second];
            d' == d.(position := d.position + 1, result := d.result.(contended := d.result.contended + 1))
  {
    hide Exec, PerformAll, Run, Reached, Reachable;
    var job, claimed := CurrentJob(sys, first), Perform(sys, Advance(first, Claim(CurrentJob(sys, first))));
    ReachedIsReachable(sys);
    ClaimLeadsTo(sys, first);
    var steps := MovesAreSteps(claimed, moves);
    Fencing.ClaimsAreFinal(claimed.s, steps, Fencing.ClaimedVersion(sys.s, job));
    LosingPasses(PerformAll(claimed, moves), second);
  }

  lemma ClaimLeadsTo(sys: System, drain: Id)
    requires Reachable(sys.s) && AtWork(sys, drain) && Fencing.Claims(sys.s, CurrentJob(sys, drain))
    ensures var claimed := Perform(sys, Advance(drain, Claim(CurrentJob(sys, drain))));
            Reachable(claimed.s) && Fencing.ClaimedVersion(sys.s, CurrentJob(sys, drain)) in claimed.s.h.claims
  {
    hide Reachable;
    var claim := [Claim(CurrentJob(sys, drain))];
    ReachableRuns(sys.s, claim);
    assert claim[1..] == [] && Run(sys.s, claim) == Exec(sys.s, claim[0]);
  }

  lemma LosingPasses(sys: System, drain: Id)
    requires AtWork(sys, drain) && InStage(sys.s, CurrentJob(sys, drain), Reading)
    requires sys.s.jobs[CurrentJob(sys, drain)].key in sys.s.h.lifetimes && !Fencing.Claims(sys.s, CurrentJob(sys, drain))
    ensures var d, d' := sys.drains[drain], Perform(sys, Advance(drain, Claim(CurrentJob(sys, drain)))).drains[drain];
            d' == d.(position := d.position + 1, result := d.result.(contended := d.result.contended + 1))
  {
  }

  lemma ReachableRuns(s: State, steps: seq<Step>)
    requires Reachable(s)
    ensures Reachable(Run(s, steps))
  {
    hide Initial, Exec, Run;
    var start, before :| Initial(start) && Run(start, before) == s;
    RunAppends(start, before, steps);
  }
}
