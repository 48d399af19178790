/** The durable queue of enrichment jobs and the worker that drains it. */
module EnrichmentQueue {
  import opened Stores

  type Id = string
  datatype State = Waiting | Running | Failed
  datatype Job = Job(state: State, attempts: nat, hash: string, updated: int)
  type Jobs = map<Id, Job>

  predicate Claimable(jobs: Jobs, limit: int, id: Id) {
    id in jobs && jobs[id].state == Waiting && jobs[id].attempts < limit
  }

  function Enqueued(jobs: Jobs, id: Id, hash: string, now: int): Jobs {
    jobs[id := Job(Waiting, 0, hash, now)]
  }

  function Claimed(jobs: Jobs, id: Id, now: int): Jobs
    requires id in jobs
  {
    jobs[id := jobs[id].(state := Running, attempts := jobs[id].attempts + 1, updated := now)]
  }

  function FailedOnce(jobs: Jobs, id: Id, limit: int, now: int): Jobs {
    if id !in jobs then jobs
    else jobs[id := jobs[id].(state := if jobs[id].attempts >= limit then Failed else Waiting, updated := now)]
  }

  function ResetJob(job: Job, now: int): Job {
    if job.state == Running then job.(state := Waiting, updated := now) else job
  }

  function Reset(jobs: Jobs, now: int): Jobs {
    map id | id in jobs :: ResetJob(jobs[id], now)
  }

  // ------------------------------------------------------------ whole runs

  datatype Event =
    | Enqueue(id: Id, hash: string)
    | Claim(id: Id)
    | Complete(id: Id)
    | Fail(id: Id)
    | Restart

  function After(jobs: Jobs, limit: int, e: Event, now: int): Jobs {
    match e
    case Enqueue(id, hash) => Enqueued(jobs, id, hash, now)
    case Claim(id) => if Claimable(jobs, limit, id) then Claimed(jobs, id, now) else jobs
    case Complete(id) => jobs - {id}
    case Fail(id) => FailedOnce(jobs, id, limit, now)
    case Restart => Reset(jobs, now)
  }

  /** Any order of events, by any number of ingests and workers, `clock` timing the i-th. */
  function Reached(events: seq<Event>, limit: int, clock: nat -> int): Jobs {
    if events == [] then map[]
    else
      var n := |events| - 1;
      After(Reached(events[..n], limit, clock), limit, events[n], clock(n))
  }

  /** How often `id` was claimed since it was last enqueued. */
  function Claims(events: seq<Event>, limit: int, clock: nat -> int, id: Id): nat {
    if events == [] then 0
    else
      var n := |events| - 1;
      var before := Claims(events[..n], limit, clock, id);
      match events[n]
      case Enqueue(other, _) => if other == id then 0 else before
      case Claim(other) =>
        if other == id && Claimable(Reached(events[..n], limit, clock), limit, id) then before + 1 else before
      case _ => before
  }

  /** An enqueue buys at most `limit` claims, and a job that is still there has counted them all. */
  lemma {:induction false} ClaimsAreBounded(events: seq<Event>, limit: int, clock: nat -> int, id: Id)
    ensures var jobs, claims := Reached(events, limit, clock), Claims(events, limit, clock, id);
      && (claims == 0 || claims <= limit)
      && (id in jobs ==> jobs[id].attempts == claims && (jobs[id].state == Failed ==> limit <= claims))
      && (id in jobs && jobs[id].state == Running ==> 1 <= claims)
  {
    if events != [] {
      ClaimsAreBounded(events[..|events| - 1], limit, clock, id);
    }
  }

  /** A restart found the job running with its attempts spent. */
  predicate ResetSpent(events: seq<Event>, limit: int, clock: nat -> int, id: Id, i: nat)
    requires i < |events|
  {
    var jobs := Reached(events[..i], limit, clock);
    events[i] == Restart && id in jobs && jobs[id].state == Running && jobs[id].attempts >= limit
  }

  /** From event `i` on nothing but restarts and claims may have been about `id`. */
  predicate LeftAlone(events: seq<Event>, i: nat, id: Id) {
    forall j :: i < j < |events| ==> events[j].Restart? || events[j].Claim? || events[j].id != id
  }

  ghost predicate WasReset(events: seq<Event>, limit: int, clock: nat -> int, id: Id) {
    exists i :: 0 <= i < |events| && ResetSpent(events, limit, clock, id, i) && LeftAlone(events, i, id)
  }

  lemma WasResetStays(events: seq<Event>, limit: int, clock: nat -> int, id: Id)
    requires events != [] && WasReset(events[..|events| - 1], limit, clock, id)
    requires var e := events[|events| - 1]; e.Restart? || e.Claim? || e.id != id
    ensures WasReset(events, limit, clock, id)
  {
    var n := |events| - 1;
    var before := events[..n];
    var i :| 0 <= i < n && ResetSpent(before, limit, clock, id, i) && LeftAlone(before, i, id);
    assert before[..i] == events[..i] && ResetSpent(events, limit, clock, id, i);
    assert LeftAlone(events, i, id) by {
      assert forall j :: i < j < n ==> before[j] == events[j];
    }
  }

  /** A waiting job whose attempts are spent was running its last one when a worker restarted, and
      has been left alone since: nothing else makes one. */
  lemma {:induction false} SpentWaitingJobWasReset(events: seq<Event>, limit: int, clock: nat -> int, id: Id)
    requires limit > 0
    requires var jobs := Reached(events, limit, clock); id in jobs && jobs[id].state == Waiting && jobs[id].attempts >= limit
    ensures WasReset(events, limit, clock, id)
  {
    var n := |events| - 1;
    var before := Reached(events[..n], limit, clock);
    if events[n] == Restart && before[id].state == Running {
      assert ResetSpent(events, limit, clock, id, n) && LeftAlone(events, n, id);
    } else {
      SpentWaitingJobWasReset(events[..n], limit, clock, id);
      WasResetStays(events, limit, clock, id);
    }
  }

  // ------------------------------------------------------------ what a row remembers

  predicate LastEnqueue(events: seq<Event>, i: nat, id: Id, hash: string)
    requires i < |events|
  {
    events[i] == Enqueue(id, hash) && forall j :: i < j < |events| ==> !(events[j].Enqueue? && events[j].id == id)
  }

  /** A job carries the hash it was last enqueued with, whatever happened since. */
  lemma {:induction false} HashIsLastEnqueued(events: seq<Event>, limit: int, clock: nat -> int, id: Id) returns (i: nat)
    requires id in Reached(events, limit, clock)
    ensures i < |events| && LastEnqueue(events, i, id, Reached(events, limit, clock)[id].hash)
  {
    var n := |events| - 1;
    if events[n].Enqueue? && events[n].id == id {
      i := n;
    } else {
      i := HashIsLastEnqueued(events[..n], limit, clock, id);
    }
  }

  /** The event changes the row of `id`. */
  predicate Touches(events: seq<Event>, limit: int, clock: nat -> int, j: nat, id: Id)
    requires j < |events|
  {
    var jobs := Reached(events[..j], limit, clock);
    match events[j]
    case Enqueue(other, _) => other == id
    case Claim(other) => other == id && Claimable(jobs, limit, id)
    case Complete(other) => other == id
    case Fail(other) => other == id && id in jobs
    case Restart => id in jobs && jobs[id].state == Running
  }

  predicate LastTouch(events: seq<Event>, limit: int, clock: nat -> int, i: nat, id: Id)
    requires i < |events|
  {
    Touches(events, limit, clock, i, id) && forall j :: i < j < |events| ==> !Touches(events, limit, clock, j, id)
  }

  lemma LastTouchStays(events: seq<Event>, limit: int, clock: nat -> int, i: nat, id: Id)
    requires events != [] && i < |events| - 1 && LastTouch(events[..|events| - 1], limit, clock, i, id)
    requires !Touches(events, limit, clock, |events| - 1, id)
    ensures LastTouch(events, limit, clock, i, id)
  {
    var n := |events| - 1;
    forall j | i <= j < n
      ensures Touches(events, limit, clock, j, id) <==> Touches(events[..n], limit, clock, j, id)
    {
      assert events[..n][..j] == events[..j];
    }
  }

  /** Its time is that of the last event that changed it; so a job that was tried and failed goes to the
      back of the queue. */
  lemma {:induction false} UpdatedIsLastTouch(events: seq<Event>, limit: int, clock: nat -> int, id: Id) returns (i: nat)
    requires id in Reached(events, limit, clock)
    ensures i < |events| && LastTouch(events, limit, clock, i, id) && Reached(events, limit, clock)[id].updated == clock(i)
  {
    var n := |events| - 1;
    if Touches(events, limit, clock, n, id) {
      i := n;
    } else {
      i := UpdatedIsLastTouch(events[..n], limit, clock, id);
      LastTouchStays(events, limit, clock, i, id);
    }
  }

  // ------------------------------------------------------------ completions

  /** Which job a completion deletes: one that was claimed since it was last enqueued, or one that
      nobody has claimed; the attempts in the row tell. */
  lemma CompletesClaimedIff(events: seq<Event>, limit: int, clock: nat -> int, id: Id)
    requires id in Reached(events, limit, clock)
    ensures Reached(events + [Complete(id)], limit, clock) == Reached(events, limit, clock) - {id}
    ensures Claims(events, limit, clock, id) > 0 <==> Reached(events, limit, clock)[id].attempts > 0
  {
    ClaimsAreBounded(events, limit, clock, id);
    var all := events + [Complete(id)];
    assert all[..|all| - 1] == events && all[|all| - 1] == Complete(id);
  }

  /** The claim whose job the worker is busy with. */
  function Held(events: seq<Event>): Option<nat> {
    if events == [] then None
    else
      var n := |events| - 1;
      match events[n]
      case Enqueue(_, _) => Held(events[..n])
      case Claim(_) => Some(n)
      case _ => None
  }

  /** One worker: it claims when it is idle and something is claimable, and completes or fails the
      job it claimed. A restart makes it forget; anyone may enqueue at any time. */
  predicate OneWorker(events: seq<Event>, limit: int, clock: nat -> int) {
    events == []
    || (var n := |events| - 1;
        var held := Held(events[..n]);
        OneWorker(events[..n], limit, clock)
        && match events[n]
           case Claim(id) => held == None && Claimable(Reached(events[..n], limit, clock), limit, id)
           case Complete(id) => held.Some? && held.value < n && events[held.value] == Claim(id)
           case Fail(id) => held.Some? && held.value < n && events[held.value] == Claim(id)
           case _ => true)
  }

  predicate EnqueuedAfter(events: seq<Event>, i: nat, id: Id) {
    exists j :: i < j < |events| && events[j].Enqueue? && events[j].id == id
  }

  lemma EnqueuedAfterNext(events: seq<Event>, i: nat, id: Id)
    requires events != [] && i < |events| - 1
    ensures EnqueuedAfter(events, i, id) <==>
      EnqueuedAfter(events[..|events| - 1], i, id) || (events[|events| - 1].Enqueue? && events[|events| - 1].id == id)
  {
    var before := events[..|events| - 1];
    if EnqueuedAfter(before, i, id) {
      var j :| i < j < |before| && before[j].Enqueue? && before[j].id == id;
      assert events[j] == before[j];
    }
    if EnqueuedAfter(events, i, id) {
      var j :| i < j < |events| && events[j].Enqueue? && events[j].id == id;
      assert j < |before| ==> before[j] == events[j];
    }
  }

  /** While the worker is busy its job is in the table, unclaimed exactly if it was enqueued since. */
  lemma {:induction false} HeldJob(events: seq<Event>, limit: int, clock: nat -> int)
    requires OneWorker(events, limit, clock) && Held(events).Some?
    ensures var i := Held(events).value;
      && i < |events| && events[i].Claim?
      && events[i].id in Reached(events, limit, clock)
      && (Claims(events, limit, clock, events[i].id) == 0 <==> EnqueuedAfter(events, i, events[i].id))
  {
    var n := |events| - 1;
    if events[n].Enqueue? {
      HeldJob(events[..n], limit, clock);
      EnqueuedAfterNext(events, Held(events).value, events[Held(events).value].id);
    }
  }

  /** The row is found by its id alone: when the worker completes its job, it deletes one that nobody
      has claimed if and only if the id was enqueued again after the worker's claim. */
  lemma LostUnclaimedIff(events: seq<Event>, limit: int, clock: nat -> int, id: Id)
    requires OneWorker(events + [Complete(id)], limit, clock)
    ensures var jobs := Reached(events, limit, clock);
      && Held(events).Some? && Held(events).value < |events| && events[Held(events).value] == Claim(id)
      && id in jobs && Reached(events + [Complete(id)], limit, clock) == jobs - {id}
      && (jobs[id].attempts == 0 <==> EnqueuedAfter(events, Held(events).value, id))
  {
    var all := events + [Complete(id)];
    assert all[..|all| - 1] == events && all[|all| - 1] == Complete(id);
    HeldJob(events, limit, clock);
    CompletesClaimedIff(events, limit, clock, id);
  }

  // ------------------------------------------------------------ the registry

  class Registry {
    var jobs: Jobs
    /** Content hash of the row each job is about. */
    var hashes: map<Id, string>
    var clock: int

    constructor (jobs: Jobs, hashes: map<Id, string>)
      ensures this.jobs == jobs && this.hashes == hashes
    {
      this.jobs, this.hashes, clock := jobs, hashes, 0;
    }

    method UtcNow() returns (now: int)
      modifies this`clock
      ensures now == clock && clock >= old(clock)
    {
      var later: int := *;
      clock := if later < clock then clock else later;
      now := clock;
    }

    method EnqueueEnrichmentJob(id: Id, hash: string)
      modifies this`jobs, this`clock
      ensures jobs == Enqueued(old(jobs), id, hash, clock)
    {
      var now := UtcNow();
      jobs := jobs[id := Job(Waiting, 0, hash, now)];
    }

    /** Hands out a job that has waited longest. */
    method ClaimEnrichmentJob(limit: int) returns (claimed: Option<Id>)
      modifies this`jobs, this`clock
      ensures claimed.None? ==> jobs == old(jobs) && forall id :: !Claimable(jobs, limit, id)
      ensures claimed.Some? ==>
        && Claimable(old(jobs), limit, claimed.value)
        && (forall id :: Claimable(old(jobs), limit, id) ==> old(jobs)[claimed.value].updated <= old(jobs)[id].updated)
        && jobs == Claimed(old(jobs), claimed.value, clock)
    {
      var now := UtcNow();
      var open := set id | id in jobs && Claimable(jobs, limit, id);
      if open == {} {
        assert forall id :: Claimable(jobs, limit, id) ==> id in open;
        return None;
      }
      OldestExists(jobs, open);
      var id :| id in open && Oldest(jobs, open, id);
      jobs := Claimed(jobs, id, now);
      assert forall other :: Claimable(old(jobs), limit, other) ==> other in open;
      return Some(id);
    }

    method CompleteEnrichmentJob(id: Id) returns (found: bool)
      modifies this`jobs
      ensures jobs == old(jobs) - {id} && (found <==> id in old(jobs))
    {
      found := id in jobs;
      jobs := jobs - {id};
    }

    method FailEnrichmentJob(id: Id, limit: int)
      modifies this`jobs, this`clock
      ensures jobs == FailedOnce(old(jobs), id, limit, clock)
    {
      var now := UtcNow();
      if id !in jobs {
        return;
      }
      var state := if jobs[id].attempts >= limit then Failed else Waiting;
      jobs := jobs[id := jobs[id].(state := state, updated := now)];
    }

    method ResetRunningEnrichmentJobs() returns (count: nat)
      modifies this`jobs, this`clock
      ensures jobs == Reset(old(jobs), clock)
      ensures count == |set id | id in old(jobs) && old(jobs)[id].state == Running|
    {
      var now := UtcNow();
      count := |set id | id in jobs && jobs[id].state == Running|;
      jobs := Reset(jobs, now);
    }
  }

  predicate Oldest(jobs: Jobs, open: set<Id>, id: Id)
    requires open <= jobs.Keys && id in open
  {
    forall other :: other in open ==> jobs[id].updated <= jobs[other].updated
  }

  lemma {:induction false} OldestExists(jobs: Jobs, open: set<Id>)
    requires open <= jobs.Keys && open != {}
    ensures exists id :: id in open && Oldest(jobs, open, id)
  {
    var one :| one in open;
    var rest := open - {one};
    if rest != {} {
      OldestExists(jobs, rest);
      var id :| id in rest && Oldest(jobs, rest, id);
      var best := if jobs[one].updated < jobs[id].updated then one else id;
      assert Oldest(jobs, open, best);
    } else {
      assert open == {one};
      assert Oldest(jobs, open, one);
    }
  }

  // ------------------------------------------------------------ the worker

  /** What a job comes to: it goes away, or it stays in the table. */
  datatype Fate = Gone | Stays(state: State, attempts: nat)

  /** `succeeds(id, n)` tells whether the n-th attempt at `id` raises nothing. A job whose row has
      moved on to another hash is dropped at its next claim, whatever the attempt would do. */
  function FateOf(id: Id, job: Job, current: bool, limit: int, succeeds: (Id, nat) -> bool): Fate
    decreases limit - job.attempts
  {
    if job.state != Waiting || job.attempts >= limit then Stays(job.state, job.attempts)
    else if !current || succeeds(id, job.attempts + 1) then Gone
    else if job.attempts + 1 >= limit then Stays(Failed, job.attempts + 1)
    else FateOf(id, job.(attempts := job.attempts + 1), current, limit, succeeds)
  }

  predicate StillCurrent(hashes: map<Id, string>, id: Id, job: Job) {
    id in hashes && hashes[id] == job.hash
  }

  /** A job goes away exactly when its row has moved on or one of its remaining attempts succeeds;
      otherwise it fails for good with all attempts used. */
  lemma {:induction false} GoneIff(id: Id, job: Job, current: bool, limit: int, succeeds: (Id, nat) -> bool)
    requires job.state == Waiting && job.attempts < limit
    ensures FateOf(id, job, current, limit, succeeds) ==
      if !current || exists n :: job.attempts < n <= limit && succeeds(id, n) then Gone else Stays(Failed, limit)
    decreases limit - job.attempts
  {
    if job.attempts + 1 < limit && current && !succeeds(id, job.attempts + 1) {
      GoneIff(id, job.(attempts := job.attempts + 1), current, limit, succeeds);
    }
  }

  /** The fates of `was` are what `now` still leads to. */
  ghost predicate SameFates(was: Jobs, now: Jobs, hashes: map<Id, string>, limit: int, succeeds: (Id, nat) -> bool) {
    && now.Keys <= was.Keys && (forall id :: id in now ==> now[id].hash == was[id].hash)
    && (forall id :: id in was ==>
          FateOf(id, was[id], StillCurrent(hashes, id, was[id]), limit, succeeds)
          == if id in now then FateOf(id, now[id], StillCurrent(hashes, id, now[id]), limit, succeeds) else Gone)
  }

  function Left(job: Job, limit: int): nat {
    if job.state == Waiting && job.attempts < limit then limit - job.attempts else 0
  }

  /** Attempts the waiting jobs still have. */
  ghost function Remaining(jobs: Jobs, limit: int): nat
    decreases jobs.Keys
  {
    if jobs == map[] then 0
    else
      var id :| id in jobs;
      Left(jobs[id], limit) + Remaining(jobs - {id}, limit)
  }

  lemma {:induction false} RemainingWithout(jobs: Jobs, limit: int, id: Id)
    requires id in jobs
    ensures Remaining(jobs, limit) == Left(jobs[id], limit) + Remaining(jobs - {id}, limit)
    decreases jobs.Keys
  {
    var first :| first in jobs && Remaining(jobs, limit) == Left(jobs[first], limit) + Remaining(jobs - {first}, limit);
    if first != id {
      RemainingWithout(jobs - {first}, limit, id);
      RemainingWithout(jobs - {id}, limit, first);
      assert jobs - {first} - {id} == jobs - {id} - {first};
    }
  }

  lemma RemainingDrops(jobs: Jobs, limit: int, id: Id, now: Jobs)
    requires Claimable(jobs, limit, id) && now - {id} == jobs - {id}
    requires id in now ==> Left(now[id], limit) < Left(jobs[id], limit)
    ensures Remaining(now, limit) < Remaining(jobs, limit)
  {
    RemainingWithout(jobs, limit, id);
    if id in now {
      RemainingWithout(now, limit, id);
    } else {
      assert now - {id} == now;
    }
  }

  predicate Attempt(before: Job, after: Job, limit: int) {
    && after.attempts == before.attempts + 1
    && after.hash == before.hash
    && after.state == if after.attempts >= limit then Failed else Waiting
  }

  lemma AttemptKeepsFate(id: Id, before: Job, after: Job, current: bool, limit: int, succeeds: (Id, nat) -> bool)
    requires before.state == Waiting && before.attempts < limit && Attempt(before, after, limit)
    requires current && !succeeds(id, before.attempts + 1)
    ensures FateOf(id, before, current, limit, succeeds) == FateOf(id, after, current, limit, succeeds)
  {
    if after.attempts < limit {
      FateIgnoresTime(id, after, before.(attempts := after.attempts), current, limit, succeeds);
    }
  }

  /** `id` was claimed and its attempt ended; `now` is what the table then holds. */
  lemma Attempted(was: Jobs, now: Jobs, hashes: map<Id, string>, limit: int, succeeds: (Id, nat) -> bool, id: Id)
    requires Claimable(was, limit, id) && now - {id} == was - {id}
    requires id !in now <==> (!StillCurrent(hashes, id, was[id]) || succeeds(id, was[id].attempts + 1))
    requires id in now ==> Attempt(was[id], now[id], limit)
    ensures Remaining(now, limit) < Remaining(was, limit)
    ensures SameFates(was, now, hashes, limit, succeeds)
  {
    RemainingDrops(was, limit, id, now);
    if id in now {
      AttemptKeepsFate(id, was[id], now[id], StillCurrent(hashes, id, was[id]), limit, succeeds);
    }
    OthersKeepFate(was, now, hashes, limit, succeeds, id);
  }

  lemma OthersKeepFate(was: Jobs, now: Jobs, hashes: map<Id, string>, limit: int, succeeds: (Id, nat) -> bool, id: Id)
    requires id in was && now - {id} == was - {id} && (id in now ==> now[id].hash == was[id].hash)
    requires FateOf(id, was[id], StillCurrent(hashes, id, was[id]), limit, succeeds)
      == if id in now then FateOf(id, now[id], StillCurrent(hashes, id, now[id]), limit, succeeds) else Gone
    ensures SameFates(was, now, hashes, limit, succeeds)
  {
    forall other | other != id
      ensures other in now <==> other in was
      ensures other in was ==> now[other] == was[other]
    {
      assert other in was <==> other in was - {id};
      assert other in now <==> other in now - {id};
      assert other in was ==> (was - {id})[other] == was[other];
    }
  }

  lemma {:induction false} FateIgnoresTime(id: Id, a: Job, b: Job, current: bool, limit: int, succeeds: (Id, nat) -> bool)
    requires a.attempts == b.attempts && a.state == b.state
    ensures FateOf(id, a, current, limit, succeeds) == FateOf(id, b, current, limit, succeeds)
    decreases limit - a.attempts
  {
    if a.attempts < limit {
      FateIgnoresTime(id, a.(attempts := a.attempts + 1), b.(attempts := b.attempts + 1), current, limit, succeeds);
    }
  }

  class EnrichmentWorker {
    const registry: Registry
    const limit: int

    constructor (registry: Registry, limit: int)
      ensures this.registry == registry && this.limit == limit
    {
      this.registry, this.limit := registry, limit;
    }

    /** One job goes away or uses up an attempt; no other job changes. */
    method ProcessOne(succeeds: (Id, nat) -> bool) returns (processed: bool)
      modifies registry`jobs, registry`clock
      ensures !processed ==> registry.jobs == old(registry.jobs) && forall id :: !Claimable(registry.jobs, limit, id)
      ensures processed ==> Remaining(registry.jobs, limit) < Remaining(old(registry.jobs), limit)
      ensures SameFates(old(registry.jobs), registry.jobs, registry.hashes, limit, succeeds)
    {
      ghost var was := registry.jobs;
      var claim := registry.ClaimEnrichmentJob(limit);
      if claim.None? {
        return false;
      }
      var id := claim.value;
      var job := registry.jobs[id];
      if !StillCurrent(registry.hashes, id, job) || succeeds(id, job.attempts) {
        var _ := registry.CompleteEnrichmentJob(id);
      } else {
        registry.FailEnrichmentJob(id, limit);
      }
      Attempted(was, registry.jobs, registry.hashes, limit, succeeds, id);
      return true;
    }

    /** `run_forever` until it first finds nothing to do, with nobody enqueueing: it gets there, and
        every job has met its fate, whatever the order in which jobs were claimed. */
    method RunUntilIdle(succeeds: (Id, nat) -> bool)
      modifies registry`jobs, registry`clock
      ensures forall id :: !Claimable(registry.jobs, limit, id)
      ensures registry.jobs.Keys <= old(registry.jobs).Keys
      ensures forall id :: id in old(registry.jobs) ==>
        MetFate(id, old(registry.jobs)[id], registry.hashes, limit, succeeds, registry.jobs)
    {
      var _ := registry.ResetRunningEnrichmentJobs();
      ghost var start, now := registry.jobs, registry.clock;
      var processed := true;
      while processed
        invariant SameFates(start, registry.jobs, registry.hashes, limit, succeeds)
        invariant !processed ==> forall id :: !Claimable(registry.jobs, limit, id)
        decreases processed, Remaining(registry.jobs, limit)
      {
        ghost var before := registry.jobs;
        processed := ProcessOne(succeeds);
        FatesTransitive(start, before, registry.jobs, registry.hashes, limit, succeeds);
      }
      forall id | id in old(registry.jobs)
        ensures MetFate(id, old(registry.jobs)[id], registry.hashes, limit, succeeds, registry.jobs)
      {
        IdleMeetsFate(old(registry.jobs), registry.jobs, now, registry.hashes, limit, succeeds, id);
      }
    }
  }

  lemma FatesTransitive(a: Jobs, b: Jobs, c: Jobs, hashes: map<Id, string>, limit: int, succeeds: (Id, nat) -> bool)
    requires SameFates(a, b, hashes, limit, succeeds) && SameFates(b, c, hashes, limit, succeeds)
    ensures SameFates(a, c, hashes, limit, succeeds)
  {
  }

  /** What has become of a job. With attempts left it is gone exactly when the row it is about has moved
      on to another content, or is gone, or one of the attempts left succeeds; else it has failed for good
      with all attempts used. Without attempts left it stays, and a running one waits. */
  predicate MetFate(id: Id, job: Job, hashes: map<Id, string>, limit: int, succeeds: (Id, nat) -> bool, now: Jobs) {
    if job.state != Failed && job.attempts < limit then
      if id !in hashes || hashes[id] != job.hash || exists n :: job.attempts < n <= limit && succeeds(id, n)
      then id !in now
      else id in now && now[id].state == Failed && now[id].attempts == limit && now[id].hash == job.hash
    else
      && id in now && now[id].attempts == job.attempts && now[id].hash == job.hash
      && now[id].state == if job.state == Running then Waiting else job.state
  }

  lemma IdleMeetsFate(was: Jobs, now: Jobs, time: int, hashes: map<Id, string>, limit: int, succeeds: (Id, nat) -> bool, id: Id)
    requires SameFates(Reset(was, time), now, hashes, limit, succeeds) && id in was && !Claimable(now, limit, id)
    ensures MetFate(id, was[id], hashes, limit, succeeds, now)
  {
    var job, reset := was[id], Reset(was, time)[id];
    IdleIsSettled(Reset(was, time), now, hashes, limit, succeeds, id);
    if job.state != Failed && job.attempts < limit {
      GoneIff(id, reset, StillCurrent(hashes, id, reset), limit, succeeds);
    }
  }

  /** What the table holds once nothing is claimable: each job kept stands as its fate says. */
  lemma IdleIsSettled(was: Jobs, now: Jobs, hashes: map<Id, string>, limit: int, succeeds: (Id, nat) -> bool, id: Id)
    requires SameFates(was, now, hashes, limit, succeeds) && id in was && !Claimable(now, limit, id)
    ensures FateOf(id, was[id], StillCurrent(hashes, id, was[id]), limit, succeeds)
      == if id in now then Stays(now[id].state, now[id].attempts) else Gone
  {
  }
}
