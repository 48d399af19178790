/** A source pass that was cut short, wherever and in whatever order its batches ran, is a run of the
    system in `Claims`: its crash states are among those the invariant holds of. */
module Interrupted {
  import opened Stores
  import opened Lists
  import opened Plans
  import opened Claims
  import opened Runs
  import opened DeltaRun

  /** The deletion of a row that has lost a point comes before everything else. */
  function Reset(s: Store, u: Uri): seq<Write> {
    if u in s.rows && Survivor(s, u) == None then [Forget(u)] else []
  }

  /** The operation the pass starts on a resource it does not skip. */
  function JobOf(pass: Pass, u: Uri): Job {
    if u in pass.source then Ingest(pass.source[u], pass.version, pass.at(u), pass.lead(u), Written) else Remove
  }

  /** Where the task of a resource stands once `mine` of its writes are made. */
  predicate Stands(cfg: Cfg, s: Store, pass: Pass, u: Uri, mine: seq<Write>, tasks: map<Uri, seq<Write>>) {
    var all := PassWrites(cfg, s, pass, u);
    mine <= all
    && if |mine| <= |Reset(s, u)| then u !in tasks else u in tasks && tasks[u] == all[|mine|..]
  }

  /** `steps` goes on from `start` and has made the writes `done`. */
  ghost predicate Along(cfg: Cfg, start: seq<Step>, pass: Pass, done: seq<Write>, steps: seq<Step>) {
    var from, sys := Final(cfg, start), Final(cfg, steps);
    && ValidRun(cfg, steps)
    && sys.store == ApplyAll(from.store, done)
    && (forall u: Uri :: u.owner == pass.owner ==> Stands(cfg, from.store, pass, u, For(done, u), sys.tasks))
  }

  /** Every refresh the pass makes starts from a safe row. */
  predicate RefreshesSafely(cfg: Cfg, s: Store, pass: Pass, level: Level) {
    forall u :: u in pass.source && Classify(Survivor(s, u), pass.source[u], pass.version) == Refresh ==>
      SafeRefresh(cfg, s, u, pass.source[u], level)
  }

  lemma SameMissing(u: Uri, a: Store, b: Store, row: Row)
    requires SameAt(u, a, b) && OwnIds(u, row)
    ensures Missing(a, row) <==> Missing(b, row)
  {
    assert forall id :: id in row.ids ==> (Exists(a, id) <==> Exists(b, id));
  }

  /** What the resource looks like before its operation begins. */
  lemma PriorIsSurvivor(cfg: Cfg, s: Store, pass: Pass, u: Uri, store: Store)
    requires OwnRows(s) && SameAt(u, store, ApplyAll(s, Reset(s, u)))
    ensures Prior(store, u) == Survivor(s, u)
    ensures u in store.rows ==> !Missing(store, store.rows[u])
  {
    if Reset(s, u) == [] {
      if u in s.rows {
        SameMissing(u, store, s, s.rows[u]);
      }
    } else {
      ApplyOne(s, Forget(u));
    }
  }

  lemma BeginsJob(cfg: Cfg, s: Store, pass: Pass, u: Uri, store: Store)
    requires ValidPass(cfg, pass) && u.owner == pass.owner && OwnRows(s)
    requires SameAt(u, store, ApplyAll(s, Reset(s, u)))
    requires |PassWrites(cfg, s, pass, u)| > |Reset(s, u)|
    ensures CanBegin(cfg, store, u, JobOf(pass, u))
    ensures PlanOf(cfg, store, u, JobOf(pass, u)) == PassWrites(cfg, s, pass, u)[|Reset(s, u)|..]
  {
    PriorIsSurvivor(cfg, s, pass, u, store);
  }

  lemma BeginsSafely(cfg: Cfg, s: Store, pass: Pass, u: Uri, sys: Sys, level: Level)
    requires OwnRows(s) && SameAt(u, sys.store, ApplyAll(s, Reset(s, u))) && RefreshesSafely(cfg, s, pass, level)
    ensures StepSafe(cfg, sys, Begin(u, JobOf(pass, u)), level)
  {
    PriorIsSurvivor(cfg, s, pass, u, sys.store);
    if u in pass.source && Classify(Survivor(s, u), pass.source[u], pass.version) == Refresh {
      var row := s.rows[u];
      assert Reset(s, u) == [] && sys.store.rows[u] == row;
      forall key | key in ClaimKeys(cfg, u, row)
        ensures Stamped(sys.store, key, row.stamp, level)
      {
        assert key.id.uri == u && Stamped(s, key, row.stamp, level);
      }
    }
  }

  /** A row that has lost a point goes. */
  lemma MakesReset(cfg: Cfg, steps: seq<Step>, u: Uri) returns (more: seq<Step>)
    requires ValidRun(cfg, steps)
    requires var sys := Final(cfg, steps); u !in sys.tasks && u in sys.store.rows && Missing(sys.store, sys.store.rows[u])
    ensures ValidRun(cfg, more) && SafeIf(cfg, steps, more) && steps <= more
    ensures Final(cfg, more).store == Apply(Final(cfg, steps).store, Forget(u)) && Final(cfg, more).tasks == Final(cfg, steps).tasks
  {
    more := RunCutJob(cfg, steps, u, DropMissing, 1);
    ApplyOne(Final(cfg, steps).store, Forget(u));
    assert [Forget(u)][..1] == [Forget(u)];
  }

  lemma SetTwice(tasks: map<Uri, seq<Write>>, u: Uri, todo: seq<Write>)
    requires todo != []
    ensures tasks[u := todo][u := todo[1..]] == tasks[u := todo[1..]]
  {
  }

  /** The operation begins and makes its first write. */
  lemma MakesFirst(cfg: Cfg, steps: seq<Step>, u: Uri, job: Job) returns (more: seq<Step>)
    requires ValidRun(cfg, steps) && Enabled(cfg, Final(cfg, steps), Begin(u, job))
    requires PlanOf(cfg, Final(cfg, steps).store, u, job) != []
    ensures var plan := PlanOf(cfg, Final(cfg, steps).store, u, job);
      && ValidRun(cfg, more) && steps <= more
      && Final(cfg, more).store == Apply(Final(cfg, steps).store, plan[0])
      && Final(cfg, more).tasks == Final(cfg, steps).tasks[u := plan[1..]]
      && forall level :: StepSafe(cfg, Final(cfg, steps), Begin(u, job), level) && SafeRun(cfg, steps, level) ==> SafeRun(cfg, more, level)
  {
    var begun := steps + [Begin(u, job)];
    BeginOnce(cfg, steps, u, job);
    AdvanceOnce(cfg, begun, u);
    more := begun + [Advance(u)];
    SetTwice(Final(cfg, steps).tasks, u, PlanOf(cfg, Final(cfg, steps).store, u, job));
  }

  /** A task's next write. */
  lemma MakesNext(cfg: Cfg, steps: seq<Step>, u: Uri) returns (more: seq<Step>)
    requires ValidRun(cfg, steps) && u in Final(cfg, steps).tasks && Final(cfg, steps).tasks[u] != []
    ensures ValidRun(cfg, more) && SafeIf(cfg, steps, more) && steps <= more
    ensures Final(cfg, more).store == Apply(Final(cfg, steps).store, Final(cfg, steps).tasks[u][0])
    ensures Final(cfg, more).tasks == Final(cfg, steps).tasks[u := Final(cfg, steps).tasks[u][1..]]
  {
    AdvanceOnce(cfg, steps, u);
    more := steps + [Advance(u)];
  }

  ghost predicate SafeWith(cfg: Cfg, start: seq<Step>, pass: Pass, steps: seq<Step>) {
    forall level :: SafeRun(cfg, start, level) && RefreshesSafely(cfg, Final(cfg, start).store, pass, level) ==> SafeRun(cfg, steps, level)
  }

  lemma StandsAside(cfg: Cfg, s: Store, pass: Pass, v: Uri, mine: seq<Write>, tasks: map<Uri, seq<Write>>, u: Uri, after: map<Uri, seq<Write>>)
    requires Stands(cfg, s, pass, v, mine, tasks) && u != v && after - {u} == tasks - {u}
    ensures Stands(cfg, s, pass, v, mine, after)
  {
    assert v in tasks <==> v in tasks - {u};
    assert v in after <==> v in after - {u};
    assert v in tasks ==> (tasks - {u})[v] == tasks[v];
    assert v in after ==> (after - {u})[v] == after[v];
  }

  /** `more` makes the write `w` of a resource that has made `mine` before. */
  ghost predicate Makes(cfg: Cfg, start: seq<Step>, pass: Pass, steps: seq<Step>, w: Write, mine: seq<Write>, more: seq<Step>) {
    && ValidRun(cfg, more) && steps <= more && SafeWith(cfg, start, pass, more)
    && Final(cfg, more).store == Apply(Final(cfg, steps).store, w)
    && Final(cfg, more).tasks - {Target(w)} == Final(cfg, steps).tasks - {Target(w)}
    && Stands(cfg, Final(cfg, start).store, pass, Target(w), mine + [w], Final(cfg, more).tasks)
  }

  /** The resource's own task after one more of its writes. */
  lemma WriteMade(cfg: Cfg, start: seq<Step>, pass: Pass, done: seq<Write>, steps: seq<Step>, w: Write) returns (more: seq<Step>)
    requires ValidRun(cfg, start) && ValidPass(cfg, pass) && Along(cfg, start, pass, done, steps)
    requires SafeWith(cfg, start, pass, steps) && OwnRows(Final(cfg, start).store)
    requires forall x :: x in done ==> Local(x)
    requires Target(w).owner == pass.owner
    requires For(done, Target(w)) + [w] <= PassWrites(cfg, Final(cfg, start).store, pass, Target(w))
    ensures Makes(cfg, start, pass, steps, w, For(done, Target(w)), more)
  {
    var u, s := Target(w), Final(cfg, start).store;
    var sys, mine := Final(cfg, steps), For(done, u);
    assert Stands(cfg, s, pass, u, mine, sys.tasks);
    Projection(s, s, done, u);
    if |mine| < |Reset(s, u)| {
      more := ResetMade(cfg, start, pass, steps, w);
    } else if |mine| == |Reset(s, u)| {
      more := FirstMade(cfg, start, pass, steps, w, mine);
    } else {
      more := NextMade(cfg, start, pass, steps, w, mine);
    }
  }

  lemma ResetMade(cfg: Cfg, start: seq<Step>, pass: Pass, steps: seq<Step>, w: Write) returns (more: seq<Step>)
    requires ValidRun(cfg, steps) && SafeWith(cfg, start, pass, steps) && OwnRows(Final(cfg, start).store)
    requires var u, s, sys := Target(w), Final(cfg, start).store, Final(cfg, steps);
      && u !in sys.tasks && SameAt(u, sys.store, s)
      && |Reset(s, u)| > 0 && [] + [w] <= PassWrites(cfg, s, pass, u)
    ensures Makes(cfg, start, pass, steps, w, [], more)
  {
    var u, s := Target(w), Final(cfg, start).store;
    assert PassWrites(cfg, s, pass, u)[0] == Forget(u) && ([] + [w])[0] == w;
    SameMissing(u, Final(cfg, steps).store, s, s.rows[u]);
    more := MakesReset(cfg, steps, u);
  }

  lemma FirstMade(cfg: Cfg, start: seq<Step>, pass: Pass, steps: seq<Step>, w: Write, mine: seq<Write>) returns (more: seq<Step>)
    requires ValidRun(cfg, steps) && SafeWith(cfg, start, pass, steps) && OwnRows(Final(cfg, start).store) && ValidPass(cfg, pass)
    requires var u, s, sys := Target(w), Final(cfg, start).store, Final(cfg, steps);
      && u.owner == pass.owner && u !in sys.tasks && SameAt(u, sys.store, ApplyAll(s, mine))
      && |mine| == |Reset(s, u)| && mine + [w] <= PassWrites(cfg, s, pass, u)
    ensures Makes(cfg, start, pass, steps, w, mine, more)
  {
    var u, s, sys := Target(w), Final(cfg, start).store, Final(cfg, steps);
    MineIsReset(cfg, s, pass, u, mine, w);
    BeginsJob(cfg, s, pass, u, sys.store);
    more := MakesFirst(cfg, steps, u, JobOf(pass, u));
    FirstIsSafe(cfg, start, pass, steps, u, more);
  }

  lemma FirstIsSafe(cfg: Cfg, start: seq<Step>, pass: Pass, steps: seq<Step>, u: Uri, more: seq<Step>)
    requires SafeWith(cfg, start, pass, steps) && OwnRows(Final(cfg, start).store)
    requires var s := Final(cfg, start).store; SameAt(u, Final(cfg, steps).store, ApplyAll(s, Reset(s, u)))
    requires forall level :: StepSafe(cfg, Final(cfg, steps), Begin(u, JobOf(pass, u)), level) && SafeRun(cfg, steps, level)
               ==> SafeRun(cfg, more, level)
    ensures SafeWith(cfg, start, pass, more)
  {
    forall level | SafeRun(cfg, start, level) && RefreshesSafely(cfg, Final(cfg, start).store, pass, level)
      ensures SafeRun(cfg, more, level)
    {
      BeginsSafely(cfg, Final(cfg, start).store, pass, u, Final(cfg, steps), level);
    }
  }

  lemma MineIsReset(cfg: Cfg, s: Store, pass: Pass, u: Uri, mine: seq<Write>, w: Write)
    requires |mine| == |Reset(s, u)| && mine + [w] <= PassWrites(cfg, s, pass, u)
    ensures mine == Reset(s, u) && |PassWrites(cfg, s, pass, u)| > |Reset(s, u)|
    ensures var rest := PassWrites(cfg, s, pass, u)[|Reset(s, u)|..];
      rest != [] && rest[0] == w && rest[1..] == PassWrites(cfg, s, pass, u)[|mine + [w]|..]
  {
    var all := PassWrites(cfg, s, pass, u);
    assert Reset(s, u) <= all;
    assert mine == (mine + [w])[..|mine|] == all[..|mine|];
    NextOf(all, mine, w);
  }

  lemma NextMade(cfg: Cfg, start: seq<Step>, pass: Pass, steps: seq<Step>, w: Write, mine: seq<Write>) returns (more: seq<Step>)
    requires ValidRun(cfg, steps) && SafeWith(cfg, start, pass, steps)
    requires var u, s, sys := Target(w), Final(cfg, start).store, Final(cfg, steps);
      && |mine| > |Reset(s, u)| && mine + [w] <= PassWrites(cfg, s, pass, u)
      && Stands(cfg, s, pass, u, mine, sys.tasks)
    ensures Makes(cfg, start, pass, steps, w, mine, more)
  {
    NextOf(PassWrites(cfg, Final(cfg, start).store, pass, Target(w)), mine, w);
    more := MakesNext(cfg, steps, Target(w));
  }

  lemma NextOf(all: seq<Write>, mine: seq<Write>, w: Write)
    requires mine + [w] <= all
    ensures all[|mine|..] != [] && all[|mine|..][0] == w && all[|mine|..][1..] == all[|mine + [w]|..]
  {
    assert (mine + [w])[|mine|] == w;
  }

  lemma OneWriteMore(cfg: Cfg, start: seq<Step>, pass: Pass, done: seq<Write>, steps: seq<Step>, w: Write, all: seq<Write>)
      returns (more: seq<Step>)
    requires ValidRun(cfg, start) && ValidPass(cfg, pass) && Along(cfg, start, pass, done, steps)
    requires SafeWith(cfg, start, pass, steps) && OwnRows(Final(cfg, start).store)
    requires (forall x :: x in done ==> Local(x)) && all == done + [w]
    requires Target(w).owner == pass.owner
    requires For(done, Target(w)) + [w] <= PassWrites(cfg, Final(cfg, start).store, pass, Target(w))
    ensures Along(cfg, start, pass, all, more) && steps <= more && SafeWith(cfg, start, pass, more)
  {
    var s := Final(cfg, start).store;
    more := WriteMade(cfg, start, pass, done, steps, w);
    ApplyAllConcat(s, done, [w]);
    ApplyOne(ApplyAll(s, done), w);
    var tasks := Final(cfg, more).tasks;
    forall v: Uri | v.owner == pass.owner
      ensures Stands(cfg, s, pass, v, For(all, v), tasks)
    {
      PickOneMore(done, w, About(v));
      if v != Target(w) {
        assert Stands(cfg, s, pass, v, For(done, v), Final(cfg, steps).tasks);
        StandsAside(cfg, s, pass, v, For(done, v), Final(cfg, steps).tasks, Target(w), tasks);
      }
    }
  }

  lemma AlongStart(cfg: Cfg, start: seq<Step>, pass: Pass, none: seq<Write>)
    requires ValidRun(cfg, start) && none == []
    requires forall u: Uri :: u.owner == pass.owner ==> u !in Final(cfg, start).tasks
    ensures Along(cfg, start, pass, none, start) && SafeWith(cfg, start, pass, start)
  {
  }

  lemma ForNext(ws: seq<Write>, n: nat)
    requires n < |ws|
    ensures For(ws[..n], Target(ws[n])) + [ws[n]] <= For(ws, Target(ws[n]))
  {
    var u := Target(ws[n]);
    assert ws[..n + 1] == ws[..n] + [ws[n]];
    PickPrefix(ws[..n + 1], ws, About(u));
    PickOneMore(ws[..n], ws[n], About(u));
  }

  lemma NextWrite(cfg: Cfg, s: Store, pass: Pass, ws: seq<Write>, n: nat, w: Write)
    requires IsCutDelta(cfg, s, pass, ws) && n < |ws| && w == ws[n] && Target(w).owner == pass.owner
    ensures For(ws[..n], Target(w)) + [w] <= PassWrites(cfg, s, pass, Target(w))
  {
    ForNext(ws, n);
    PrefixOfPrefix(For(ws[..n], Target(w)) + [w], For(ws, Target(w)), PassWrites(cfg, s, pass, Target(w)));
  }

  lemma PrefixOfPrefix(a: seq<Write>, b: seq<Write>, c: seq<Write>)
    requires a <= b <= c
    ensures a <= c
  {
  }

  lemma SliceMore(ws: seq<Write>, n: nat)
    requires 0 < n <= |ws|
    ensures ws[..n] == ws[..n - 1] + [ws[n - 1]] && ws[n - 1] in ws && forall x :: x in ws[..n - 1] ==> x in ws
  {
  }

  lemma {:induction false} MakesAll(cfg: Cfg, start: seq<Step>, pass: Pass, ws: seq<Write>, n: nat) returns (steps: seq<Step>)
    requires ValidRun(cfg, start) && ValidPass(cfg, pass) && IsCutDelta(cfg, Final(cfg, start).store, pass, ws) && n <= |ws|
    requires OwnRows(Final(cfg, start).store)
    requires forall u: Uri :: u.owner == pass.owner ==> u !in Final(cfg, start).tasks
    ensures Along(cfg, start, pass, ws[..n], steps) && start <= steps && SafeWith(cfg, start, pass, steps)
  {
    var s := Final(cfg, start).store;
    if n == 0 {
      steps := start;
      AlongStart(cfg, start, pass, ws[..0]);
    } else {
      var w := ws[n - 1];
      var most := MakesAll(cfg, start, pass, ws, n - 1);
      CutDeltaIsLocal(cfg, s, pass, ws);
      NextWrite(cfg, s, pass, ws, n - 1, w);
      SliceMore(ws, n);
      steps := OneWriteMore(cfg, start, pass, ws[..n - 1], most, w, ws[..n]);
    }
  }

  /** From any reachable state in which no operation runs on the source key, every store an
      interrupted pass can leave is the store of a reachable state, by steps that are safe when the
      refreshes of the pass are; so the invariant of the claims holds there. */
  lemma InterruptedPassIsARun(cfg: Cfg, start: seq<Step>, pass: Pass, ws: seq<Write>, level: Level) returns (steps: seq<Step>)
    requires ValidRun(cfg, start) && ValidPass(cfg, pass) && IsCutDelta(cfg, Final(cfg, start).store, pass, ws)
    requires forall u: Uri :: u.owner == pass.owner ==> u !in Final(cfg, start).tasks
    ensures ValidRun(cfg, steps) && start <= steps
    ensures Final(cfg, steps).store == ApplyAll(Final(cfg, start).store, ws)
    ensures SafeRun(cfg, start, level) && RefreshesSafely(cfg, Final(cfg, start).store, pass, level) ==>
      SafeRun(cfg, steps, level) && Inv(cfg, Final(cfg, steps), level)
  {
    RunIsOwn(cfg, start);
    steps := MakesAll(cfg, start, pass, ws, |ws|);
    assert ws[..|ws|] == ws;
    if SafeRun(cfg, start, level) && RefreshesSafely(cfg, Final(cfg, start).store, pass, level) {
      RunKeepsInv(cfg, steps, level);
    }
  }
}
