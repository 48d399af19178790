/** Approving a proposal: write the skill file, commit, push, and undo what can be undone when the
    push fails. */
module Approval {

  type Tree = map<string, string>

  /** Whether the skills root is a checkout of the configured repository. */
  datatype Checkout = NoRepo | Foreign | Ours

  datatype Status = Pending | Approved | Rejected

  datatype Proposal = Proposal(status: Status, path: string, gitCommitted: bool, indexed: bool, approvedBy: string)

  datatype Commit = Commit(sha: nat, tree: Tree)

  /** `head` and `remote` are commit histories, each commit after its parent. */
  datatype World = World(
    checkout: Checkout,
    worktree: Tree,
    index: Tree,
    head: seq<Commit>,
    remote: seq<Commit>,
    proposals: map<nat, Proposal>)

  /** One call: the text the skill renders to, the hash its commit would get, and what the outside does. */
  datatype Call = Call(id: nat, actor: string, text: string, sha: nat, gitMode: bool, cloneWorks: bool, pushWorks: bool, rollbackWorks: bool, embeds: bool)

  datatype Outcome = NotFound | AlreadyApproved | CheckoutUnavailable | PublishFailed | Done

  function Tip(history: seq<Commit>): Tree {
    if history == [] then map[] else history[|history| - 1].tree
  }

  datatype Publish = Publish(committed: bool, pushed: bool)

  // ------------------------------------------------------------ the objects, updated in place

  class SkillsRepo {
    var checkout: Checkout
    var worktree: Tree
    var index: Tree
    var head: seq<Commit>
    var remote: seq<Commit>

    constructor (remote: seq<Commit>)
      ensures checkout == NoRepo && worktree == map[] && index == map[] && head == [] && this.remote == remote
    {
      checkout, worktree, index, head, this.remote := NoRepo, map[], map[], [], remote;
    }

    /** Leaves a checkout with the configured origin, or changes nothing and fails. */
    method EnsureCheckout(cloneWorks: bool) returns (ok: bool)
      modifies this
      ensures remote == old(remote)
      ensures ok <==> old(checkout) == Ours || (old(checkout) == NoRepo && old(worktree) == map[] && cloneWorks)
      ensures ok ==> checkout == Ours
      ensures !ok || old(checkout) == Ours ==> unchanged(this)
      ensures ok && old(checkout) == NoRepo ==> head == remote && index == worktree == Tip(remote)
    {
      if checkout == Ours {
        return true;
      }
      if checkout == Foreign {
        return false;
      }
      if worktree != map[] || !cloneWorks {
        return false;
      }
      checkout, worktree, index, head := Ours, Tip(remote), Tip(remote), remote;
      return true;
    }

    /** Stages everything, commits when something changed, pushes to the origin whichever it is, and
        undoes the commit when the push fails. The remote takes only descendants of what it has. */
    method CommitAndPush(sha: nat, pushWorks: bool, rollbackWorks: bool) returns (r: Publish)
      modifies this
      ensures checkout == old(checkout) && worktree == old(worktree)
      ensures r.pushed ==> r.committed
      ensures checkout == NoRepo ==> r == Publish(false, false) && unchanged(this)
      ensures checkout != NoRepo && worktree == Tip(old(head)) ==>
        !r.committed && index == worktree && head == old(head) && remote == old(remote)
      ensures checkout != NoRepo && worktree != Tip(old(head)) && pushWorks && old(remote) <= old(head) + [Commit(sha, worktree)] ==>
        r == Publish(true, true) && index == worktree && head == remote == old(head) + [Commit(sha, worktree)]
      ensures checkout != NoRepo && worktree != Tip(old(head)) && !(pushWorks && old(remote) <= old(head) + [Commit(sha, worktree)]) ==>
        && remote == old(remote) && r == Publish(!rollbackWorks, false)
        && (rollbackWorks ==> head == old(head) && index == Tip(old(head)))
        && (!rollbackWorks ==> head == old(head) + [Commit(sha, worktree)] && index == worktree)
    {
      if checkout == NoRepo {
        return Publish(false, false);
      }
      index := worktree;
      if index == Tip(head) {
        return Publish(false, false);
      }
      head := head + [Commit(sha, index)];
      if pushWorks && remote <= head {
        remote := head;
        return Publish(true, true);
      }
      r := RollbackCommit(rollbackWorks);
    }

    /** `reset --mixed` to the parent, or an unborn branch with an empty index. */
    method RollbackCommit(works: bool) returns (r: Publish)
      requires head != []
      modifies this`head, this`index
      ensures works ==> head == old(head)[..|old(head)| - 1] && index == Tip(head) && r == Publish(false, false)
      ensures !works ==> head == old(head) && index == old(index) && r == Publish(true, false)
    {
      if !works {
        return Publish(true, false);
      }
      if |head| > 1 {
        head := head[..|head| - 1];
        index := head[|head| - 1].tree;
      } else {
        head := [];
        index := map[];
      }
      return Publish(false, false);
    }
  }

  class ApprovalDesk {
    const repo: SkillsRepo
    var proposals: map<nat, Proposal>

    constructor (repo: SkillsRepo)
      ensures this.repo == repo && proposals == map[]
    {
      this.repo, proposals := repo, map[];
    }

    ghost function Now(): World
      reads this, repo
    {
      World(repo.checkout, repo.worktree, repo.index, repo.head, repo.remote, proposals)
    }

    method ApproveProposal(c: Call) returns (outcome: Outcome)
      modifies this, repo
      ensures (Now(), outcome) == Approve(old(Now()), c)
    {
      if c.id !in proposals {
        return NotFound;
      }
      if proposals[c.id].status == Approved {
        return AlreadyApproved;
      }
      if c.gitMode {
        var ok := repo.EnsureCheckout(c.cloneWorks);
        if !ok {
          return CheckoutUnavailable;
        }
      }
      var published := SaveAndPublish(proposals[c.id].path, c);
      if !published {
        return PublishFailed;
      }
      proposals := proposals[c.id := proposals[c.id].(gitCommitted := c.gitMode, indexed := c.embeds)];
      proposals := proposals[c.id := proposals[c.id].(status := Approved, approvedBy := c.actor)];
      assert proposals == old(proposals)[c.id := ApprovedRow(old(proposals)[c.id], c)];
      return Done;
    }

    /** Writes the file and, in git mode, publishes it; puts the file back when publishing fails. */
    method SaveAndPublish(path: string, c: Call) returns (ok: bool)
      requires c.gitMode ==> repo.checkout == Ours
      modifies repo
      ensures (Now(), ok) == Published(old(Now()), path, c)
    {
      var existed := path in repo.worktree;
      var previous := if existed then repo.worktree[path] else "";
      ghost var before := repo.worktree;
      repo.worktree := repo.worktree[path := c.text];
      if !c.gitMode {
        return true;
      }
      var publish := repo.CommitAndPush(c.sha, c.pushWorks, c.rollbackWorks);
      ok := publish.committed && publish.pushed;
      if !ok {
        if existed {
          repo.worktree := repo.worktree[path := previous];
        } else {
          repo.worktree := repo.worktree - {path};
        }
        assert repo.worktree == before;
      }
    }
  }

  // ------------------------------------------------------------ the same, on values

  function AfterCheckout(w: World, cloneWorks: bool): World {
    if w.checkout == NoRepo && w.worktree == map[] && cloneWorks
    then w.(checkout := Ours, worktree := Tip(w.remote), index := Tip(w.remote), head := w.remote)
    else w
  }

  /** A commit of `tree` lands on the remote. */
  predicate Lands(w: World, c: Call, tree: Tree) {
    tree != Tip(w.head) && c.pushWorks && w.remote <= w.head + [Commit(c.sha, tree)]
  }

  function ApprovedRow(p: Proposal, c: Call): Proposal {
    p.(status := Approved, gitCommitted := c.gitMode, indexed := c.embeds, approvedBy := c.actor)
  }

  /** The file written and, in git mode, committed and pushed, or all put back. */
  function Published(w: World, path: string, c: Call): (World, bool) {
    var tree := w.worktree[path := c.text];
    if !c.gitMode then (w.(worktree := tree), true)
    else if Lands(w, c, tree) then
      var history := w.head + [Commit(c.sha, tree)];
      (w.(worktree := tree, index := tree, head := history, remote := history), true)
    else if tree == Tip(w.head) || c.rollbackWorks then (w.(index := Tip(w.head)), false)
    else (w.(index := tree, head := w.head + [Commit(c.sha, tree)]), false)
  }

  function Approve(w: World, c: Call): (World, Outcome) {
    if c.id !in w.proposals then (w, NotFound)
    else if w.proposals[c.id].status == Approved then (w, AlreadyApproved)
    else
      var v := if c.gitMode then AfterCheckout(w, c.cloneWorks) else w;
      if c.gitMode && v.checkout != Ours then (w, CheckoutUnavailable)
      else
        var (t, ok) := Published(v, w.proposals[c.id].path, c);
        if ok then (t.(proposals := w.proposals[c.id := ApprovedRow(w.proposals[c.id], c)]), Done)
        else (t, PublishFailed)
  }

  // ------------------------------------------------------------ one call

  /** The call can have the right checkout: it is there, or nothing is and it can be cloned. */
  predicate CheckoutAtHand(w: World, c: Call) {
    w.checkout == Ours || (w.checkout == NoRepo && w.worktree == map[] && c.cloneWorks)
  }

  /** The files and the history an approval starts from: in git mode without a checkout, the remote's. */
  function FilesFrom(w: World, c: Call): Tree {
    if c.gitMode && w.checkout == NoRepo then Tip(w.remote) else w.worktree
  }

  function HistoryFrom(w: World, c: Call): seq<Commit> {
    if c.gitMode && w.checkout == NoRepo then w.remote else w.head
  }

  /** The text changes something, the push works, and the checkout is not behind the remote. */
  predicate NewTextLands(w: World, c: Call)
    requires c.id in w.proposals
  {
    var files := FilesFrom(w, c)[w.proposals[c.id].path := c.text];
    files != Tip(HistoryFrom(w, c)) && c.pushWorks && w.remote <= HistoryFrom(w, c) + [Commit(c.sha, files)]
  }

  /** When each outcome comes about. */
  lemma OutcomeIff(w: World, c: Call)
    ensures var outcome := Approve(w, c).1;
      var due := c.id in w.proposals && w.proposals[c.id].status != Approved;
      && (outcome == NotFound <==> c.id !in w.proposals)
      && (outcome == AlreadyApproved <==> c.id in w.proposals && !due)
      && (outcome == CheckoutUnavailable <==> due && c.gitMode && !CheckoutAtHand(w, c))
      && (outcome == Done <==> due && (c.gitMode ==> CheckoutAtHand(w, c) && NewTextLands(w, c)))
  {
  }

  /** A successful approval, in either mode, leaves the file with the text of the call and the row with
      what the call came to. A local one leaves git alone; one in git mode leaves files, index, HEAD and
      remote at one new commit. */
  lemma ApprovalWritesFile(w: World, c: Call)
    requires Approve(w, c).1 == Done
    ensures var t := Approve(w, c).0;
      var path := w.proposals[c.id].path;
      && t.worktree == FilesFrom(w, c)[path := c.text]
      && t.proposals == w.proposals[c.id := Proposal(Approved, path, c.gitMode, c.embeds, c.actor)]
      && (!c.gitMode ==> t.checkout == w.checkout && t.index == w.index && t.head == w.head && t.remote == w.remote)
      && (c.gitMode ==> t.checkout == Ours && t.index == t.worktree && t.head == t.remote == HistoryFrom(w, c) + [Commit(c.sha, t.worktree)])
  {
  }

  /** An approval that does not succeed leaves files, remote and queue as they were, or the remote's
      files in a fresh clone. */
  lemma FailureKeepsFiles(w: World, c: Call)
    requires Approve(w, c).1 != Done
    ensures var t := Approve(w, c).0;
      && t.proposals == w.proposals && t.remote == w.remote
      && (t.worktree == w.worktree || (w.checkout == NoRepo && w.worktree == map[] && t.checkout == Ours && t.worktree == Tip(w.remote)))
  {
  }

  /** Everything a user can see of the repositories and the queue. */
  predicate Agree(w: World) {
    match w.checkout
    case Ours => w.worktree == w.index == Tip(w.head) && w.head == w.remote
    case NoRepo => w.worktree == map[]
    case Foreign => true
  }

  /** A failed publish whose rollback works gives back the checkout as it was exactly when the git
      index was clean; files, history, remote and queue are as before in any case. */
  lemma FailureRestoresIff(w: World, c: Call)
    requires w.checkout == Ours && c.rollbackWorks && Approve(w, c).1 == PublishFailed
    ensures var t := Approve(w, c).0;
      && t.worktree == w.worktree && t.head == w.head && t.remote == w.remote && t.proposals == w.proposals
      && (t == w <==> w.index == Tip(w.head))
  {
    assert w.(index := Tip(w.head)).index == Tip(w.head);
  }

  /** Nothing but success touches the remote, the queue or a file. */
  lemma AllOrNothing(w: World, c: Call)
    requires Agree(w) && (c.gitMode ==> c.rollbackWorks)
    ensures var (t, outcome) := Approve(w, c);
      && (outcome != Done ==> t == AfterCheckout(w, c.cloneWorks) || t == w)
      && (outcome == Done && c.gitMode ==>
            && t.remote == AfterCheckout(w, c.cloneWorks).remote + [Commit(c.sha, t.worktree)] && Agree(t)
            && t.worktree == Tip(w.remote)[w.proposals[c.id].path := c.text]
            && t.proposals == w.proposals[c.id := ApprovedRow(w.proposals[c.id], c)])
  {
    var v := AfterCheckout(w, c.cloneWorks);
    assert v.checkout == Ours ==> v.(index := Tip(v.head)) == v;
  }

  /** Without a working rollback the commit stays while the file is put back: checkout and HEAD
      disagree exactly then. */
  lemma FailedRollbackDisagrees(w: World, c: Call)
    requires w.checkout == Ours && Agree(w) && Approve(w, c).1 == PublishFailed
    ensures var tree := w.worktree[w.proposals[c.id].path := c.text];
      Agree(Approve(w, c).0) <==> c.rollbackWorks || tree == w.worktree
  {
    var tree := w.worktree[w.proposals[c.id].path := c.text];
    assert |w.head + [Commit(c.sha, tree)]| != |w.remote|;
  }

  // ------------------------------------------------------------ every sequence of calls

  function RunCalls(w: World, calls: seq<Call>): World
    decreases |calls|
  {
    if calls == [] then w else RunCalls(Approve(w, calls[0]).0, calls[1..])
  }

  predicate GitCalls(calls: seq<Call>) {
    forall c :: c in calls ==> c.gitMode && c.rollbackWorks
  }

  /** Worktree, index, HEAD and remote agree after any sequence of approvals whose pushes may fail. */
  lemma {:induction false} AgreementIsInvariant(w: World, calls: seq<Call>)
    requires Agree(w) && GitCalls(calls)
    ensures Agree(RunCalls(w, calls))
    decreases |calls|
  {
    if calls != [] {
      assert calls[0] in calls;
      AllOrNothing(w, calls[0]);
      AgreementIsInvariant(Approve(w, calls[0]).0, calls[1..]);
    }
  }

  /** No call takes a commit from the remote, whatever fails. */
  lemma {:induction false} RemoteGrows(w: World, calls: seq<Call>)
    ensures w.remote <= RunCalls(w, calls).remote
    decreases |calls|
  {
    if calls != [] {
      RemoteGrows(Approve(w, calls[0]).0, calls[1..]);
    }
  }

  /** Commit `n` of the history is the one of this call, with its text under the path. */
  predicate Carries(history: seq<Commit>, n: nat, c: Call, path: string) {
    && n < |history| && history[n].sha == c.sha
    && path in history[n].tree && history[n].tree[path] == c.text
  }

  /** The text of a successful approval is in the remote's history for good, whatever pushes and
      rollbacks fail before or after. */
  lemma PublishedTextStays(w: World, c: Call, calls: seq<Call>)
    requires c.gitMode && Approve(w, c).1 == Done
    ensures var n := |Approve(w, c).0.remote| - 1;
      n >= 0 && Carries(RunCalls(w, [c] + calls).remote, n, c, w.proposals[c.id].path)
  {
    assert ([c] + calls)[1..] == calls;
    RemoteGrows(Approve(w, c).0, calls);
  }

  /** A proposal keeps its path, and an approved one its whole row. */
  lemma {:induction false} RowsStay(w: World, calls: seq<Call>, id: nat)
    requires id in w.proposals
    ensures var t := RunCalls(w, calls);
      && id in t.proposals && t.proposals[id].path == w.proposals[id].path
      && (w.proposals[id].status == Approved ==> t.proposals[id] == w.proposals[id])
    decreases |calls|
  {
    if calls != [] {
      RowsStay(Approve(w, calls[0]).0, calls[1..], id);
    }
  }

  /** The first call approves; its row and its commit stay. */
  lemma ApprovedFirst(w: World, calls: seq<Call>) returns (n: nat)
    requires calls != [] && Approve(w, calls[0]).1 == Done
    ensures var c, t := calls[0], RunCalls(w, calls);
      && c.id in t.proposals && t.proposals[c.id] == Proposal(Approved, t.proposals[c.id].path, c.gitMode, c.embeds, c.actor)
      && t.proposals[c.id].path in t.worktree
      && (c.gitMode ==> Carries(t.remote, n, c, t.proposals[c.id].path))
  {
    var c := calls[0];
    var next := Approve(w, c).0;
    ApprovalWritesFile(w, c);
    RowsStay(next, calls[1..], c.id);
    assert w.proposals[c.id].path in next.worktree;
    FilesStay(next, calls[1..]);
    n := 0;
    if c.gitMode {
      assert [c] + calls[1..] == calls;
      PublishedTextStays(w, c, calls[1..]);
      n := |next.remote| - 1;
    }
  }

  lemma OneCallMore(w: World, calls: seq<Call>, k: nat)
    requires k < |calls|
    ensures RunCalls(w, calls[..k + 1]) == RunCalls(Approve(w, calls[0]).0, calls[1..][..k])
  {
    assert calls[..k + 1][1..] == calls[1..][..k] && calls[..k + 1][0] == calls[0];
  }

  /** Every proposal approved in a run was approved by one of its calls, in that call's mode and by its
      actor, and its file is there; and when that is git mode, the commit the call pushed, with its text under the proposal's path, is
      in the remote for good. Local approvals, failing pushes and failing rollbacks may come between. */
  lemma {:induction false} ApprovedMeansPushed(w: World, calls: seq<Call>, id: nat) returns (i: nat, n: nat)
    requires id in w.proposals ==> w.proposals[id].status != Approved
    requires var t := RunCalls(w, calls); id in t.proposals && t.proposals[id].status == Approved
    ensures i < |calls| && calls[i].id == id && Approve(RunCalls(w, calls[..i]), calls[i]).1 == Done
    ensures var row := RunCalls(w, calls).proposals[id];
      && row == Proposal(Approved, row.path, calls[i].gitMode, calls[i].embeds, calls[i].actor)
      && row.path in RunCalls(w, calls).worktree
      && (row.gitCommitted ==> Carries(RunCalls(w, calls).remote, n, calls[i], row.path))
    decreases |calls|
  {
    var c := calls[0];
    if c.id == id && Approve(w, c).1 == Done {
      n := ApprovedFirst(w, calls);
      i := 0;
      assert calls[..0] == [];
    } else {
      var k;
      k, n := ApprovedMeansPushed(Approve(w, c).0, calls[1..], id);
      OneCallMore(w, calls, k);
      i := k + 1;
    }
  }

  /** The file of an approved proposal holds the text it was approved with, in either mode and whatever
      fails later, until another proposal with the same path is approved. */
  lemma {:induction false} ApprovedFileStays(w: World, c: Call, calls: seq<Call>)
    requires Approve(w, c).1 == Done
    requires forall d :: d in calls && d.id in w.proposals && d.id != c.id ==> w.proposals[d.id].path != w.proposals[c.id].path
    ensures var files, path := RunCalls(w, [c] + calls).worktree, w.proposals[c.id].path;
      path in files && files[path] == c.text
  {
    assert ([c] + calls)[1..] == calls;
    ApprovalWritesFile(w, c);
    FileStays(Approve(w, c).0, calls, c.id, c.text);
  }

  lemma {:induction false} FileStays(w: World, calls: seq<Call>, id: nat, text: string)
    requires id in w.proposals && w.proposals[id].status == Approved
    requires w.proposals[id].path in w.worktree && w.worktree[w.proposals[id].path] == text
    requires forall d :: d in calls && d.id in w.proposals && d.id != id ==> w.proposals[d.id].path != w.proposals[id].path
    ensures var files, path := RunCalls(w, calls).worktree, w.proposals[id].path;
      path in files && files[path] == text
    decreases |calls|
  {
    if calls != [] {
      var c := calls[0];
      var next := Approve(w, c).0;
      assert c in calls;
      if Approve(w, c).1 == Done {
        ApprovalWritesFile(w, c);
      } else {
        FailureKeepsFiles(w, c);
      }
      FileStays(next, calls[1..], id, text);
    }
  }

  /** A file once there is never removed. */
  lemma {:induction false} FilesStay(w: World, calls: seq<Call>)
    requires w.worktree != map[]
    ensures w.worktree.Keys <= RunCalls(w, calls).worktree.Keys
    decreases |calls|
  {
    if calls != [] {
      var c := calls[0];
      if Approve(w, c).1 == Done {
        ApprovalWritesFile(w, c);
      } else {
        FailureKeepsFiles(w, c);
      }
      FilesStay(Approve(w, c).0, calls[1..]);
    }
  }

  /** A commit hash nobody has used. */
  predicate Unused(w: World, sha: nat) {
    forall i :: 0 <= i < |w.remote| ==> w.remote[i].sha != sha
  }

  /** Nothing ever fetches: once the remote holds a commit the checkout lacks, every later approval
      in git mode fails. The remote stands still, and a row changes only by a local approval. */
  lemma {:induction false} StaleCheckoutNeverPublishes(w: World, calls: seq<Call>)
    requires w.checkout == Ours && !(w.remote <= w.head)
    requires forall c :: c in calls ==> Unused(w, c.sha)
    ensures var t := RunCalls(w, calls);
      && t.remote == w.remote && t.proposals.Keys == w.proposals.Keys
      && (forall id :: id in w.proposals && t.proposals[id] != w.proposals[id] ==>
            !t.proposals[id].gitCommitted && exists c :: c in calls && c.id == id && !c.gitMode)
    decreases |calls|
  {
    if calls != [] {
      assert calls[0] in calls;
      StaleStep(w, calls[0]);
      StaleCheckoutNeverPublishes(Approve(w, calls[0]).0, calls[1..]);
    }
  }

  lemma StaleStep(w: World, c: Call)
    requires w.checkout == Ours && !(w.remote <= w.head) && Unused(w, c.sha)
    ensures var (t, outcome) := Approve(w, c);
      && t.remote == w.remote && t.checkout == Ours && !(t.remote <= t.head)
      && (c.gitMode ==> outcome != Done)
      && (t.proposals == w.proposals
          || (!c.gitMode && c.id in w.proposals && t.proposals == w.proposals[c.id := ApprovedRow(w.proposals[c.id], c)]))
  {
    if c.id in w.proposals {
      CommitStaysStale(w, c.sha, w.worktree[w.proposals[c.id].path := c.text]);
    }
  }

  lemma CommitStaysStale(w: World, sha: nat, tree: Tree)
    requires !(w.remote <= w.head) && Unused(w, sha)
    ensures !(w.remote <= w.head + [Commit(sha, tree)])
  {
    var next := w.head + [Commit(sha, tree)];
    if |w.remote| <= |w.head| {
      assert next[..|w.remote|] == w.head[..|w.remote|];
    }
    assert next[|w.head|].sha == sha;
  }
}
