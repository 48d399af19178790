/** `merge_candidates`: one ranked evidence list from all retrieval channels. */
module Evidence {
  import opened Lists

  datatype Channel = Hybrid | Grep | RepoMap | Graph | Summary | Skill
  datatype Role = Overview | Definition | Implementation | Relationship | Validation | SkillGuidance
  datatype Shape = Local | Global | Relational | Procedural

  datatype Place = Place(file: string, chunk: string, line: int)

  /** `named` is the metadata flag that a query anchor names the file exactly. */
  datatype Candidate = Candidate(
    channel: Channel, role: Role, file: string, chunk: string, line: int, score: real, proximity: real, named: bool)
  {
    function Key(): Place {
      Place(file, chunk, line)
    }
  }

  function ChannelWeight(channel: Channel): real {
    match channel
    case Grep => 0.16
    case RepoMap => 0.10
    case Graph => 0.08
    case Summary => 0.08
    case Hybrid => 0.06
    case Skill => 0.04
  }

  function RoleWeight(role: Role): real {
    match role
    case Overview => 0.040
    case Definition => 0.040
    case Implementation => 0.036
    case Relationship => 0.030
    case Validation => 0.024
    case SkillGuidance => 0.020
  }

  /** What two candidates with one key are compared by. */
  function Worth(c: Candidate): real {
    ChannelWeight(c.channel) + c.score
  }

  function Rank(c: Candidate): real {
    c.score + (if c.named then 0.5 else 0.0) + 0.06 * c.proximity + ChannelWeight(c.channel) + RoleWeight(c.role)
  }

  predicate ByRank(a: Candidate, b: Candidate) {
    Rank(a) >= Rank(b)
  }

  /** A better score, a nearer place and a named file each rank higher, all else being equal. */
  lemma RankRises(a: Candidate, b: Candidate)
    requires a.channel == b.channel && a.role == b.role
    requires a.score >= b.score && a.proximity >= b.proximity && (b.named ==> a.named)
    ensures Rank(a) >= Rank(b)
    ensures a.score > b.score || a.proximity > b.proximity || (a.named && !b.named) ==> Rank(a) > Rank(b)
  {
  }

  /** With the least and with the most that channel, role and place can add. */
  predicate Farthest(c: Candidate) {
    c.channel == Skill && c.role == SkillGuidance && c.proximity == 0.0
  }

  predicate Nearest(c: Candidate) {
    c.channel == Grep && c.role == Definition && c.proximity == 1.0
  }

  /** A named file comes before any that is not named and scores no more than 0.3 higher, whatever the
      channels, the roles and the places; by more it need not. */
  lemma NamedFileComesFirst(a: Candidate, b: Candidate)
    requires a.named && !b.named && 0.0 <= a.proximity && b.proximity <= 1.0
    ensures b.score <= a.score + 0.3 ==> Rank(a) >= Rank(b)
    ensures b.score > a.score + 0.3 && Farthest(a) && Nearest(b) ==> Rank(a) < Rank(b)
  {
  }

  /** Without a named file the score decides by a lead of 0.2; below that channel, role and place can. */
  lemma ScoreDecides(a: Candidate, b: Candidate)
    requires a.named == b.named && 0.0 <= a.proximity <= 1.0 && 0.0 <= b.proximity <= 1.0
    ensures a.score >= b.score + 0.2 ==> Rank(a) >= Rank(b)
    ensures a.score < b.score + 0.2 && Farthest(a) && Nearest(b) ==> Rank(a) < Rank(b)
  {
  }

  /** All else being equal: grep before the repository map, before graph and summary, before hybrid
      search, before skills; and likewise for the roles. */
  lemma WeightsFall(a: Candidate, b: Candidate)
    requires a.score == b.score && a.named == b.named && a.proximity == b.proximity
    ensures a.role == b.role ==> (Rank(a) > Rank(b) <==> ChannelPlace(a.channel) < ChannelPlace(b.channel))
    ensures a.channel == b.channel ==> (Rank(a) > Rank(b) <==> RolePlace(a.role) < RolePlace(b.role))
    ensures Worth(a) > Worth(b) <==> ChannelPlace(a.channel) < ChannelPlace(b.channel)
  {
  }

  function ChannelPlace(channel: Channel): nat {
    match channel
    case Grep => 0
    case RepoMap => 1
    case Graph => 2
    case Summary => 2
    case Hybrid => 3
    case Skill => 4
  }

  function RolePlace(role: Role): nat {
    match role
    case Overview => 0
    case Definition => 0
    case Implementation => 1
    case Relationship => 2
    case Validation => 3
    case SkillGuidance => 4
  }

  // ------------------------------------------------------------ keys

  function KeysOf(s: seq<Candidate>): set<Place> {
    set c | c in s :: c.Key()
  }

  predicate DistinctKeys(s: seq<Candidate>) {
    forall i, j :: 0 <= i < j < |s| ==> s[i].Key() != s[j].Key()
  }

  lemma KeysAppend(a: seq<Candidate>, b: seq<Candidate>)
    ensures KeysOf(a + b) == KeysOf(a) + KeysOf(b)
  {
  }

  lemma DistinctAppend(s: seq<Candidate>, c: Candidate)
    requires DistinctKeys(s) && c.Key() !in KeysOf(s)
    ensures DistinctKeys(s + [c]) && KeysOf(s + [c]) == KeysOf(s) + {c.Key()}
  {
    KeysAppend(s, [c]);
    forall i | 0 <= i < |s|
      ensures s[i].Key() != c.Key()
    {
      assert s[i] in s;
    }
  }

  lemma InsertKeys(c: Candidate, s: seq<Candidate>, le: (Candidate, Candidate) -> bool)
    ensures KeysOf(Insert(c, s, le)) == KeysOf(s) + {c.Key()}
  {
    InsertKeeps(c, s, le);
    SameMembers(Insert(c, s, le), s + [c]);
    KeysAppend(s, [c]);
  }

  lemma FirstAlone(s: seq<Candidate>)
    requires s != []
    ensures DistinctKeys(s) <==> s[0].Key() !in KeysOf(s[1..]) && DistinctKeys(s[1..])
  {
    assert forall i :: 0 < i < |s| ==> s[i] == s[1..][i - 1];
  }

  lemma {:induction false} InsertDistinct(c: Candidate, s: seq<Candidate>, le: (Candidate, Candidate) -> bool)
    requires DistinctKeys(s) && c.Key() !in KeysOf(s)
    ensures DistinctKeys(Insert(c, s, le))
  {
    var r := Insert(c, s, le);
    if s == [] || le(c, s[0]) {
      assert r[1..] == s;
    } else {
      FirstAlone(s);
      assert r[1..] == Insert(c, s[1..], le);
      InsertDistinct(c, s[1..], le);
      InsertKeys(c, s[1..], le);
      assert s[0] in s;
    }
    FirstAlone(r);
  }

  lemma {:induction false} SortDistinct(s: seq<Candidate>, le: (Candidate, Candidate) -> bool)
    requires DistinctKeys(s)
    ensures DistinctKeys(Sort(s, le)) && KeysOf(Sort(s, le)) == KeysOf(s)
  {
    if s != [] {
      SortDistinct(s[1..], le);
      FirstAlone(s);
      InsertDistinct(s[0], Sort(s[1..], le), le);
      InsertKeys(s[0], Sort(s[1..], le), le);
      assert s == [s[0]] + s[1..];
      KeysAppend([s[0]], s[1..]);
    }
  }

  // ------------------------------------------------------------ one entry per key

  /** `candidates[i]` is worth most under its key, and the first to be. */
  predicate Best(candidates: seq<Candidate>, i: nat)
    requires i < |candidates|
  {
    forall j :: 0 <= j < |candidates| && candidates[j].Key() == candidates[i].Key() ==>
      Worth(candidates[j]) < Worth(candidates[i]) || (Worth(candidates[j]) == Worth(candidates[i]) && i <= j)
  }

  predicate BestUnder(candidates: seq<Candidate>, key: Place, c: Candidate) {
    exists i :: 0 <= i < |candidates| && candidates[i] == c && c.Key() == key && Best(candidates, i)
  }

  /** The values of a dictionary whose keys were first set in the order `order`. */
  function Values(order: seq<Place>, entries: map<Place, Candidate>): seq<Candidate>
    requires forall k :: k in order ==> k in entries
  {
    seq(|order|, i requires 0 <= i < |order| => entries[order[i]])
  }

  ghost predicate Deduped(candidates: seq<Candidate>, order: seq<Place>, entries: map<Place, Candidate>) {
    && NoDuplicates(order)
    && (forall k :: k in order <==> k in entries)
    && (forall k :: k in entries ==> BestUnder(candidates, k, entries[k]))
    && (forall c :: c in candidates ==> c.Key() in entries)
  }

  lemma BestStays(candidates: seq<Candidate>, next: Candidate, key: Place, c: Candidate)
    requires BestUnder(candidates, key, c) && (next.Key() == key ==> Worth(next) <= Worth(c))
    ensures BestUnder(candidates + [next], key, c)
  {
    var i :| 0 <= i < |candidates| && candidates[i] == c && c.Key() == key && Best(candidates, i);
    assert (candidates + [next])[i] == c && Best(candidates + [next], i);
  }

  lemma NextIsBest(candidates: seq<Candidate>, next: Candidate)
    requires forall c :: c in candidates && c.Key() == next.Key() ==> Worth(c) < Worth(next)
    ensures BestUnder(candidates + [next], next.Key(), next)
  {
    var all := candidates + [next];
    forall j | 0 <= j < |candidates| && all[j].Key() == next.Key()
      ensures Worth(all[j]) < Worth(next)
    {
      assert all[j] in candidates;
    }
    assert all[|candidates|] == next && Best(all, |candidates|);
  }

  /** No candidate is worth more than the entry of its key. */
  lemma BestIsBest(candidates: seq<Candidate>, key: Place, best: Candidate, c: Candidate)
    requires BestUnder(candidates, key, best) && c in candidates && c.Key() == key
    ensures Worth(c) <= Worth(best)
  {
    var i :| 0 <= i < |candidates| && candidates[i] == best && best.Key() == key && Best(candidates, i);
    var j :| 0 <= j < |candidates| && candidates[j] == c;
  }

  /** A candidate takes the place of the entry under its key only if it is worth more. */
  function Entered(entries: map<Place, Candidate>, c: Candidate): map<Place, Candidate> {
    if c.Key() !in entries || Worth(c) > Worth(entries[c.Key()]) then entries[c.Key() := c] else entries
  }

  function Entries(candidates: seq<Candidate>): map<Place, Candidate> {
    if candidates == [] then map[]
    else Entered(Entries(candidates[..|candidates| - 1]), candidates[|candidates| - 1])
  }

  /** The keys in order of first appearance. */
  function Order(candidates: seq<Candidate>): seq<Place> {
    if candidates == [] then []
    else
      var before, key := Order(candidates[..|candidates| - 1]), candidates[|candidates| - 1].Key();
      if key in before then before else before + [key]
  }

  lemma DedupeOneMore(candidates: seq<Candidate>, next: Candidate, order: seq<Place>, entries: map<Place, Candidate>)
    requires Deduped(candidates, order, entries)
    ensures Deduped(candidates + [next], if next.Key() in order then order else order + [next.Key()], Entered(entries, next))
  {
    var key, more := next.Key(), Entered(entries, next);
    forall k | k in more
      ensures BestUnder(candidates + [next], k, more[k])
    {
      if k == key && (key !in entries || Worth(next) > Worth(entries[key])) {
        forall c | c in candidates && c.Key() == key
          ensures Worth(c) < Worth(next)
        {
          assert key in entries;
          BestIsBest(candidates, key, entries[key], c);
        }
        NextIsBest(candidates, next);
      } else {
        BestStays(candidates, next, k, entries[k]);
      }
    }
  }

  lemma EntriesMore(rest: seq<Candidate>, last: Candidate)
    ensures Entries(rest + [last]) == Entered(Entries(rest), last)
    ensures Order(rest + [last]) == if last.Key() in Order(rest) then Order(rest) else Order(rest) + [last.Key()]
  {
    var all := rest + [last];
    assert all[..|all| - 1] == rest && all[|all| - 1] == last;
  }

  lemma OrderedIfEntered(candidates: seq<Candidate>, key: Place)
    ensures key in Order(candidates) <==> key in Entries(candidates)
  {
    EntriesAreBest(candidates);
  }

  lemma NextEntry(candidates: seq<Candidate>, n: nat)
    requires n < |candidates|
    ensures var before, key := Entries(candidates[..n]), candidates[n].Key();
      && Entries(candidates[..n + 1]) == Entered(before, candidates[n])
      && Order(candidates[..n + 1]) == Order(candidates[..n]) + if key in before then [] else [key]
  {
    OrderedIfEntered(candidates[..n], candidates[n].Key());
    EntriesMore(candidates[..n], candidates[n]);
    assert candidates[..n + 1] == candidates[..n] + [candidates[n]];
  }

  lemma DedupeAll(rest: seq<Candidate>, last: Candidate, all: seq<Candidate>)
    requires all == rest + [last] && Deduped(rest, Order(rest), Entries(rest))
    ensures Deduped(all, Order(all), Entries(all))
  {
    DedupeOneMore(rest, last, Order(rest), Entries(rest));
    EntriesMore(rest, last);
  }

  lemma {:induction false} EntriesAreBest(candidates: seq<Candidate>)
    ensures Deduped(candidates, Order(candidates), Entries(candidates))
  {
    if candidates != [] {
      var rest := candidates[..|candidates| - 1];
      EntriesAreBest(rest);
      DedupeAll(rest, candidates[|candidates| - 1], candidates);
    }
  }

  method Dedupe(candidates: seq<Candidate>) returns (order: seq<Place>, entries: map<Place, Candidate>)
    ensures order == Order(candidates) && entries == Entries(candidates) && Deduped(candidates, order, entries)
  {
    order, entries := [], map[];
    var n := 0;
    while n < |candidates|
      invariant 0 <= n <= |candidates|
      invariant order == Order(candidates[..n]) && entries == Entries(candidates[..n])
    {
      var candidate := candidates[n];
      var key := candidate.Key();
      NextEntry(candidates, n);
      if key !in entries {
        order := order + [key];
        entries := entries[key := candidate];
      } else if Worth(candidate) > Worth(entries[key]) {
        entries := entries[key := candidate];
      }
      n := n + 1;
    }
    assert candidates[..n] == candidates;
    EntriesAreBest(candidates);
  }

  // ------------------------------------------------------------ ranking

  /** Sets the flag on candidates whose file an anchor names; `stem` is the file's lower-case stem. */
  function Boosted(c: Candidate, anchors: set<string>, stem: string -> string): Candidate {
    c.(named := c.named || stem(c.file) in anchors)
  }

  function BoostAll(s: seq<Candidate>, anchors: set<string>, stem: string -> string): seq<Candidate> {
    seq(|s|, i requires 0 <= i < |s| => Boosted(s[i], anchors, stem))
  }

  /** `ordered` holds the best entry of every key, flagged, by falling rank. */
  ghost predicate Ordered(candidates: seq<Candidate>, anchors: set<string>, stem: string -> string, ordered: seq<Candidate>) {
    && DistinctKeys(ordered)
    && Sorted(ordered, ByRank)
    && (forall c :: c in ordered ==>
          exists best :: c == Boosted(best, anchors, stem) && BestUnder(candidates, c.Key(), best))
    && (forall c :: c in candidates ==> c.Key() in KeysOf(ordered))
  }

  /** The best entry of every key, flagged, by falling rank. */
  function RankedEntries(candidates: seq<Candidate>, anchors: set<string>, stem: string -> string): seq<Candidate> {
    EntriesAreBest(candidates);
    Sort(BoostAll(Values(Order(candidates), Entries(candidates)), anchors, stem), ByRank)
  }

  /** They are what their name says. */
  lemma RankedEntriesAreBest(candidates: seq<Candidate>, anchors: set<string>, stem: string -> string)
    ensures Ordered(candidates, anchors, stem, RankedEntries(candidates, anchors, stem))
  {
    EntriesAreBest(candidates);
    OrderedValues(candidates, anchors, stem, Order(candidates), Entries(candidates));
  }

  lemma OrderedValues(candidates: seq<Candidate>, anchors: set<string>, stem: string -> string,
                      order: seq<Place>, entries: map<Place, Candidate>)
    requires Deduped(candidates, order, entries)
    ensures Ordered(candidates, anchors, stem, Sort(BoostAll(Values(order, entries), anchors, stem), ByRank))
  {
    var values := Values(order, entries);
    var boosted := BoostAll(values, anchors, stem);
    var ordered := Sort(boosted, ByRank);
    forall i | 0 <= i < |order|
      ensures boosted[i].Key() == order[i] && boosted[i] == Boosted(entries[order[i]], anchors, stem)
    {
      assert order[i] in order && BestUnder(candidates, order[i], entries[order[i]]);
    }
    assert DistinctKeys(boosted);
    SortDistinct(boosted, ByRank);
    SortSorts(boosted, ByRank);
    SortKeeps(boosted, ByRank);
    SameMembers(ordered, boosted);
    forall c | c in ordered
      ensures exists best :: c == Boosted(best, anchors, stem) && BestUnder(candidates, c.Key(), best)
    {
      var i :| 0 <= i < |boosted| && boosted[i] == c;
      assert order[i] in order && BestUnder(candidates, order[i], entries[order[i]]);
    }
    forall c | c in candidates
      ensures c.Key() in KeysOf(boosted)
    {
      var i :| 0 <= i < |order| && order[i] == c.Key();
      assert boosted[i] in boosted && boosted[i].Key() == c.Key();
    }
  }

  /** A ranked entry of a file that an anchor names carries the flag, and stands before every entry that
      carries none and scores no more than 0.3 higher. */
  lemma AnchoredFileComesFirst(candidates: seq<Candidate>, anchors: set<string>, stem: string -> string, i: nat, j: nat)
    requires var ranked := RankedEntries(candidates, anchors, stem);
      && i < |ranked| && j < |ranked|
      && stem(ranked[i].file) in anchors && !ranked[j].named
      && 0.0 <= ranked[i].proximity && ranked[j].proximity <= 1.0 && ranked[j].score < ranked[i].score + 0.3
    ensures RankedEntries(candidates, anchors, stem)[i].named && i < j
    ensures stem(RankedEntries(candidates, anchors, stem)[j].file) !in anchors
  {
    var ranked := RankedEntries(candidates, anchors, stem);
    RankedEntriesAreBest(candidates, anchors, stem);
    NamedInRanked(candidates, anchors, stem, ranked[i]);
    NamedInRanked(candidates, anchors, stem, ranked[j]);
    RanksAbove(ranked[i], ranked[j]);
    HigherStandsFirst(ranked, i, j);
  }

  lemma HigherStandsFirst(ranked: seq<Candidate>, i: nat, j: nat)
    requires Sorted(ranked, ByRank) && i < |ranked| && j < |ranked| && Rank(ranked[i]) > Rank(ranked[j])
    ensures i < j
  {
  }

  lemma RanksAbove(a: Candidate, b: Candidate)
    requires a.named && !b.named && 0.0 <= a.proximity && b.proximity <= 1.0 && b.score < a.score + 0.3
    ensures Rank(a) > Rank(b)
  {
  }

  lemma NamedInRanked(candidates: seq<Candidate>, anchors: set<string>, stem: string -> string, c: Candidate)
    requires Ordered(candidates, anchors, stem, RankedEntries(candidates, anchors, stem)) && c in RankedEntries(candidates, anchors, stem)
    ensures stem(c.file) in anchors ==> c.named
  {
    var best :| c == Boosted(best, anchors, stem) && BestUnder(candidates, c.Key(), best);
  }

  // ------------------------------------------------------------ quotas

  datatype Take = OfChannel(channel: Channel, count: int) | OfRole(role: Role, count: int)

  function Matches(take: Take): Candidate -> bool {
    (c: Candidate) => match take case OfChannel(channel, _) => c.channel == channel case OfRole(role, _) => c.role == role
  }

  function Taken(ordered: seq<Candidate>, take: Take): seq<Candidate> {
    if take.count <= 0 then [] else Head(Pick(ordered, Matches(take)), take.count)
  }

  /** The hybrid share comes first. */
  function Takes(shape: Shape, anchored: bool, topK: int): seq<Take> {
    [ OfChannel(Hybrid, if topK / 2 > 3 then topK / 2 else 3),
      OfChannel(Grep, if anchored then 2 else 1),
      OfChannel(RepoMap, if shape == Global || shape == Local then 2 else 1),
      OfChannel(Graph, if shape == Relational then 3 else 1),
      OfChannel(Summary, if shape == Global then 2 else 1),
      OfRole(Overview, if shape == Global then 2 else 1),
      OfChannel(Skill, if shape == Procedural || shape == Global then 1 else 0) ]
  }

  function Total(takes: seq<Take>): nat {
    if takes == [] then 0
    else
      var count := takes[|takes| - 1].count;
      Total(takes[..|takes| - 1]) + if count > 0 then count else 0
  }

  /** The candidates of `more` whose key is new, after those of `selected`. */
  function Added(selected: seq<Candidate>, more: seq<Candidate>): seq<Candidate>
    decreases more
  {
    if more == [] then selected
    else
      var next := more[0];
      Added(if next.Key() in KeysOf(selected) then selected else selected + [next], more[1..])
  }

  method Add(selected: seq<Candidate>, seen: set<Place>, more: seq<Candidate>)
    returns (selected': seq<Candidate>, seen': set<Place>)
    requires seen == KeysOf(selected)
    ensures selected' == Added(selected, more) && seen' == KeysOf(selected')
  {
    selected', seen' := selected, seen;
    var n := 0;
    while n < |more|
      invariant 0 <= n <= |more| && seen' == KeysOf(selected')
      invariant Added(selected', more[n..]) == Added(selected, more)
    {
      var c := more[n];
      assert more[n..][0] == c && more[n..][1..] == more[n + 1..];
      if c.Key() !in seen' {
        KeysAppend(selected', [c]);
        seen' := seen' + {c.Key()};
        selected' := selected' + [c];
      }
      n := n + 1;
    }
  }

  /** Candidates of `ordered` with distinct keys. */
  ghost predicate Chosen(ordered: seq<Candidate>, selected: seq<Candidate>) {
    DistinctKeys(selected) && forall c :: c in selected ==> c in ordered
  }

  lemma {:induction false} AddedIsChosen(ordered: seq<Candidate>, selected: seq<Candidate>, more: seq<Candidate>)
    requires Chosen(ordered, selected) && forall c :: c in more ==> c in ordered
    ensures Chosen(ordered, Added(selected, more)) && selected <= Added(selected, more)
    ensures |Added(selected, more)| <= |selected| + |more|
    ensures forall c :: c in more ==> c.Key() in KeysOf(Added(selected, more))
    decreases more
  {
    if more != [] {
      var next, rest := more[0], more[1..];
      if next.Key() in KeysOf(selected) {
        AddedIsChosen(ordered, selected, rest);
        KeysGrow(selected, Added(selected, rest));
      } else {
        DistinctAppend(selected, next);
        AddedIsChosen(ordered, selected + [next], rest);
        KeysGrow(selected + [next], Added(selected + [next], rest));
      }
      assert forall c :: c in more ==> c == next || c in rest;
    }
  }

  lemma {:induction false} AddedFrom(selected: seq<Candidate>, more: seq<Candidate>)
    ensures forall c :: c in Added(selected, more) ==> c in selected || c in more
    decreases more
  {
    if more != [] {
      AddedFrom(if more[0].Key() in KeysOf(selected) then selected else selected + [more[0]], more[1..]);
    }
  }

  lemma KeysGrow(a: seq<Candidate>, b: seq<Candidate>)
    requires a <= b
    ensures KeysOf(a) <= KeysOf(b)
  {
    assert b == a + b[|a|..];
    KeysAppend(a, b[|a|..]);
  }

  lemma {:induction false} AddedToNone(selected: seq<Candidate>, more: seq<Candidate>)
    requires DistinctKeys(selected + more)
    ensures Added(selected, more) == selected + more
    decreases more
  {
    if more != [] {
      var all := selected + more;
      forall c | c in selected
        ensures c.Key() != more[0].Key()
      {
        var i :| 0 <= i < |selected| && selected[i] == c;
        assert all[i] == c && all[|selected|] == more[0];
      }
      assert (selected + [more[0]]) + more[1..] == all;
      AddedToNone(selected + [more[0]], more[1..]);
    }
  }

  /** One key is one candidate of `ordered`. */
  lemma SameKeySame(ordered: seq<Candidate>, selected: seq<Candidate>, c: Candidate)
    requires DistinctKeys(ordered) && (forall x :: x in selected ==> x in ordered)
    requires c in ordered && c.Key() in KeysOf(selected)
    ensures c in selected
  {
    var x :| x in selected && x.Key() == c.Key();
    var i :| 0 <= i < |ordered| && ordered[i] == x;
    var j :| 0 <= j < |ordered| && ordered[j] == c;
  }

  lemma {:induction false} PickDistinct(s: seq<Candidate>, keep: Candidate -> bool)
    requires DistinctKeys(s)
    ensures DistinctKeys(Pick(s, keep)) && KeysOf(Pick(s, keep)) <= KeysOf(s)
  {
    if s != [] {
      var rest, last := s[..|s| - 1], s[|s| - 1];
      PickDistinct(rest, keep);
      KeysGrow(rest, s);
      forall c | c in rest
        ensures c.Key() != last.Key()
      {
      }
      if keep(last) {
        DistinctAppend(Pick(rest, keep), last);
        assert last in s;
      }
    }
  }

  lemma TakenFromOrdered(ordered: seq<Candidate>, take: Take)
    requires DistinctKeys(ordered)
    ensures (forall c :: c in Taken(ordered, take) ==> c in ordered) && DistinctKeys(Taken(ordered, take))
    ensures |Taken(ordered, take)| <= if take.count > 0 then take.count else 0
  {
    PickDistinct(ordered, Matches(take));
    forall c | c in Taken(ordered, take)
      ensures c in ordered
    {
      PickMembers(ordered, Matches(take), c);
    }
  }

  /** After the first `n` quotas. */
  ghost predicate QuotasOk(ordered: seq<Candidate>, takes: seq<Take>, n: nat, selected: seq<Candidate>)
    requires n <= |takes|
  {
    && Chosen(ordered, selected)
    && |selected| <= Total(takes[..n])
    && (forall c :: c in selected ==> exists i :: 0 <= i < n && c in Taken(ordered, takes[i]))
    && (forall i :: 0 <= i < n ==> forall c :: c in Taken(ordered, takes[i]) ==> c in selected)
    && (n > 0 ==> Taken(ordered, takes[0]) <= selected)
  }

  lemma QuotaAdded(ordered: seq<Candidate>, takes: seq<Take>, n: nat, selected: seq<Candidate>)
    requires n < |takes| && DistinctKeys(ordered) && QuotasOk(ordered, takes, n, selected)
    ensures QuotasOk(ordered, takes, n + 1, Added(selected, Taken(ordered, takes[n])))
  {
    var more := Taken(ordered, takes[n]);
    var added := Added(selected, more);
    TakenFromOrdered(ordered, takes[n]);
    AddedIsChosen(ordered, selected, more);
    AddedFrom(selected, more);
    assert takes[..n + 1][..n] == takes[..n];
    forall c | c in more
      ensures c in added
    {
      SameKeySame(ordered, added, c);
    }
    if n == 0 {
      assert selected == [] && [] + more == more;
      AddedToNone([], more);
    }
  }

  // ------------------------------------------------------------ filling up

  function SameFile(file: string): Candidate -> bool {
    (c: Candidate) => c.file == file
  }

  function OfFile(s: seq<Candidate>, file: string): nat {
    |Pick(s, SameFile(file))|
  }

  ghost predicate Counted(perFile: map<string, nat>, selected: seq<Candidate>) {
    forall file :: OfFile(selected, file) == if file in perFile then perFile[file] else 0
  }

  function Bump(perFile: map<string, nat>, file: string): map<string, nat> {
    perFile[file := (if file in perFile then perFile[file] else 0) + 1]
  }

  lemma CountOneMore(perFile: map<string, nat>, selected: seq<Candidate>, c: Candidate)
    requires Counted(perFile, selected)
    ensures Counted(Bump(perFile, c.file), selected + [c])
  {
    forall file
      ensures OfFile(selected + [c], file) == OfFile(selected, file) + if file == c.file then 1 else 0
    {
      PickOneMore(selected, c, SameFile(file));
    }
  }

  lemma CountGrows(selected: seq<Candidate>, c: Candidate, file: string)
    ensures OfFile(selected, file) <= OfFile(selected + [c], file)
  {
    PickOneMore(selected, c, SameFile(file));
  }

  function Files(s: seq<Candidate>): set<string> {
    set c | c in s :: c.file
  }

  /** Not to be added yet: its file has two, and fewer than four files are chosen. */
  predicate Capped(had: seq<Candidate>, c: Candidate) {
    OfFile(had, c.file) >= 2 && |Files(had)| < 4
  }

  function NewIn(picks: seq<Candidate>, selected: seq<Candidate>): Candidate -> bool {
    (c: Candidate) => c in selected && c !in picks
  }

  /** What was chosen before the `n`-th ranked entry was looked at. */
  function Had(ordered: seq<Candidate>, picks: seq<Candidate>, selected: seq<Candidate>, n: nat): seq<Candidate>
    requires n <= |ordered|
  {
    picks + Pick(ordered[..n], NewIn(picks, selected))
  }

  /** It was added unless it was picked already or capped at that point. */
  predicate FilledAt(ordered: seq<Candidate>, picks: seq<Candidate>, selected: seq<Candidate>, i: nat)
    requires i < |ordered|
  {
    ordered[i] in selected <==> ordered[i] in picks || !Capped(Had(ordered, picks, selected, i), ordered[i])
  }

  /** The first `n` entries were looked at, in order of rank. */
  ghost predicate Filling(ordered: seq<Candidate>, picks: seq<Candidate>, selected: seq<Candidate>, n: nat) {
    && n <= |ordered| && selected == Had(ordered, picks, selected, n)
    && (forall i :: 0 <= i < n ==> FilledAt(ordered, picks, selected, i))
  }

  /** Unless all were looked at there are as many as asked for. */
  ghost predicate Filled(ordered: seq<Candidate>, picks: seq<Candidate>, topK: int, selected: seq<Candidate>, m: nat) {
    Filling(ordered, picks, selected, m) && (m < |ordered| ==> |selected| >= topK)
  }

  lemma HadNext(ordered: seq<Candidate>, picks: seq<Candidate>, selected: seq<Candidate>, n: nat)
    requires n < |ordered|
    ensures Had(ordered, picks, selected, n + 1)
      == Had(ordered, picks, selected, n) + if ordered[n] in selected && ordered[n] !in picks then [ordered[n]] else []
  {
    PickOneMore(ordered[..n], ordered[n], NewIn(picks, selected));
    assert ordered[..n + 1] == ordered[..n] + [ordered[n]];
  }

  lemma {:induction false} HadSame(ordered: seq<Candidate>, picks: seq<Candidate>, a: seq<Candidate>, b: seq<Candidate>, n: nat)
    requires n <= |ordered| && forall i :: 0 <= i < n ==> (ordered[i] in a <==> ordered[i] in b)
    ensures Had(ordered, picks, a, n) == Had(ordered, picks, b, n)
  {
    if n > 0 {
      HadSame(ordered, picks, a, b, n - 1);
      HadNext(ordered, picks, a, n - 1);
      HadNext(ordered, picks, b, n - 1);
    } else {
      assert ordered[..0] == [];
    }
  }

  lemma FillStart(ordered: seq<Candidate>, picks: seq<Candidate>)
    ensures Filling(ordered, picks, picks, 0)
  {
    assert ordered[..0] == [] && picks + [] == picks;
  }

  lemma FillNext(ordered: seq<Candidate>, picks: seq<Candidate>, selected: seq<Candidate>, n: nat, more: seq<Candidate>)
    requires n < |ordered| && DistinctKeys(ordered) && Chosen(ordered, picks) && Chosen(ordered, selected) && picks <= selected
    requires Filling(ordered, picks, selected, n)
    requires var c := ordered[n];
      more == if c.Key() in KeysOf(selected) || Capped(selected, c) then selected else selected + [c]
    ensures Filling(ordered, picks, more, n + 1)
  {
    SeenIsPicked(ordered, picks, selected, n);
    forall i | 0 <= i < n
      ensures ordered[i] in more <==> ordered[i] in selected
    {
      assert ordered[i].Key() != ordered[n].Key();
    }
    forall i | 0 <= i < n
      ensures FilledAt(ordered, picks, more, i)
    {
      assert FilledAt(ordered, picks, selected, i);
      HadSame(ordered, picks, more, selected, i);
    }
    LastFilled(ordered, picks, selected, n, more);
  }

  lemma LastFilled(ordered: seq<Candidate>, picks: seq<Candidate>, selected: seq<Candidate>, n: nat, more: seq<Candidate>)
    requires n < |ordered| && selected == Had(ordered, picks, selected, n)
    requires forall i :: 0 <= i < n ==> (ordered[i] in more <==> ordered[i] in selected)
    requires ordered[n] in selected <==> ordered[n] in picks
    requires more == if ordered[n] in selected || Capped(selected, ordered[n]) then selected else selected + [ordered[n]]
    ensures more == Had(ordered, picks, more, n + 1) && FilledAt(ordered, picks, more, n)
  {
    HadSame(ordered, picks, more, selected, n);
    HadNext(ordered, picks, more, n);
  }

  /** An entry that is chosen before it is looked at is one of the quota picks. */
  lemma SeenIsPicked(ordered: seq<Candidate>, picks: seq<Candidate>, selected: seq<Candidate>, n: nat)
    requires n < |ordered| && DistinctKeys(ordered) && Chosen(ordered, selected) && picks <= selected
    requires selected == Had(ordered, picks, selected, n)
    ensures ordered[n].Key() in KeysOf(selected) <==> ordered[n] in selected
    ensures ordered[n] in selected <==> ordered[n] in picks
  {
    var c := ordered[n];
    if c.Key() in KeysOf(selected) {
      SameKeySame(ordered, selected, c);
    }
    forall x | x in ordered[..n]
      ensures x != c
    {
    }
    PickMembers(ordered[..n], NewIn(picks, selected), c);
  }

  method CountFiles(selected: seq<Candidate>) returns (perFile: map<string, nat>)
    ensures Counted(perFile, selected)
  {
    perFile := map[];
    var n := 0;
    while n < |selected|
      invariant 0 <= n <= |selected| && Counted(perFile, selected[..n])
    {
      CountOneMore(perFile, selected[..n], selected[n]);
      assert selected[..n + 1] == selected[..n] + [selected[n]];
      perFile := Bump(perFile, selected[n].file);
      n := n + 1;
    }
    assert selected[..n] == selected;
  }

  /** Entry `n` is added to what was chosen, or not. */
  function Filler(had: seq<Candidate>, c: Candidate): seq<Candidate> {
    if c.Key() in KeysOf(had) || Capped(had, c) then had else had + [c]
  }

  function Fill(ordered: seq<Candidate>, picks: seq<Candidate>, n: nat): seq<Candidate>
    requires n <= |ordered|
  {
    if n == 0 then picks else Filler(Fill(ordered, picks, n - 1), ordered[n - 1])
  }

  lemma FillStep(ordered: seq<Candidate>, picks: seq<Candidate>, n: nat, selected: seq<Candidate>, seen: set<Place>, perFile: map<string, nat>)
    requires n < |ordered| && selected == Fill(ordered, picks, n) && seen == KeysOf(selected) && Counted(perFile, selected)
    ensures var c := ordered[n];
      var already, files := if c.file in perFile then perFile[c.file] else 0, |set x | x in selected :: x.file|;
      Fill(ordered, picks, n + 1) == if c.Key() in seen || (already >= 2 && files < 4) then selected else selected + [c]
  {
    assert Files(selected) == set x | x in selected :: x.file;
  }

  lemma OneMoreAdded(selected: seq<Candidate>, c: Candidate, perFile: map<string, nat>)
    requires Counted(perFile, selected)
    ensures Counted(Bump(perFile, c.file), selected + [c]) && KeysOf(selected + [c]) == KeysOf(selected) + {c.Key()}
  {
    KeysAppend(selected, [c]);
    CountOneMore(perFile, selected, c);
  }

  lemma FillerIsChosen(ordered: seq<Candidate>, had: seq<Candidate>, c: Candidate)
    requires Chosen(ordered, had) && c in ordered
    ensures Chosen(ordered, Filler(had, c)) && had <= Filler(had, c)
  {
    if c.Key() !in KeysOf(had) {
      DistinctAppend(had, c);
    }
  }

  /** The fill so far: chosen, on top of the quota picks, and as it should be. */
  ghost predicate FillOk(ordered: seq<Candidate>, picks: seq<Candidate>, selected: seq<Candidate>, n: nat) {
    Chosen(ordered, selected) && picks <= selected && Filling(ordered, picks, selected, n)
  }

  lemma FillerOk(ordered: seq<Candidate>, picks: seq<Candidate>, had: seq<Candidate>, n: nat)
    requires DistinctKeys(ordered) && Chosen(ordered, picks) && n < |ordered| && FillOk(ordered, picks, had, n)
    ensures FillOk(ordered, picks, Filler(had, ordered[n]), n + 1)
  {
    assert ordered[n] in ordered;
    FillerIsChosen(ordered, had, ordered[n]);
    FillNext(ordered, picks, had, n, Filler(had, ordered[n]));
  }

  lemma {:induction false} FillFills(ordered: seq<Candidate>, picks: seq<Candidate>, n: nat) returns (selected: seq<Candidate>)
    requires DistinctKeys(ordered) && Chosen(ordered, picks) && n <= |ordered|
    ensures selected == Fill(ordered, picks, n) && FillOk(ordered, picks, selected, n)
  {
    if n == 0 {
      FillStart(ordered, picks);
      selected := picks;
    } else {
      var before := FillFills(ordered, picks, n - 1);
      FillerOk(ordered, picks, before, n - 1);
      selected := Filler(before, ordered[n - 1]);
    }
  }

  lemma FillIsFilled(ordered: seq<Candidate>, picks: seq<Candidate>, topK: int, selected: seq<Candidate>, n: nat)
    requires DistinctKeys(ordered) && Chosen(ordered, picks) && n <= |ordered|
    requires selected == Fill(ordered, picks, n) && (n < |ordered| ==> |selected| >= topK)
    ensures Chosen(ordered, selected) && picks <= selected && FilledUp(ordered, picks, topK, selected)
  {
    var filled := FillFills(ordered, picks, n);
    assert Filled(ordered, picks, topK, filled, n);
  }

  ghost predicate FilledUp(ordered: seq<Candidate>, picks: seq<Candidate>, topK: int, selected: seq<Candidate>) {
    exists m :: Filled(ordered, picks, topK, selected, m)
  }

  method FillUp(ordered: seq<Candidate>, picks: seq<Candidate>, seen: set<Place>, topK: int) returns (selected: seq<Candidate>)
    requires DistinctKeys(ordered) && Chosen(ordered, picks) && seen == KeysOf(picks)
    ensures Chosen(ordered, selected) && picks <= selected
    ensures FilledUp(ordered, picks, topK, selected)
  {
    selected := picks;
    var seen := seen;
    var perFile := CountFiles(picks);
    var n := 0;
    while n < |ordered|
      invariant 0 <= n <= |ordered| && selected == Fill(ordered, picks, n)
      invariant seen == KeysOf(selected) && Counted(perFile, selected)
    {
      var c := ordered[n];
      FillStep(ordered, picks, n, selected, seen, perFile);
      n := n + 1;
      var files := |set x | x in selected :: x.file|;
      var already := if c.file in perFile then perFile[c.file] else 0;
      if c.Key() in seen || (already >= 2 && files < 4) {
        continue;
      }
      OneMoreAdded(selected, c, perFile);
      selected := selected + [c];
      seen := seen + {c.Key()};
      perFile := Bump(perFile, c.file);
      if |selected| >= topK {
        break;
      }
    }
    FillIsFilled(ordered, picks, topK, selected, n);
  }

  lemma {:induction false} HadGrows(ordered: seq<Candidate>, picks: seq<Candidate>, selected: seq<Candidate>, n: nat, m: nat)
    requires n <= m <= |ordered|
    ensures Had(ordered, picks, selected, n) <= Had(ordered, picks, selected, m)
    decreases m - n
  {
    if n < m {
      HadNext(ordered, picks, selected, n);
      HadGrows(ordered, picks, selected, n + 1, m);
    }
  }

  lemma FilesGrow(a: seq<Candidate>, b: seq<Candidate>)
    requires a <= b
    ensures Files(a) <= Files(b) && |Files(a)| <= |Files(b)|
  {
    assert forall c :: c in a ==> c in b;
    assert Files(b) == Files(a) + (Files(b) - Files(a));
  }

  /** An entry left out of a list that came out short had two of its file, and fewer than four files,
      before it; so there is none when the quota picks come from four files. */
  lemma ShortLeavesOutCapped(ordered: seq<Candidate>, picks: seq<Candidate>, topK: int, selected: seq<Candidate>, m: nat, i: nat)
    requires Filled(ordered, picks, topK, selected, m) && |selected| < topK && i < |ordered| && ordered[i] !in selected
    ensures var had := Had(ordered, picks, selected, i);
      picks <= had <= selected && OfFile(had, ordered[i].file) >= 2 && |Files(had)| < 4
    ensures |Files(picks)| < 4
  {
    assert FilledAt(ordered, picks, selected, i);
    HadGrows(ordered, picks, selected, i, m);
    FilesGrow(picks, Had(ordered, picks, selected, i));
  }

  /** In the other direction, no entry is added as the third of its file or later while fewer than four
      files are chosen. */
  lemma ThirdOfFileWaits(ordered: seq<Candidate>, picks: seq<Candidate>, topK: int, selected: seq<Candidate>, m: nat, k: nat)
    requires Filled(ordered, picks, topK, selected, m) && |picks| <= k < |selected| && Chosen(ordered, selected)
    ensures OfFile(selected[..k], selected[k].file) < 2 || |Files(selected[..k])| >= 4
  {
    var i := AddedAt(ordered, picks, selected, m, k);
    assert FilledAt(ordered, picks, selected, i);
    forall j | 0 <= j < |picks|
      ensures picks[j] != selected[k]
    {
      assert selected[j].Key() != selected[k].Key();
    }
  }

  /** The entry that was added as the `k`-th. */
  lemma {:induction false} AddedAt(ordered: seq<Candidate>, picks: seq<Candidate>, selected: seq<Candidate>, m: nat, k: nat) returns (i: nat)
    requires m <= |ordered| && |picks| <= k < |Had(ordered, picks, selected, m)| && Had(ordered, picks, selected, m) <= selected
    ensures i < m && ordered[i] == selected[k] && Had(ordered, picks, selected, i) == selected[..k]
  {
    assert ordered[..0] == [];
    if m > 0 {
      HadNext(ordered, picks, selected, m - 1);
      HadGrows(ordered, picks, selected, m - 1, m);
      if k < |Had(ordered, picks, selected, m - 1)| {
        i := AddedAt(ordered, picks, selected, m - 1, k);
      } else {
        i := m - 1;
      }
    }
  }

  // ------------------------------------------------------------ the whole merge

  /** Quota picks, then the fill, then the cut to `topK`, by rank. */
  ghost predicate Assembled(ordered: seq<Candidate>, takes: seq<Take>, topK: int, picks: seq<Candidate>, selected: seq<Candidate>, m: nat,
                            result: seq<Candidate>) {
    && QuotasOk(ordered, takes, |takes|, picks) && Chosen(ordered, selected) && picks <= selected
    && Filled(ordered, picks, topK, selected, m)
    && Sorted(result, ByRank) && multiset(result) == multiset(Head(selected, topK))
  }

  ghost predicate Merged(ordered: seq<Candidate>, takes: seq<Take>, topK: int, result: seq<Candidate>) {
    exists picks, selected, m :: Assembled(ordered, takes, topK, picks, selected, m, result)
  }

  /** What the merged list is, against the ranked entries `ordered`. */
  lemma MergedList(ordered: seq<Candidate>, takes: seq<Take>, topK: int, result: seq<Candidate>)
    requires takes != [] && Merged(ordered, takes, topK, result)
    ensures Chosen(ordered, result) && forall i, j :: 0 <= i < j < |result| ==> Rank(result[i]) >= Rank(result[j])
    ensures topK >= 0 ==>
      && |result| <= topK
      && (forall c :: c in Head(Taken(ordered, takes[0]), topK) ==> c in result)
      && (Total(takes) <= topK ==>
            forall i :: 0 <= i < |takes| ==> forall c :: c in Taken(ordered, takes[i]) ==> c in result)
  {
    var picks, selected, m :| Assembled(ordered, takes, topK, picks, selected, m, result);
    var cut := Head(selected, topK);
    assert cut <= selected && Chosen(ordered, cut);
    SameKeysDistinct(result, cut);
    SameMembers(result, cut);
    assert forall i, j :: 0 <= i < j < |result| ==> ByRank(result[i], result[j]);
    if topK >= 0 {
      HeadOfPrefix(Taken(ordered, takes[0]), selected, topK);
      QuotasKept(ordered, takes, topK, picks, selected);
    }
  }

  lemma HeadOfPrefix(first: seq<Candidate>, selected: seq<Candidate>, topK: nat)
    requires first <= selected
    ensures forall c :: c in Head(first, topK) ==> c in Head(selected, topK)
  {
    assert Head(first, topK) <= Head(selected, topK);
  }

  lemma QuotasKept(ordered: seq<Candidate>, takes: seq<Take>, topK: nat, picks: seq<Candidate>, selected: seq<Candidate>)
    requires QuotasOk(ordered, takes, |takes|, picks) && picks <= selected
    ensures Total(takes) <= topK ==>
      forall i :: 0 <= i < |takes| ==> forall c :: c in Taken(ordered, takes[i]) ==> c in Head(selected, topK)
  {
    assert takes[..|takes|] == takes;
    if Total(takes) <= topK {
      assert picks <= Head(selected, topK);
    }
  }

  lemma SameKeysDistinct(a: seq<Candidate>, b: seq<Candidate>)
    requires multiset(a) == multiset(b) && DistinctKeys(b)
    ensures DistinctKeys(a)
  {
    SameMembers(a, b);
    forall i, j | 0 <= i < j < |a|
      ensures a[i].Key() != a[j].Key()
    {
      if a[i].Key() == a[j].Key() {
        SameKeyInDistinct(b, a[i], a[j]);
        TwiceIn(a, i, j);
        OnceIn(b, a[i]);
        assert false;
      }
    }
  }

  lemma SameKeyInDistinct(s: seq<Candidate>, a: Candidate, b: Candidate)
    requires DistinctKeys(s) && a in s && b in s && a.Key() == b.Key()
    ensures a == b
  {
    var i :| 0 <= i < |s| && s[i] == a;
    var j :| 0 <= j < |s| && s[j] == b;
  }

  lemma TwiceIn(s: seq<Candidate>, i: nat, j: nat)
    requires i < j < |s| && s[i] == s[j]
    ensures multiset(s)[s[i]] >= 2
  {
    assert s == s[..i] + [s[i]] + s[i + 1..j] + [s[j]] + s[j + 1..];
  }

  lemma {:induction false} OnceIn(s: seq<Candidate>, c: Candidate)
    requires DistinctKeys(s)
    ensures multiset(s)[c] <= 1
  {
    if s != [] {
      var rest, last := s[..|s| - 1], s[|s| - 1];
      OnceIn(rest, c);
      assert s == rest + [last];
      assert last !in rest;
    }
  }

  /** A result shorter than asked for: an entry is left out only if two of its file, and fewer than four
      files, stand above it among what was chosen; and none is if the quota picks span four files. */
  lemma ShortResultIff(ordered: seq<Candidate>, takes: seq<Take>, topK: nat, picks: seq<Candidate>, selected: seq<Candidate>, m: nat,
                       result: seq<Candidate>, i: nat)
    requires Assembled(ordered, takes, topK, picks, selected, m, result) && |result| < topK && i < |ordered|
    ensures multiset(result) == multiset(selected)
    ensures ordered[i] in result <==> ordered[i] in picks || !Capped(Had(ordered, picks, selected, i), ordered[i])
    ensures |Files(picks)| >= 4 ==> ordered[i] in result
  {
    SameMembers(result, Head(selected, topK));
    assert Head(selected, topK) == selected && FilledAt(ordered, picks, selected, i);
    if ordered[i] !in selected {
      ShortLeavesOutCapped(ordered, picks, topK, selected, m, i);
    }
  }

  lemma SameCount(a: seq<Candidate>, b: seq<Candidate>, file: string)
    requires multiset(a) == multiset(b)
    ensures OfFile(a, file) == OfFile(b, file)
  {
    SamePick(a, b, SameFile(file));
    assert multiset(Pick(a, SameFile(file))) == multiset(Pick(b, SameFile(file)));
    SameMembers(Pick(a, SameFile(file)), Pick(b, SameFile(file)));
  }

  method MergeCandidates(candidates: seq<Candidate>, shape: Shape, anchors: set<string>, stem: string -> string, topK: int)
    returns (result: seq<Candidate>)
    ensures Merged(RankedEntries(candidates, anchors, stem), Takes(shape, anchors != {}, topK), topK, result)
  {
    var order, entries := Dedupe(candidates);
    var ranked := Sort(BoostAll(Values(order, entries), anchors, stem), ByRank);
    RankedEntriesAreBest(candidates, anchors, stem);
    var takes := Takes(shape, anchors != {}, topK);
    var selected: seq<Candidate>, seen: set<Place> := [], {};
    var n := 0;
    while n < |takes|
      invariant 0 <= n <= |takes| && seen == KeysOf(selected) && QuotasOk(ranked, takes, n, selected)
    {
      QuotaAdded(ranked, takes, n, selected);
      selected, seen := Add(selected, seen, Taken(ranked, takes[n]));
      n := n + 1;
    }
    ghost var picks := selected;
    selected := FillUp(ranked, selected, seen, topK);
    result := Sort(Head(selected, topK), ByRank);
    SortSorts(Head(selected, topK), ByRank);
    SortKeeps(Head(selected, topK), ByRank);
    ghost var m :| Filled(ranked, picks, topK, selected, m);
    assert Assembled(ranked, takes, topK, picks, selected, m, result);
  }

  /** The first hybrids come through however small the list is: as many of the best-ranked ones as
      fit both the list and their quota. */
  lemma TopHybridsAreIn(ordered: seq<Candidate>, shape: Shape, anchored: bool, topK: nat, result: seq<Candidate>, i: nat)
    requires Merged(ordered, Takes(shape, anchored, topK), topK, result)
    requires i < |Pick(ordered, Matches(OfChannel(Hybrid, 0)))| && i < topK && (i < 3 || i < topK / 2)
    ensures Pick(ordered, Matches(OfChannel(Hybrid, 0)))[i] in result
  {
    var takes := Takes(shape, anchored, topK);
    MergedList(ordered, takes, topK, result);
    SameMatches(ordered, takes[0], OfChannel(Hybrid, 0));
    var first := Taken(ordered, takes[0]);
    assert Head(first, topK)[i] in Head(first, topK);
  }

  lemma {:induction false} SameMatches(s: seq<Candidate>, a: Take, b: Take)
    requires a.OfChannel? && b.OfChannel? && a.channel == b.channel
    ensures Pick(s, Matches(a)) == Pick(s, Matches(b))
  {
    if s != [] {
      SameMatches(s[..|s| - 1], a, b);
    }
  }

  function FromChannel(ordered: seq<Candidate>, channel: Channel): seq<Candidate> {
    Pick(ordered, (c: Candidate) => c.channel == channel)
  }

  lemma {:induction false} PickSame(s: seq<Candidate>, p: Candidate -> bool, q: Candidate -> bool)
    requires forall c :: p(c) == q(c)
    ensures Pick(s, p) == Pick(s, q)
  {
    if s != [] {
      PickSame(s[..|s| - 1], p, q);
    }
  }

  lemma TotalIs(shape: Shape, anchored: bool, topK: nat)
    requires topK >= 20
    ensures Total(Takes(shape, anchored, topK)) <= topK
  {
    var t := Takes(shape, anchored, topK);
    assert t[..6][..5] == t[..5] && t[..5][..4] == t[..4] && t[..4][..3] == t[..3] && t[..3][..2] == t[..2] && t[..2][..1] == t[..1];
    assert t[..1][..0] == [] && Total(t[..1]) == topK / 2;
    assert Total(t[..2]) <= topK / 2 + 2 && Total(t[..3]) <= topK / 2 + 4;
    assert Total(t[..4]) == Total(t[..3]) + if shape == Relational then 3 else 1;
    assert Total(t[..5]) == Total(t[..4]) + if shape == Global then 2 else 1;
    assert Total(t[..6]) == Total(t[..5]) + if shape == Global then 2 else 1;
    assert Total(t) == Total(t[..6]) + if shape == Procedural || shape == Global then 1 else 0;
  }

  /** How many of a channel a question of that shape is promised, besides its hybrids. */
  function Promised(shape: Shape, anchored: bool, channel: Channel): nat {
    match channel
    case Grep => if anchored then 2 else 1
    case RepoMap => if shape == Global || shape == Local then 2 else 1
    case Graph => if shape == Relational then 3 else 1
    case Summary => if shape == Global then 2 else 1
    case Skill => if shape == Global || shape == Procedural then 1 else 0
    case Hybrid => 3
  }

  /** In a list of twenty or more every quota is met: the best of each channel are in, as many as promised. */
  lemma QuotasAreMet(ordered: seq<Candidate>, shape: Shape, anchored: bool, topK: nat, result: seq<Candidate>, channel: Channel, i: nat)
    requires topK >= 20 && Merged(ordered, Takes(shape, anchored, topK), topK, result)
    requires i < |FromChannel(ordered, channel)| && i < Promised(shape, anchored, channel)
    ensures FromChannel(ordered, channel)[i] in result
  {
    var takes := Takes(shape, anchored, topK);
    MergedList(ordered, takes, topK, result);
    TotalIs(shape, anchored, topK);
    var n := TakeOf(shape, anchored, topK, channel);
    TakeIsIn(ordered, takes, topK, result, n, i, (c: Candidate) => c.channel == channel);
  }

  /** Where the quota of a channel stands. */
  lemma TakeOf(shape: Shape, anchored: bool, topK: nat, channel: Channel) returns (n: nat)
    requires topK >= 20
    ensures n < |Takes(shape, anchored, topK)| && Takes(shape, anchored, topK)[n].OfChannel?
    ensures var take := Takes(shape, anchored, topK)[n]; take.channel == channel && take.count >= Promised(shape, anchored, channel)
  {
    n := match channel case Hybrid => 0 case Grep => 1 case RepoMap => 2 case Graph => 3 case Summary => 4 case Skill => 6;
  }

  function Overviews(ordered: seq<Candidate>): seq<Candidate> {
    Pick(ordered, (c: Candidate) => c.role == Overview)
  }

  /** And so is the best overview, or the best two for a global question. */
  lemma OverviewsAreIn(ordered: seq<Candidate>, shape: Shape, anchored: bool, topK: nat, result: seq<Candidate>, i: nat)
    requires topK >= 20 && Merged(ordered, Takes(shape, anchored, topK), topK, result)
    requires i < |Overviews(ordered)| && (i < 1 || (i < 2 && shape == Global))
    ensures Overviews(ordered)[i] in result
  {
    var takes := Takes(shape, anchored, topK);
    MergedList(ordered, takes, topK, result);
    TotalIs(shape, anchored, topK);
    TakeIsIn(ordered, takes, topK, result, 5, i, (c: Candidate) => c.role == Overview);
  }

  lemma TakeIsIn(ordered: seq<Candidate>, takes: seq<Take>, topK: nat, result: seq<Candidate>, n: nat, i: nat, keep: Candidate -> bool)
    requires n < |takes| && forall c :: c in Taken(ordered, takes[n]) ==> c in result
    requires forall c :: keep(c) == Matches(takes[n])(c)
    ensures i < |Pick(ordered, keep)| && i < takes[n].count ==> Pick(ordered, keep)[i] in result
  {
    PickSame(ordered, keep, Matches(takes[n]));
    if i < |Pick(ordered, keep)| && i < takes[n].count {
      assert Taken(ordered, takes[n])[i] == Pick(ordered, keep)[i];
    }
  }
}
