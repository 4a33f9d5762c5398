/** Reverse impact analysis: which files depend, directly or not, on the changed ones. */
module Impact {
  import opened Order
  import opened Sequences

  /** `source` imports `target`. */
  datatype Edge = Edge(source: string, target: string)

  function Dependents(edges: seq<Edge>, target: string): set<string> {
    set e | e in edges && e.target == target :: e.source
  }

  function DependentsOf(edges: seq<Edge>, targets: set<string>): set<string> {
    set e | e in edges && e.target in targets :: e.source
  }

  /** The files at reverse distance `d` or less from `start`. */
  function Within(edges: seq<Edge>, start: set<string>, d: nat): set<string> {
    if d == 0 then start
    else
      var closer := Within(edges, start, d - 1);
      closer + DependentsOf(edges, closer)
  }

  ghost predicate Reaches(edges: seq<Edge>, start: set<string>, x: string) {
    exists d: nat :: x in Within(edges, start, d)
  }

  lemma {:induction false} WithinGrows(edges: seq<Edge>, start: set<string>, d: nat, e: nat)
    requires d <= e
    ensures Within(edges, start, d) <= Within(edges, start, e)
  {
    if d < e {
      WithinGrows(edges, start, d, e - 1);
    }
  }

  /** A set that holds the start and every dependent of its members holds everything reachable. */
  lemma {:induction false} ClosedSetHoldsAll(edges: seq<Edge>, start: set<string>, s: set<string>, d: nat)
    requires start <= s && DependentsOf(edges, s) <= s
    ensures Within(edges, start, d) <= s
  {
    if d > 0 {
      ClosedSetHoldsAll(edges, start, s, d - 1);
      var closer := Within(edges, start, d - 1);
      assert DependentsOf(edges, closer) <= DependentsOf(edges, s);
    }
  }

  /** Everything the search could ever see. */
  function Universe(edges: seq<Edge>, start: set<string>): set<string> {
    start + set e | e in edges :: e.source
  }

  /** The dictionary from a target to its sources, built edge by edge. */
  method ReverseEdges(edges: seq<Edge>) returns (reverse: map<string, set<string>>)
    ensures forall t :: (if t in reverse then reverse[t] else {}) == Dependents(edges, t)
  {
    reverse := map[];
    for i := 0 to |edges|
      invariant forall t :: (if t in reverse then reverse[t] else {}) == Dependents(edges[..i], t)
    {
      var edge := edges[i];
      assert edges[..i + 1] == edges[..i] + [edge];
      var sources := if edge.target in reverse then reverse[edge.target] else {};
      reverse := reverse[edge.target := sources + {edge.source}];
    }
    assert edges[..|edges|] == edges;
  }

  /** Where the search stands: all of distance `d` seen, `front` at distance `d`, `back` one further. */
  ghost predicate Frontier(edges: seq<Edge>, start: set<string>, seen: set<string>, d: nat,
                           front: seq<string>, back: seq<string>) {
    && Within(edges, start, d) <= seen <= Within(edges, start, d + 1)
    && Elements(front) <= Within(edges, start, d)
    && Elements(back) == seen - Within(edges, start, d)
    && (forall x | x in Within(edges, start, d) && x !in front :: Dependents(edges, x) <= seen)
  }

  lemma FrontierStarts(edges: seq<Edge>, changed: seq<string>)
    ensures Frontier(edges, Elements(changed), Elements(changed), 0, changed, [])
  {
  }

  lemma DependentsCover(edges: seq<Edge>, targets: set<string>, s: set<string>)
    requires forall x | x in targets :: Dependents(edges, x) <= s
    ensures DependentsOf(edges, targets) <= s
  {
    forall y | y in DependentsOf(edges, targets)
      ensures y in s
    {
      var e :| e in edges && e.target in targets && e.source == y;
      assert y in Dependents(edges, e.target);
    }
  }

  /** When the front is used up, the back is the next front. */
  lemma FrontierAdvances(edges: seq<Edge>, start: set<string>, seen: set<string>, d: nat, back: seq<string>)
    requires Frontier(edges, start, seen, d, [], back)
    ensures Frontier(edges, start, seen, d + 1, back, [])
  {
    hide Dependents, DependentsOf;
    var near := Within(edges, start, d);
    assert forall x | x in near :: x !in [] && Dependents(edges, x) <= seen;
    DependentsCover(edges, near, seen);
    assert seen == Within(edges, start, d + 1);
    WithinGrows(edges, start, d + 1, d + 2);
    forall x | x in seen && x !in back
      ensures Dependents(edges, x) <= seen
    {
      assert x !in Elements(back);
    }
  }

  /** Expanding the first file of the front puts its unseen dependents at the end of the back. */
  lemma FrontierStep(edges: seq<Edge>, start: set<string>, seen: set<string>, d: nat,
                     front: seq<string>, back: seq<string>, added: seq<string>)
    requires front != [] && Frontier(edges, start, seen, d, front, back)
    requires Elements(added) == Dependents(edges, front[0]) - seen
    ensures Frontier(edges, start, seen + Elements(added), d, front[1..], back + added)
  {
    var near := Within(edges, start, d);
    assert front[0] in Elements(front);
    assert Dependents(edges, front[0]) <= DependentsOf(edges, near);
    assert Elements(front[1..]) <= Elements(front);
    assert Elements(back + added) == Elements(back) + Elements(added);
    forall x | x in near && x !in front[1..]
      ensures Dependents(edges, x) <= seen + Elements(added)
    {
      if x != front[0] {
        assert x !in front;
      }
    }
  }

  /** One round of the search, for the whole queue. */
  lemma FrontierRound(edges: seq<Edge>, start: set<string>, seen: set<string>, d: nat,
                      front: seq<string>, back: seq<string>, added: seq<string>)
    returns (d': nat, front': seq<string>, back': seq<string>)
    requires front + back != [] && Frontier(edges, start, seen, d, front, back)
    requires Elements(added) == Dependents(edges, (front + back)[0]) - seen
    ensures Frontier(edges, start, seen + Elements(added), d', front', back')
    ensures front' + back' == (front + back)[1..] + added
  {
    hide Frontier, Dependents;
    if front == [] {
      FrontierAdvances(edges, start, seen, d, back);
      assert front + back == back;
      FrontierStep(edges, start, seen, d + 1, back, [], added);
      d', front', back' := d + 1, back[1..], [] + added;
    } else {
      FrontierStep(edges, start, seen, d, front, back, added);
      d', front', back' := d, front[1..], back + added;
    }
  }

  /** What the search promises of the files it has seen, wherever the limit stopped it. */
  ghost predicate ClosestFirst(edges: seq<Edge>, start: set<string>, seen: set<string>) {
    forall d: nat, x | x in seen && x !in Within(edges, start, d) :: Within(edges, start, d) <= seen
  }

  lemma FrontierIsClosestFirst(edges: seq<Edge>, start: set<string>, seen: set<string>, d: nat,
                               front: seq<string>, back: seq<string>)
    requires Frontier(edges, start, seen, d, front, back)
    ensures ClosestFirst(edges, start, seen)
    ensures front == [] && back == [] ==> forall x :: x in seen <==> Reaches(edges, start, x)
    ensures forall x | x in seen :: Reaches(edges, start, x)
  {
    forall e: nat, x | x in seen && x !in Within(edges, start, e)
      ensures Within(edges, start, e) <= seen
    {
      if e <= d {
        WithinGrows(edges, start, e, d);
      } else {
        WithinGrows(edges, start, d + 1, e);
      }
    }
    forall x | x in seen
      ensures Reaches(edges, start, x)
    {
      assert x in Within(edges, start, d + 1);
    }
    if front == [] && back == [] {
      assert forall x | x in seen :: x !in front && Dependents(edges, x) <= seen;
      DependentsCover(edges, seen, seen);
      WithinGrows(edges, start, 0, d);
      forall x | Reaches(edges, start, x)
        ensures x in seen
      {
        var n: nat :| x in Within(edges, start, n);
        ClosedSetHoldsAll(edges, start, seen, n);
      }
    }
  }

  // ------------------------------------------------------------- the search as such

  lemma SearchShrinks(edges: seq<Edge>, start: set<string>, seen: set<string>, file: string)
    requires seen <= Universe(edges, start)
    ensures var added := Dependents(edges, file) - seen;
      && seen + added <= Universe(edges, start)
      && |Universe(edges, start) - (seen + added)| + |added| == |Universe(edges, start) - seen|
  {
    var universe, added := Universe(edges, start), Dependents(edges, file) - seen;
    SplitSize(universe - seen, added);
    assert universe - seen - added == universe - (seen + added);
  }

  /**
   * Breadth first from `queue`: the file in front is taken off, its unseen dependents join the queue in
   * ascending order, until the queue is empty or `limit` files are known.
   */
  function Search(edges: seq<Edge>, start: set<string>, seen: set<string>, queue: seq<string>, limit: int): set<string>
    requires seen <= Universe(edges, start)
    decreases |Universe(edges, start) - seen| + |queue|
  {
    if queue == [] || |seen| >= limit then seen
    else
      var added := Dependents(edges, queue[0]) - seen;
      SearchShrinks(edges, start, seen, queue[0]);
      Search(edges, start, seen + added, queue[1..] + Sorted(added), limit)
  }

  /** All but the files one last expansion added are fewer than `limit`. */
  ghost predicate JustOver(edges: seq<Edge>, seen: set<string>, limit: int) {
    exists file :: |seen - Dependents(edges, file)| < limit
  }

  lemma ExpansionIsJustOver(edges: seq<Edge>, seen: set<string>, file: string, limit: int)
    requires |seen| < limit
    ensures JustOver(edges, seen + (Dependents(edges, file) - seen), limit)
  {
    var rest := seen + (Dependents(edges, file) - seen) - Dependents(edges, file);
    SplitSize(seen, rest);
  }

  /** The dependents of one file: what is new joins the queue in ascending order. */
  method Expand(dependents: seq<string>, seen: set<string>, queue: seq<string>)
    returns (seen': set<string>, queue': seq<string>, ghost added: seq<string>)
    ensures queue' == queue + added && Elements(added) == Elements(dependents) - seen
    ensures seen' == seen + Elements(added) && |seen'| == |seen| + |added|
    ensures Ascending(dependents) ==> added == Sorted(Elements(dependents) - seen)
  {
    hide Elements, Below, Sorted;
    seen', queue', added := seen, queue, [];
    ElementsOfNone<string>();
    assert dependents[..0] == [];
    for i := 0 to |dependents|
      invariant queue' == queue + added && Elements(added) == Elements(dependents[..i]) - seen
      invariant seen' == seen + Elements(added) && |seen'| == |seen| + |added|
      invariant Ascending(dependents) ==> Ascending(added)
    {
      var dependent := dependents[i];
      assert dependents[..i + 1] == dependents[..i] + [dependent];
      ElementsSnoc(dependents[..i], dependent);
      OneMore(Elements(dependents[..i]), seen, dependent);
      if dependent !in seen' {
        ElementsSnoc(added, dependent);
        if Ascending(dependents) {
          AscendingSnoc(dependents, i, added);
        }
        Assoc(queue, added, [dependent]);
        added := added + [dependent];
        seen' := seen' + {dependent};
        queue' := queue' + [dependent];
      }
    }
    assert dependents[..|dependents|] == dependents;
    if Ascending(dependents) {
      AscendingIsUnique(added, Sorted(Elements(dependents) - seen));
    }
  }

  lemma AscendingSnoc(s: seq<string>, i: nat, some: seq<string>)
    requires Ascending(s) && i < |s| && Ascending(some) && Elements(some) <= Elements(s[..i])
    ensures Ascending(some + [s[i]])
  {
    hide Below;
    forall k | 0 <= k < |some|
      ensures Below(some[k], s[i])
    {
      assert some[k] in Elements(s[..i]);
    }
  }

  lemma OneMore(items: set<string>, seen: set<string>, x: string)
    ensures x in seen + (items - seen) ==> items + {x} - seen == items - seen
    ensures x !in seen + (items - seen) ==> items + {x} - seen == items - seen + {x}
    ensures seen + (items - seen) + {x} == seen + (items - seen + {x})
  {
  }

  lemma ElementsOfNone<T>()
    ensures Elements<T>([]) == {}
  {
  }

  lemma ElementsSnoc<T>(s: seq<T>, x: T)
    ensures Elements(s + [x]) == Elements(s) + {x}
  {
    assert forall y | y in s :: y in s + [x];
    assert x in s + [x];
  }

  /**
   * Files impacted by a change, nearest first until `limit` files are known.
   *
   * The answer is sorted and holds no changed file. It lies within what is reachable, is all of it when
   * the limit was not reached, and never holds a file while a nearer one is missing.
   */
  method ReverseImpact(edges: seq<Edge>, changedPaths: seq<string>, limit: int) returns (impacted: seq<string>)
    ensures Ascending(impacted) && Elements(impacted) !! Elements(changedPaths)
    ensures forall x | x in impacted :: Reaches(edges, Elements(changedPaths), x)
    ensures |impacted| + |Elements(changedPaths)| < limit ==>
      forall x :: x in impacted <==> Reaches(edges, Elements(changedPaths), x) && x !in changedPaths
    ensures ClosestFirst(edges, Elements(changedPaths), Elements(impacted) + Elements(changedPaths))
    ensures impacted == [] || JustOver(edges, Elements(impacted) + Elements(changedPaths), limit)
    ensures limit <= |Elements(changedPaths)| ==> impacted == []
    ensures var start := Elements(changedPaths);
      impacted == Sorted(Search(edges, start, start, changedPaths, limit) - start)
  {
    var reverse := ReverseEdges(edges);
    ghost var start, universe := Elements(changedPaths), Universe(edges, Elements(changedPaths));
    var seen, queue := Elements(changedPaths), changedPaths;
    ghost var d, front, back: seq<string> := 0, changedPaths, [];
    FrontierStarts(edges, changedPaths);
    ghost var found := Search(edges, start, seen, queue, limit);
    while queue != [] && |seen| < limit
      invariant start <= seen <= universe
      invariant queue == front + back && Frontier(edges, start, seen, d, front, back)
      invariant seen == start || JustOver(edges, seen, limit)
      invariant |start| >= limit ==> seen == start
      invariant found == Search(edges, start, seen, queue, limit)
      decreases |queue| + |universe - seen|
    {
      hide *;
      ghost var file := queue[0];
      SearchUnfolds(edges, start, seen, queue, limit);
      ExpansionIsJustOver(edges, seen, file, limit);
      var dependents := Sorted(if queue[0] in reverse then reverse[queue[0]] else {});
      ghost var before, added := seen, [];
      seen, queue, added := Expand(dependents, seen, queue[1..]);
      d, front, back := FrontierRound(edges, start, before, d, front, back, added);
      SeenStaysInside(edges, start, before, dependents, added);
      UnseenShrinks(universe, before, seen);
    }
    hide *;
    SearchEnds(edges, start, seen, queue, limit);
    NothingAdded(seen, start);
    impacted := Sorted(seen - Elements(changedPaths));
    Answer(edges, changedPaths, seen, d, front, back, impacted);
  }

  lemma SearchUnfolds(edges: seq<Edge>, start: set<string>, seen: set<string>, queue: seq<string>, limit: int)
    requires seen <= Universe(edges, start) && queue != [] && |seen| < limit
    ensures var added := Dependents(edges, queue[0]) - seen;
      && seen + added <= Universe(edges, start)
      && Search(edges, start, seen, queue, limit)
         == Search(edges, start, seen + added, queue[1..] + Sorted(added), limit)
  {
    SearchShrinks(edges, start, seen, queue[0]);
  }

  lemma SearchEnds(edges: seq<Edge>, start: set<string>, seen: set<string>, queue: seq<string>, limit: int)
    requires seen <= Universe(edges, start)
    ensures queue == [] || |seen| >= limit ==> Search(edges, start, seen, queue, limit) == seen
  {
  }

  lemma NothingAdded(seen: set<string>, start: set<string>)
    requires start <= seen
    ensures seen == start <==> Sorted(seen - start) == []
    ensures seen - start + start == seen
  {
    NoElements(Sorted(seen - start));
    assert seen == (seen - start) + start;
  }

  lemma Answer(edges: seq<Edge>, changed: seq<string>, seen: set<string>, d: nat,
               front: seq<string>, back: seq<string>, impacted: seq<string>)
    requires Elements(changed) <= seen && Frontier(edges, Elements(changed), seen, d, front, back)
    requires Elements(impacted) == seen - Elements(changed) && |impacted| == |seen - Elements(changed)|
    ensures Elements(impacted) !! Elements(changed)
    ensures forall x | x in impacted :: Reaches(edges, Elements(changed), x)
    ensures |impacted| + |Elements(changed)| == |seen|
    ensures front + back == [] ==> forall x :: x in impacted <==> Reaches(edges, Elements(changed), x) && x !in changed
    ensures ClosestFirst(edges, Elements(changed), Elements(impacted) + Elements(changed))
  {
    hide Frontier, Reaches, ClosestFirst, Within;
    FrontierIsClosestFirst(edges, Elements(changed), seen, d, front, back);
    assert Elements(impacted) + Elements(changed) == seen;
    SplitSize(seen, Elements(changed));
    assert forall x :: x in impacted <==> x in Elements(impacted);
  }

  lemma SeenStaysInside(edges: seq<Edge>, start: set<string>, seen: set<string>, dependents: seq<string>, added: seq<string>)
    requires seen <= Universe(edges, start) && Elements(added) == Elements(dependents) - seen
    requires exists target :: Elements(dependents) == Dependents(edges, target)
    ensures seen + Elements(added) <= Universe(edges, start)
  {
  }

  lemma UnseenShrinks(universe: set<string>, before: set<string>, seen: set<string>)
    requires before <= seen <= universe
    ensures |universe - seen| == |universe - before| - (|seen| - |before|)
  {
    SplitSize(universe, seen);
    SplitSize(universe, before);
  }

  lemma SplitSize<T>(all: set<T>, some: set<T>)
    requires some <= all
    ensures |all| == |all - some| + |some|
  {
    assert all == (all - some) + some;
  }
}
