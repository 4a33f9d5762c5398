/**
 * The extension's bounded, pin-aware conversation list.
 *
 * Ids are fresh random strings in the program; only their identity matters here.
 */
module Conversations {
  import opened Sequences

  type Id = nat

  /** A proposed tool call, in its serialised form. */
  type ToolCall = string

  datatype Role = User | Assistant

  datatype Turn = Turn(id: Id, role: Role, content: string, streaming: bool, stopped: bool, failed: bool,
                       toolCalls: seq<ToolCall>)

  datatype Conversation = Conversation(id: Id, turns: seq<Turn>, pinned: bool)

  const MAX_ASSISTANT_CONVERSATIONS := 20

  predicate DistinctIds(list: seq<Conversation>) {
    forall i, j | 0 <= i < j < |list| :: list[i].id != list[j].id
  }

  function Ids(list: seq<Conversation>): set<Id> {
    set i | 0 <= i < |list| :: list[i].id
  }

  function Unpinned(list: seq<Conversation>): seq<Conversation> {
    if list == [] then []
    else if list[0].pinned then Unpinned(list[1..])
    else [list[0]] + Unpinned(list[1..])
  }

  function Pinned(list: seq<Conversation>): seq<Conversation> {
    if list == [] then []
    else if list[0].pinned then [list[0]] + Pinned(list[1..])
    else Pinned(list[1..])
  }

  function Without(list: seq<Conversation>, dropped: set<Id>): seq<Conversation> {
    if list == [] then []
    else if list[0].id in dropped then Without(list[1..], dropped)
    else [list[0]] + Without(list[1..], dropped)
  }

  /** The list without its `count` oldest unpinned entries. */
  function DropUnpinned(list: seq<Conversation>, count: nat): seq<Conversation> {
    if list == [] || count == 0 then list
    else if list[0].pinned then [list[0]] + DropUnpinned(list[1..], count)
    else DropUnpinned(list[1..], count - 1)
  }

  /** Oldest unpinned entries go first; pinned ones only once no unpinned entry is left. */
  function Capped(list: seq<Conversation>): seq<Conversation> {
    if |list| <= MAX_ASSISTANT_CONVERSATIONS then list
    else
      var overflow := |list| - MAX_ASSISTANT_CONVERSATIONS;
      if overflow <= |Unpinned(list)| then DropUnpinned(list, overflow)
      else
        PinnedAndUnpinned(list);
        Pinned(list)[overflow - |Unpinned(list)|..]
  }

  lemma {:induction false} PinnedAndUnpinned(list: seq<Conversation>)
    ensures |Pinned(list)| + |Unpinned(list)| == |list|
  {
    if list != [] {
      PinnedAndUnpinned(list[1..]);
    }
  }

  lemma {:induction false} UnpinnedAppend(a: seq<Conversation>, b: seq<Conversation>)
    ensures Unpinned(a + b) == Unpinned(a) + Unpinned(b)
    ensures Pinned(a + b) == Pinned(a) + Pinned(b)
  {
    if a == [] {
      assert a + b == b;
    } else {
      UnpinnedAppend(a[1..], b);
      Uncons(a, b);
      if a[0].pinned {
        Assoc([a[0]], Pinned(a[1..]), Pinned(b));
      } else {
        Assoc([a[0]], Unpinned(a[1..]), Unpinned(b));
      }
    }
  }

  lemma {:induction false} WithoutAppend(a: seq<Conversation>, b: seq<Conversation>, dropped: set<Id>)
    ensures Without(a + b, dropped) == Without(a, dropped) + Without(b, dropped)
  {
    if a == [] {
      assert a + b == b;
    } else {
      WithoutAppend(a[1..], b, dropped);
      Uncons(a, b);
      if a[0].id !in dropped {
        Assoc([a[0]], Without(a[1..], dropped), Without(b, dropped));
      }
    }
  }

  lemma {:induction false} WithoutNone(list: seq<Conversation>, dropped: set<Id>)
    requires Ids(list) !! dropped
    ensures Without(list, dropped) == list
  {
    if list != [] {
      assert list[0].id in Ids(list);
      assert forall i | 0 <= i < |list[1..]| :: list[1..][i].id == list[i + 1].id && list[i + 1].id in Ids(list);
      WithoutNone(list[1..], dropped);
      assert [list[0]] + list[1..] == list;
    }
  }

  lemma {:induction false} WithoutAll(list: seq<Conversation>, dropped: set<Id>)
    requires Ids(list) <= dropped
    ensures Without(list, dropped) == []
  {
    if list != [] {
      assert list[0].id in Ids(list);
      assert forall i | 0 <= i < |list[1..]| :: list[1..][i].id == list[i + 1].id && list[i + 1].id in Ids(list);
      WithoutAll(list[1..], dropped);
    }
  }

  /** Dropping exactly the unpinned ids keeps exactly the pinned entries. */
  lemma {:induction false} WithoutUnpinned(list: seq<Conversation>, dropped: set<Id>)
    requires forall i | 0 <= i < |list| :: list[i].id in dropped <==> !list[i].pinned
    ensures Without(list, dropped) == Pinned(list)
  {
    if list != [] {
      WithoutUnpinned(list[1..], dropped);
    }
  }

  lemma {:induction false} DropUnpinnedPrefix(a: seq<Conversation>, b: seq<Conversation>)
    ensures DropUnpinned(a + b, |Unpinned(a)|) == Pinned(a) + b
  {
    if a == [] {
      assert a + b == b;
    } else {
      DropUnpinnedPrefix(a[1..], b);
      Uncons(a, b);
      if a[0].pinned {
        Assoc([a[0]], Pinned(a[1..]), b);
        if |Unpinned(a)| == 0 {
          assert a[1..] + b == Pinned(a[1..]) + b;
          assert a == [a[0]] + a[1..];
          Assoc([a[0]], a[1..], b);
        }
      }
    }
  }

  /** The two loops of `capConversations` and its final filter. */
  method CapConversations(list: seq<Conversation>) returns (kept: seq<Conversation>)
    requires DistinctIds(list)
    ensures kept == Capped(list)
  {
    if |list| <= MAX_ASSISTANT_CONVERSATIONS {
      return list;
    }
    var overflow := |list| - MAX_ASSISTANT_CONVERSATIONS;
    var dropped: set<Id> := {};
    var i := 0;
    while i < |list| && |dropped| < overflow
      invariant 0 <= i <= |list|
      invariant |dropped| == |Unpinned(list[..i])| <= overflow
      invariant forall k | 0 <= k < |list| :: list[k].id in dropped <==> k < i && !list[k].pinned
    {
      PrefixStep(list, i);
      if !list[i].pinned {
        dropped := dropped + {list[i].id};
      }
      i := i + 1;
    }
    assert |dropped| < overflow ==> list[..i] == list;
    ghost var unpinned := dropped;
    var j := 0;
    while j < |list| && |dropped| < overflow
      invariant 0 <= j <= |list|
      invariant |unpinned| == overflow ==> dropped == unpinned && j == 0
      invariant |unpinned| < overflow ==> |dropped| == |Unpinned(list)| + |Pinned(list[..j])| <= overflow
      invariant |unpinned| < overflow ==>
        forall k | 0 <= k < |list| :: list[k].id in dropped <==> !list[k].pinned || k < j
    {
      PrefixStep(list, j);
      assert !list[j].pinned ==> dropped + {list[j].id} == dropped;
      dropped := dropped + {list[j].id};
      j := j + 1;
    }
    if |unpinned| == overflow {
      FirstLoopSuffices(list, i, dropped);
    } else {
      SecondLoopFinishes(list, j, dropped, overflow);
    }
    kept := Without(list, dropped);
  }

  lemma PrefixStep(list: seq<Conversation>, i: nat)
    requires i < |list|
    ensures |Unpinned(list[..i + 1])| == |Unpinned(list[..i])| + if list[i].pinned then 0 else 1
    ensures |Pinned(list[..i + 1])| == |Pinned(list[..i])| + if list[i].pinned then 1 else 0
  {
    UnpinnedAppend(list[..i], [list[i]]);
    assert list[..i + 1] == list[..i] + [list[i]];
    assert [list[i]][1..] == [];
  }

  lemma FirstLoopSuffices(list: seq<Conversation>, i: nat, dropped: set<Id>)
    requires DistinctIds(list) && i <= |list|
    requires |list| - MAX_ASSISTANT_CONVERSATIONS == |dropped| == |Unpinned(list[..i])| > 0
    requires forall k | 0 <= k < |list| :: list[k].id in dropped <==> k < i && !list[k].pinned
    ensures Without(list, dropped) == Capped(list)
  {
    assert list == list[..i] + list[i..];
    UnpinnedAppend(list[..i], list[i..]);
    WithoutAppend(list[..i], list[i..], dropped);
    WithoutUnpinned(list[..i], dropped);
    WithoutNone(list[i..], dropped);
    DropUnpinnedPrefix(list[..i], list[i..]);
  }

  lemma SecondLoopFinishes(list: seq<Conversation>, j: nat, dropped: set<Id>, overflow: nat)
    requires DistinctIds(list) && j <= |list|
    requires overflow == |list| - MAX_ASSISTANT_CONVERSATIONS > |Unpinned(list)|
    requires |Pinned(list[..j])| + |Unpinned(list)| <= overflow
    requires j == |list| || |Pinned(list[..j])| + |Unpinned(list)| == overflow
    requires forall k | 0 <= k < |list| :: list[k].id in dropped <==> !list[k].pinned || k < j
    ensures Without(list, dropped) == Capped(list)
  {
    PinnedAndUnpinned(list);
    assert list == list[..j] + list[j..];
    UnpinnedAppend(list[..j], list[j..]);
    WithoutAppend(list[..j], list[j..], dropped);
    WithoutAll(list[..j], dropped);
    WithoutUnpinned(list[j..], dropped);
  }

  // ------------------------------------------------- what capping guarantees

  /** `index` picks the entries of `kept` out of `list` without changing their order. */
  ghost predicate Selects(index: seq<nat>, list: seq<Conversation>, kept: seq<Conversation>) {
    && |index| == |kept|
    && (forall i | 0 <= i < |index| :: index[i] < |list| && kept[i] == list[index[i]])
    && (forall i, j | 0 <= i < j < |index| :: index[i] < index[j])
  }

  ghost predicate Sublist(list: seq<Conversation>, kept: seq<Conversation>) {
    exists index :: Selects(index, list, kept)
  }

  ghost predicate SuffixOf(list: seq<Conversation>, kept: seq<Conversation>) {
    |kept| <= |list| && kept == list[|list| - |kept|..]
  }

  lemma SublistSkip(x: Conversation, list: seq<Conversation>, kept: seq<Conversation>)
    requires Sublist(list, kept)
    ensures Sublist([x] + list, kept)
  {
    var index :| Selects(index, list, kept);
    assert Selects(Shifted(index), [x] + list, kept);
  }

  lemma SublistTake(x: Conversation, list: seq<Conversation>, kept: seq<Conversation>)
    requires Sublist(list, kept)
    ensures Sublist([x] + list, [x] + kept)
  {
    var index :| Selects(index, list, kept);
    assert Selects([0] + Shifted(index), [x] + list, [x] + kept);
  }

  ghost function Shifted(index: seq<nat>): (r: seq<nat>)
    ensures |r| == |index|
    ensures forall i | 0 <= i < |index| :: r[i] == index[i] + 1
  {
    seq(|index|, i requires 0 <= i < |index| => index[i] + 1)
  }

  lemma SublistSelf(list: seq<Conversation>)
    ensures Sublist(list, list)
  {
    var index: seq<nat> := seq(|list|, i => i);
    assert Selects(index, list, list);
  }

  lemma SublistSuffix(list: seq<Conversation>, kept: seq<Conversation>, from: nat)
    requires Sublist(list, kept) && from <= |kept|
    ensures Sublist(list, kept[from..])
  {
    var index :| Selects(index, list, kept);
    assert Selects(index[from..], list, kept[from..]);
  }

  lemma SublistDistinct(list: seq<Conversation>, kept: seq<Conversation>)
    requires Sublist(list, kept) && DistinctIds(list)
    ensures DistinctIds(kept)
    ensures forall i | 0 <= i < |kept| :: kept[i] in list
  {
    var index :| Selects(index, list, kept);
    forall i, j | 0 <= i < j < |kept|
      ensures kept[i].id != kept[j].id
    {
      assert index[i] < index[j];
    }
  }

  lemma {:induction false} DropUnpinnedSublist(list: seq<Conversation>, count: nat)
    ensures Sublist(list, DropUnpinned(list, count))
  {
    if list == [] || count == 0 {
      SublistSelf(list);
    } else {
      DropUnpinnedSublist(list[1..], if list[0].pinned then count else count - 1);
      assert list == [list[0]] + list[1..];
      if list[0].pinned {
        SublistTake(list[0], list[1..], DropUnpinned(list[1..], count));
      } else {
        SublistSkip(list[0], list[1..], DropUnpinned(list[1..], count - 1));
      }
    }
  }

  lemma {:induction false} PinnedSublist(list: seq<Conversation>)
    ensures Sublist(list, Pinned(list))
  {
    if list == [] {
      SublistSelf(list);
    } else {
      PinnedSublist(list[1..]);
      assert list == [list[0]] + list[1..];
      if list[0].pinned {
        SublistTake(list[0], list[1..], Pinned(list[1..]));
      } else {
        SublistSkip(list[0], list[1..], Pinned(list[1..]));
      }
    }
  }

  lemma {:induction false} WithoutSublist(list: seq<Conversation>, dropped: set<Id>)
    ensures Sublist(list, Without(list, dropped))
    ensures forall i | 0 <= i < |Without(list, dropped)| :: Without(list, dropped)[i].id !in dropped
  {
    if list == [] {
      SublistSelf(list);
    } else {
      WithoutSublist(list[1..], dropped);
      assert list == [list[0]] + list[1..];
      if list[0].id !in dropped {
        SublistTake(list[0], list[1..], Without(list[1..], dropped));
      } else {
        SublistSkip(list[0], list[1..], Without(list[1..], dropped));
      }
    }
  }

  lemma {:induction false} DropUnpinnedParts(list: seq<Conversation>, count: nat)
    requires count <= |Unpinned(list)|
    ensures Pinned(DropUnpinned(list, count)) == Pinned(list)
    ensures Unpinned(DropUnpinned(list, count)) == Unpinned(list)[count..]
  {
    if list != [] && count != 0 {
      if list[0].pinned {
        DropUnpinnedParts(list[1..], count);
        var rest := DropUnpinned(list[1..], count);
        assert ([list[0]] + rest)[1..] == rest;
      } else {
        DropUnpinnedParts(list[1..], count - 1);
      }
    }
  }

  lemma {:induction false} PinnedOfPinned(list: seq<Conversation>)
    requires forall i | 0 <= i < |list| :: list[i].pinned
    ensures Pinned(list) == list && Unpinned(list) == []
  {
    if list != [] {
      PinnedOfPinned(list[1..]);
      assert list == [list[0]] + list[1..];
    }
  }

  lemma {:induction false} PinnedAllPinned(list: seq<Conversation>)
    ensures forall i | 0 <= i < |Pinned(list)| :: Pinned(list)[i].pinned
  {
    if list != [] {
      PinnedAllPinned(list[1..]);
    }
  }

  /**
   * What capping promises: an order-preserving sublist of exactly min(n, 20) entries that gives
   * up the oldest unpinned entries first, the oldest pinned entries after those, and a pinned
   * entry only when no unpinned one is kept.
   */
  lemma CappedKeepsTheRightEntries(list: seq<Conversation>)
    ensures |Capped(list)| == if |list| <= MAX_ASSISTANT_CONVERSATIONS then |list| else MAX_ASSISTANT_CONVERSATIONS
    ensures Sublist(list, Capped(list))
    ensures SuffixOf(Unpinned(list), Unpinned(Capped(list)))
    ensures SuffixOf(Pinned(list), Pinned(Capped(list)))
    ensures Pinned(Capped(list)) == Pinned(list) || Unpinned(Capped(list)) == []
  {
    var kept := Capped(list);
    var overflow := |list| - MAX_ASSISTANT_CONVERSATIONS;
    PinnedAndUnpinned(list);
    PinnedAndUnpinned(kept);
    if overflow <= 0 {
      SublistSelf(list);
    } else if overflow <= |Unpinned(list)| {
      DropUnpinnedSublist(list, overflow);
      DropUnpinnedParts(list, overflow);
    } else {
      PinnedSublist(list);
      SublistSuffix(list, Pinned(list), overflow - |Unpinned(list)|);
      PinnedAllPinned(list);
      PinnedOfPinned(kept);
    }
  }

  /**
   * Appending one fresh unpinned entry to a full list: the entry survives exactly when some
   * existing entry is unpinned.
   */
  lemma NewestSurvives(list: seq<Conversation>, newest: Conversation)
    requires |list| <= MAX_ASSISTANT_CONVERSATIONS && !newest.pinned
    requires forall i | 0 <= i < |list| :: list[i].id != newest.id
    ensures newest.id in Ids(Capped(list + [newest]))
       <==> |list| < MAX_ASSISTANT_CONVERSATIONS || Unpinned(list) != []
  {
    var all := list + [newest];
    UnpinnedAppend(list, [newest]);
    assert [newest][1..] == [];
    assert Unpinned([newest]) == [newest];
    if |list| < MAX_ASSISTANT_CONVERSATIONS {
      assert all[|list|].id in Ids(all);
    } else {
      DropOne(list, newest);
    }
  }

  lemma {:induction false} DropOne(list: seq<Conversation>, newest: Conversation)
    requires !newest.pinned
    ensures Unpinned(list) != [] ==>
      |DropUnpinned(list + [newest], 1)| > 0 && DropUnpinned(list + [newest], 1)[|DropUnpinned(list + [newest], 1)| - 1] == newest
    ensures Unpinned(list) == [] ==> DropUnpinned(list + [newest], 1) == list
  {
    var all := list + [newest];
    if list == [] {
    } else {
      assert all[1..] == list[1..] + [newest];
      DropOne(list[1..], newest);
    }
  }

  lemma CappedMembers(list: seq<Conversation>)
    requires DistinctIds(list)
    ensures |Capped(list)| <= MAX_ASSISTANT_CONVERSATIONS && DistinctIds(Capped(list))
    ensures forall i | 0 <= i < |Capped(list)| :: Capped(list)[i] in list
  {
    CappedKeepsTheRightEntries(list);
    SublistDistinct(list, Capped(list));
  }
}
