/** Delivery of captured blocks: each block fingerprint reaches the controller once. */
module Observer {
  import opened Sequences

  /** One parser result, told apart by the fingerprint of its block. */
  datatype Captured<T> = Captured(fingerprint: string, result: T)

  function Fingerprints<T>(items: seq<Captured<T>>): set<string> {
    set i | 0 <= i < |items| :: items[i].fingerprint
  }

  predicate DistinctFingerprints<T>(items: seq<Captured<T>>) {
    forall i, j | 0 <= i < j < |items| :: items[i].fingerprint != items[j].fingerprint
  }

  /** The results whose fingerprint is not in `seen` and has not occurred earlier in `items`. */
  function Unseen<T>(items: seq<Captured<T>>, seen: set<string>): seq<Captured<T>> {
    if items == [] then []
    else if items[0].fingerprint in seen then Unseen(items[1..], seen)
    else [items[0]] + Unseen(items[1..], seen + {items[0].fingerprint})
  }

  lemma {:induction false} UnseenAppend<T>(a: seq<Captured<T>>, b: seq<Captured<T>>, seen: set<string>)
    ensures Unseen(a + b, seen) == Unseen(a, seen) + Unseen(b, seen + Fingerprints(a))
    decreases a
  {
    if a == [] {
      assert a + b == b && seen + Fingerprints(a) == seen;
    } else {
      assert (a + b)[1..] == a[1..] + b;
      FingerprintsCons(a);
      if a[0].fingerprint in seen {
        UnseenAppend(a[1..], b, seen);
        assert seen + Fingerprints(a) == seen + Fingerprints(a[1..]);
      } else {
        UnseenAppend(a[1..], b, seen + {a[0].fingerprint});
        assert seen + Fingerprints(a) == seen + {a[0].fingerprint} + Fingerprints(a[1..]);
      }
    }
  }

  lemma FingerprintsCons<T>(items: seq<Captured<T>>)
    requires items != []
    ensures Fingerprints(items) == {items[0].fingerprint} + Fingerprints(items[1..])
  {
    forall i | 0 < i < |items|
      ensures items[i].fingerprint in Fingerprints(items[1..])
    {
      assert items[1..][i - 1] == items[i];
    }
  }

  lemma FingerprintsAppend<T>(a: seq<Captured<T>>, b: seq<Captured<T>>)
    ensures Fingerprints(a + b) == Fingerprints(a) + Fingerprints(b)
  {
    forall i | 0 <= i < |b|
      ensures b[i].fingerprint in Fingerprints(a + b)
    {
      assert (a + b)[|a| + i] == b[i];
    }
    forall i | 0 <= i < |a|
      ensures a[i].fingerprint in Fingerprints(a + b)
    {
      assert (a + b)[i] == a[i];
    }
  }

  /** Exactly the fingerprints not seen before are delivered, each of them once. */
  lemma {:induction false} UnseenDeliversOnce<T>(items: seq<Captured<T>>, seen: set<string>)
    ensures Fingerprints(Unseen(items, seen)) == Fingerprints(items) - seen
    ensures DistinctFingerprints(Unseen(items, seen))
    ensures forall i | 0 <= i < |Unseen(items, seen)| :: Unseen(items, seen)[i] in items
    decreases items
  {
    if items != [] {
      FingerprintsCons(items);
      if items[0].fingerprint in seen {
        UnseenDeliversOnce(items[1..], seen);
      } else {
        var rest := Unseen(items[1..], seen + {items[0].fingerprint});
        UnseenDeliversOnce(items[1..], seen + {items[0].fingerprint});
        FingerprintsCons([items[0]] + rest);
        assert ([items[0]] + rest)[1..] == rest;
        forall i | 0 <= i < |rest|
          ensures rest[i].fingerprint != items[0].fingerprint
        {
          assert rest[i].fingerprint in Fingerprints(rest);
        }
      }
    }
  }

  class ConversationObserver<T> {
    var seen: set<string>

    constructor ()
      ensures seen == {}
    {
      seen := {};
    }

    /** Scan the message elements in document order; `sources` holds what the parser found in each. */
    method Scan(sources: seq<seq<Captured<T>>>) returns (unseen: seq<Captured<T>>)
      modifies this
      ensures unseen == Unseen(Flatten(sources), old(seen))
      ensures seen == old(seen) + Fingerprints(Flatten(sources))
    {
      unseen := [];
      ghost var done: seq<Captured<T>> := [];
      for i := 0 to |sources|
        invariant done == Flatten(sources[..i])
        invariant unseen == Unseen(done, old(seen)) && seen == old(seen) + Fingerprints(done)
      {
        ghost var before := done;
        for j := 0 to |sources[i]|
          invariant done == before + sources[i][..j]
          invariant unseen == Unseen(done, old(seen)) && seen == old(seen) + Fingerprints(done)
        {
          var result := sources[i][j];
          ScanStep(done, result, old(seen));
          assert before + sources[i][..j + 1] == done + [result];
          done := done + [result];
          if result.fingerprint in seen {
            continue;
          }
          seen := seen + {result.fingerprint};
          unseen := unseen + [result];
        }
        assert sources[i][..|sources[i]|] == sources[i];
        FlattenPrefix(sources, i);
      }
      assert sources[..|sources|] == sources;
    }
  }

  lemma ScanStep<T>(done: seq<Captured<T>>, result: Captured<T>, seen: set<string>)
    ensures Fingerprints(done + [result]) == Fingerprints(done) + {result.fingerprint}
    ensures Unseen(done + [result], seen)
         == Unseen(done, seen) + if result.fingerprint in seen + Fingerprints(done) then [] else [result]
  {
    FingerprintsAppend(done, [result]);
    UnseenAppend(done, [result], seen);
    assert [result][1..] == [];
    FingerprintsCons([result]);
  }

  /** The deliveries of a run of scans. */
  function Deliveries<T>(scans: seq<seq<Captured<T>>>, seen: set<string>): seq<Captured<T>> {
    if scans == [] then []
    else Unseen(scans[0], seen) + Deliveries(scans[1..], seen + Fingerprints(scans[0]))
  }

  function EverScanned<T>(scans: seq<seq<Captured<T>>>): set<string> {
    if scans == [] then {} else Fingerprints(scans[0]) + EverScanned(scans[1..])
  }

  /** Across all scans, every block that ever appeared is delivered exactly once. */
  lemma {:induction false} EveryBlockIsDeliveredOnce<T>(scans: seq<seq<Captured<T>>>, seen: set<string>)
    ensures DistinctFingerprints(Deliveries(scans, seen))
    ensures Fingerprints(Deliveries(scans, seen)) == EverScanned(scans) - seen
    decreases scans
  {
    if scans != [] {
      var now := Unseen(scans[0], seen);
      var later := Deliveries(scans[1..], seen + Fingerprints(scans[0]));
      UnseenDeliversOnce(scans[0], seen);
      EveryBlockIsDeliveredOnce(scans[1..], seen + Fingerprints(scans[0]));
      FingerprintsAppend(now, later);
      forall i, j | 0 <= i < |now| && 0 <= j < |later|
        ensures now[i].fingerprint != later[j].fingerprint
      {
        assert now[i].fingerprint in Fingerprints(now) && later[j].fingerprint in Fingerprints(later);
      }
    }
  }
}
