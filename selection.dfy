/** The sets and list operations behind the check boxes and the bulk unsubscribe. */
module Selection {
  import opened Payload

  /** The ids of the displayed items. Built by adding the last item's id to the ids of the rest, so that
      a loop over the list can extend the set one item at a time. */
  function Ids(subs: seq<Subscription>): (r: set<string>)
    ensures forall id :: id in r <==> exists i :: 0 <= i < |subs| && subs[i].id == id
  {
    if subs == [] then {} else Ids(subs[..|subs| - 1]) + {subs[|subs| - 1].id}
  }

  /** `subs.filter(s => !removed.has(s.id))`: the list after a successful unsubscribe. */
  function Without(subs: seq<Subscription>, removed: set<string>): (r: seq<Subscription>)
    ensures |r| <= |subs|
    ensures forall s :: s in r <==> s in subs && s.id !in removed
  {
    if subs == [] then []
    else
      var rest := Without(subs[1..], removed);
      assert subs == [subs[0]] + subs[1..];
      if subs[0].id in removed then rest else [subs[0]] + rest
  }

  /** Filtering keeps relative order: it distributes over concatenation. */
  lemma {:induction false} WithoutConcat(a: seq<Subscription>, b: seq<Subscription>, removed: set<string>)
    ensures Without(a + b, removed) == Without(a, removed) + Without(b, removed)
  {
    if a == [] {
      assert a + b == b;
    } else {
      assert (a + b)[0] == a[0];
      assert (a + b)[1..] == a[1..] + b;
      WithoutConcat(a[1..], b, removed);
    }
  }

  /** Every item outside the removed ids keeps its number of occurrences; the others vanish. */
  lemma {:induction false} WithoutCount(subs: seq<Subscription>, removed: set<string>, s: Subscription)
    ensures multiset(Without(subs, removed))[s] == if s.id in removed then 0 else multiset(subs)[s]
  {
    if subs != [] {
      WithoutCount(subs[1..], removed, s);
      assert subs == [subs[0]] + subs[1..];
    }
  }

  /** Nothing is removed when no displayed id is in the removed set. */
  lemma {:induction false} WithoutNothing(subs: seq<Subscription>, removed: set<string>)
    requires forall i :: 0 <= i < |subs| ==> subs[i].id !in removed
    ensures Without(subs, removed) == subs
  {
    if subs != [] {
      assert subs[0].id !in removed;
      WithoutNothing(subs[1..], removed);
      assert subs == [subs[0]] + subs[1..];
    }
  }

  /** No removed id is displayed afterwards. */
  lemma WithoutRemovesIds(subs: seq<Subscription>, removed: set<string>)
    ensures Ids(Without(subs, removed)) == Ids(subs) - removed
  {
  }

  /** Filtering a second time removes nothing more. */
  lemma WithoutIdempotent(subs: seq<Subscription>, removed: set<string>)
    ensures Without(Without(subs, removed), removed) == Without(subs, removed)
  {
  }
}
