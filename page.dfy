/** The subscriptions page controller: the state it holds and one method per handler. Each handler's
    postcondition is the matching transition on PageState.View (`HandleCheck` is `Check`,
    `HandleUnsubscribe` is `Unsubscribe`, the others share their names); `Refetch` re-runs the fetch
    effect and `CurrentRequest` reads the request in flight. */
module Page {
  import opened Text
  import opened Payload
  import opened Selection
  import opened PageState

  class SubscriptionsPage {
    var subscriptions: seq<Subscription>
    var total: int
    var selectedIds: set<string>
    var draftFilter: string
    var appliedFilter: string
    var sortOrder: SortOrder
    var page: int
    /** The number of the latest request issued by the fetch effect. */
    var generation: nat
    /** The query each request was issued with, by request number. */
    ghost var issued: seq<Query>

    function Snapshot(): View
      reads this
    {
      View(subscriptions, total, selectedIds, draftFilter, appliedFilter, sortOrder, page, generation)
    }

    ghost predicate Valid()
      reads this
    {
      Snapshot().Valid() && Tracks(issued, Snapshot())
    }

    /** The page as mounted; mounting issues request number 0. */
    constructor ()
      ensures Valid() && Snapshot() == Initial && issued == [Initial.CurrentQuery()]
    {
      subscriptions, total, selectedIds := [], 0, {};
      draftFilter, appliedFilter := "", "";
      sortOrder, page, generation := Desc, 1, 0;
      issued := [Query("", 1, ItemsPerPage, Desc)];
    }

    /** The parameters of the request the fetch effect has in flight, and its number: the last
        request issued, sent with the query now in force. */
    method CurrentRequest() returns (query: Query, gen: nat)
      requires Valid()
      ensures gen == |issued| - 1 && query == issued[gen]
      ensures query.filter == appliedFilter && query.page == page && query.limit == 25 && query.sort == sortOrder
    {
      query := Query(appliedFilter, page, ItemsPerPage, sortOrder);
      gen := generation;
    }

    /** Re-runs the fetch effect if the query differs from `before`: aborting the previous request
        amounts to making its number stale. */
    method Refetch(before: Query)
      modifies this`generation, this`issued
      ensures generation == if Snapshot().CurrentQuery() != before then old(generation) + 1 else old(generation)
      ensures issued == if Snapshot().CurrentQuery() != before then old(issued) + [Snapshot().CurrentQuery()] else old(issued)
    {
      if Query(appliedFilter, page, ItemsPerPage, sortOrder) != before {
        generation := generation + 1;
        issued := issued + [Query(appliedFilter, page, ItemsPerPage, sortOrder)];
      }
    }

    method EditDraft(text: string)
      requires Valid()
      modifies this
      ensures Valid() && Snapshot() == old(Snapshot()).EditDraft(text)
      ensures issued == Logged(old(issued), old(Snapshot()), Snapshot())
    {
      draftFilter := text;
    }

    method ApplyFilter()
      requires Valid()
      modifies this
      ensures Valid() && Snapshot() == old(Snapshot()).ApplyFilter()
      ensures issued == Logged(old(issued), old(Snapshot()), Snapshot())
    {
      ghost var was := Snapshot();
      var before := Snapshot().CurrentQuery();
      var trimmed := Trim(draftFilter);
      ghost var mid := was.(page := 1, appliedFilter := trimmed, selectedIds := {});
      assert mid.Refetch(was) == was.ApplyFilter();
      page := 1;
      appliedFilter := trimmed;
      selectedIds := {};
      assert Snapshot() == mid;
      Refetch(before);
      assert Snapshot() == mid.Refetch(was);
    }

    method ClearFilter()
      requires Valid()
      modifies this
      ensures Valid() && Snapshot() == old(Snapshot()).ClearFilter()
      ensures issued == Logged(old(issued), old(Snapshot()), Snapshot())
    {
      var before := Snapshot().CurrentQuery();
      draftFilter := "";
      appliedFilter := "";
      page := 1;
      selectedIds := {};
      Refetch(before);
    }

    /** The check box of item `id` was set to `checked`. */
    method HandleCheck(id: string, checked: bool)
      requires Valid()
      modifies this
      ensures Valid() && Snapshot() == old(Snapshot()).Check(id, checked)
      ensures issued == Logged(old(issued), old(Snapshot()), Snapshot())
    {
      var newSet := selectedIds;
      if checked {
        newSet := newSet + {id};
      } else {
        newSet := newSet - {id};
      }
      selectedIds := newSet;
    }

    method SelectAllVisible()
      requires Valid()
      modifies this
      ensures Valid() && Snapshot() == old(Snapshot()).SelectAllVisible()
      ensures issued == Logged(old(issued), old(Snapshot()), Snapshot())
    {
      var visible, prior := subscriptions, selectedIds;
      var newSet := prior;
      for i := 0 to |visible|
        invariant newSet == prior + Ids(visible[..i])
      {
        assert visible[..i + 1][..i] == visible[..i];
        newSet := newSet + {visible[i].id};
      }
      assert visible[..|visible|] == visible;
      selectedIds := newSet;
    }

    method DeselectAllVisible()
      requires Valid()
      modifies this
      ensures Valid() && Snapshot() == old(Snapshot()).DeselectAllVisible()
      ensures issued == Logged(old(issued), old(Snapshot()), Snapshot())
    {
      var visible, prior := subscriptions, selectedIds;
      var newSet := prior;
      for i := 0 to |visible|
        invariant newSet == prior - Ids(visible[..i])
      {
        assert visible[..i + 1][..i] == visible[..i];
        newSet := newSet - {visible[i].id};
      }
      assert visible[..|visible|] == visible;
      selectedIds := newSet;
    }

    method PrevPage()
      requires Valid()
      modifies this
      ensures Valid() && Snapshot() == old(Snapshot()).PrevPage()
      ensures issued == Logged(old(issued), old(Snapshot()), Snapshot())
    {
      var before := Snapshot().CurrentQuery();
      page := if page - 1 < 1 then 1 else page - 1;
      Refetch(before);
    }

    method NextPage()
      requires Valid()
      modifies this
      ensures Valid() && Snapshot() == old(Snapshot()).NextPage()
      ensures issued == Logged(old(issued), old(Snapshot()), Snapshot())
    {
      var before := Snapshot().CurrentQuery();
      page := page + 1;
      Refetch(before);
    }

    method ToggleSort()
      requires Valid()
      modifies this
      ensures Valid() && Snapshot() == old(Snapshot()).ToggleSort()
      ensures issued == Logged(old(issued), old(Snapshot()), Snapshot())
    {
      var before := Snapshot().CurrentQuery();
      sortOrder := if sortOrder == Asc then Desc else Asc;
      Refetch(before);
    }

    /** The answer to the unsubscribe request that posted `sent`, the selection at the click. */
    method HandleUnsubscribe(sent: set<string>, ok: bool)
      requires Valid()
      modifies this
      ensures Valid() && Snapshot() == old(Snapshot()).Unsubscribe(sent, ok)
      ensures issued == Logged(old(issued), old(Snapshot()), Snapshot())
    {
      if ok {
        subscriptions := Without(subscriptions, sent);
        selectedIds := {};
      }
    }

    /** The outcome of request number `gen` arrives. */
    method Deliver(gen: nat, response: Response)
      requires Valid()
      modifies this
      ensures Valid() && Snapshot() == old(Snapshot()).Deliver(gen, response)
      ensures (subscriptions, total) != old((subscriptions, total)) ==> issued[gen] == Snapshot().CurrentQuery()
      ensures issued == Logged(old(issued), old(Snapshot()), Snapshot())
    {
      if gen == generation && response.Ok? {
        subscriptions := ItemsOf(response.body);
        total := TotalOf(response.body);
      }
    }
  }
}
