/** The page's state as a value, with one transition per event the page reacts to. The class in
    module Page is specified by these transitions; the lemmas here are what they guarantee. */
module PageState {
  import opened Text
  import opened Payload
  import opened Selection

  const ItemsPerPage: int := 25

  datatype SortOrder = Asc | Desc

  /** What the fetch effect depends on; also the query parameters of the request it sends. */
  datatype Query = Query(filter: string, page: int, limit: int, sort: SortOrder)

  /** How a request for the subscriptions ended. `HttpError` is a response whose `ok` is false;
      `NetworkError` covers every other exception; `Aborted` is the `AbortError` of a cancelled request. */
  datatype Response = Ok(body: RawPayload) | HttpError(status: int) | NetworkError | Aborted

  /** The state held by the page. `generation` numbers the latest request issued; the request sent
      when the page is first shown is number 0. */
  datatype View = View(
    subscriptions: seq<Subscription>,
    total: int,
    selectedIds: set<string>,
    draftFilter: string,
    appliedFilter: string,
    sortOrder: SortOrder,
    page: int,
    generation: nat)
  {
    ghost predicate Valid() { page >= 1 }

    function CurrentQuery(): Query
    {
      Query(appliedFilter, page, ItemsPerPage, sortOrder)
    }

    /** The fetch effect runs again exactly when the query it depends on differs from the one
        before the event; running it cancels the previous request and issues a new one. */
    function Refetch(before: View): View
    {
      if CurrentQuery() != before.CurrentQuery() then this.(generation := before.generation + 1) else this
    }

    function EditDraft(text: string): View
    {
      this.(draftFilter := text)
    }

    function ApplyFilter(): View
    {
      this.(page := 1, appliedFilter := Trim(draftFilter), selectedIds := {}).Refetch(this)
    }

    function ClearFilter(): View
    {
      this.(draftFilter := "", appliedFilter := "", page := 1, selectedIds := {}).Refetch(this)
    }

    function Check(id: string, checked: bool): View
    {
      this.(selectedIds := if checked then selectedIds + {id} else selectedIds - {id})
    }

    function SelectAllVisible(): View
    {
      this.(selectedIds := selectedIds + Ids(subscriptions))
    }

    function DeselectAllVisible(): View
    {
      this.(selectedIds := selectedIds - Ids(subscriptions))
    }

    function PrevPage(): View
    {
      this.(page := if page - 1 < 1 then 1 else page - 1).Refetch(this)
    }

    function NextPage(): View
    {
      this.(page := page + 1).Refetch(this)
    }

    function ToggleSort(): View
    {
      this.(sortOrder := if sortOrder == Asc then Desc else Asc).Refetch(this)
    }

    /** The end of a bulk unsubscribe that posted the ids `sent` (the selection when it was clicked). */
    function Unsubscribe(sent: set<string>, ok: bool): View
    {
      if ok then this.(subscriptions := Without(subscriptions, sent), selectedIds := {}) else this
    }

    /** The arrival of the outcome of request number `gen`. */
    function Deliver(gen: nat, response: Response): View
    {
      if gen == generation && response.Ok?
      then this.(subscriptions := ItemsOf(response.body), total := TotalOf(response.body))
      else this
    }

    /** The "previous" button is enabled: on a valid page, exactly when pressing it would move. */
    function CanGoPrev(): (enabled: bool)
      ensures page >= 1 ==> (enabled <==> PrevPage().page != page)
    {
      page > 1
    }

    /** The "next" button is enabled: exactly when the first item of the page that "next" would
        show lies below the reported total. */
    function CanGoNext(): (enabled: bool)
      ensures enabled <==> FirstOffset(NextPage().page) < total
    {
      page * ItemsPerPage < total
    }
  }

  /** The position in the whole result list of the first item shown on page `p`. */
  function FirstOffset(p: int): int
  {
    (p - 1) * ItemsPerPage
  }

  /** The page as first shown. */
  const Initial: View := View([], 0, {}, "", "", Desc, 1, 0)

  /** The events a page reacts to, in the order they happen. */
  datatype Action =
    | Typed(text: string)
    | Apply
    | Clear
    | Checked(id: string, checked: bool)
    | SelectVisible
    | DeselectVisible
    | Prev
    | Next
    | FlipSort
    | Unsubscribed(sent: set<string>, ok: bool)
    | Delivered(gen: nat, response: Response)

  function Step(v: View, a: Action): View
  {
    match a
    case Typed(text) => v.EditDraft(text)
    case Apply => v.ApplyFilter()
    case Clear => v.ClearFilter()
    case Checked(id, checked) => v.Check(id, checked)
    case SelectVisible => v.SelectAllVisible()
    case DeselectVisible => v.DeselectAllVisible()
    case Prev => v.PrevPage()
    case Next => v.NextPage()
    case FlipSort => v.ToggleSort()
    case Unsubscribed(sent, ok) => v.Unsubscribe(sent, ok)
    case Delivered(gen, response) => v.Deliver(gen, response)
  }

  function Run(v: View, acts: seq<Action>): View
    decreases |acts|
  {
    if acts == [] then v else Run(Step(v, acts[0]), acts[1..])
  }

  /** A delivery that its step ignores: a response to a superseded request, or a failure. */
  predicate Ignored(v: View, a: Action)
  {
    a.Delivered? && (a.gen != v.generation || !a.response.Ok?)
  }

  /** The events of `acts` with every ignored delivery taken out, judged at the state it arrives in. */
  function Prune(v: View, acts: seq<Action>): seq<Action>
    decreases |acts|
  {
    if acts == [] then []
    else if Ignored(v, acts[0]) then Prune(v, acts[1..])
    else [acts[0]] + Prune(Step(v, acts[0]), acts[1..])
  }

  /** The queries issued so far, extended by the one `after` issued if the event from `before` to
      `after` issued a request. */
  function Logged(issued: seq<Query>, before: View, after: View): seq<Query>
  {
    if after.generation != before.generation then issued + [after.CurrentQuery()] else issued
  }

  /** `issued[n]` is the query request number `n` was sent with, and the latest one is in force. */
  predicate Tracks(issued: seq<Query>, v: View)
  {
    |issued| == v.generation + 1 && issued[v.generation] == v.CurrentQuery()
  }

  /** The queries issued while a sequence of events runs from `v`. */
  function History(v: View, acts: seq<Action>, issued: seq<Query>): seq<Query>
    decreases |acts|
  {
    if acts == [] then issued else History(Step(v, acts[0]), acts[1..], Logged(issued, v, Step(v, acts[0])))
  }

  // ---- Filter ---------------------------------------------------------------------------------

  /** Applying the filter goes back to page 1, empties the selection and applies the trimmed draft;
      a new request is issued exactly when that changes the query. */
  lemma ApplyFilterResets(v: View)
    ensures v.ApplyFilter().page == 1 && v.ApplyFilter().selectedIds == {}
    ensures v.ApplyFilter().appliedFilter == Trim(v.draftFilter)
    ensures v.ApplyFilter().draftFilter == v.draftFilter && v.ApplyFilter().sortOrder == v.sortOrder
    ensures v.ApplyFilter().subscriptions == v.subscriptions && v.ApplyFilter().total == v.total
    ensures v.ApplyFilter().generation
            == if Trim(v.draftFilter) != v.appliedFilter || v.page != 1 then v.generation + 1 else v.generation
  {
  }

  /** Clearing the filter empties both the draft and the applied filter, goes back to page 1 and
      empties the selection. */
  lemma ClearFilterResets(v: View)
    ensures v.ClearFilter().draftFilter == "" && v.ClearFilter().appliedFilter == ""
    ensures v.ClearFilter().page == 1 && v.ClearFilter().selectedIds == {}
    ensures v.ClearFilter().sortOrder == v.sortOrder && v.ClearFilter().subscriptions == v.subscriptions
    ensures v.ClearFilter().total == v.total
    ensures v.ClearFilter().generation
            == if v.appliedFilter != "" || v.page != 1 then v.generation + 1 else v.generation
  {
  }

  /** Applying an already applied (and trimmed) filter on page 1 only drops the selection. */
  lemma ReapplyOnlyClearsSelection(v: View)
    requires v.page == 1 && v.appliedFilter == Trim(v.draftFilter)
    ensures v.ApplyFilter() == v.(selectedIds := {})
  {
  }

  // ---- Selection ------------------------------------------------------------------------------

  /** A check box adds or removes its id, is idempotent, and no other id changes membership. */
  lemma CheckLaws(v: View, id: string, checked: bool)
    ensures checked ==> v.Check(id, checked).selectedIds == v.selectedIds + {id}
    ensures !checked ==> v.Check(id, checked).selectedIds == v.selectedIds - {id}
    ensures v.Check(id, checked).Check(id, checked) == v.Check(id, checked)
    ensures forall x :: x != id ==> (x in v.Check(id, checked).selectedIds <==> x in v.selectedIds)
    ensures v.Check(id, checked) == v.(selectedIds := v.Check(id, checked).selectedIds)
  {
  }

  /** Selecting and deselecting the visible items touches only visible ids. */
  lemma VisibleSelectionLaws(v: View)
    ensures v.SelectAllVisible().selectedIds == v.selectedIds + Ids(v.subscriptions)
    ensures v.DeselectAllVisible().selectedIds == v.selectedIds - Ids(v.subscriptions)
    ensures forall x :: x !in Ids(v.subscriptions) ==>
      (x in v.SelectAllVisible().selectedIds <==> x in v.selectedIds) &&
      (x in v.DeselectAllVisible().selectedIds <==> x in v.selectedIds)
  {
  }

  /** Select-all then deselect-all leaves the selection minus the visible ids: a no-op exactly when
      no visible id was selected before. */
  lemma SelectThenDeselect(v: View)
    ensures v.SelectAllVisible().DeselectAllVisible().selectedIds == v.selectedIds - Ids(v.subscriptions)
    ensures v.SelectAllVisible().DeselectAllVisible() == v <==> v.selectedIds !! Ids(v.subscriptions)
  {
    var w := v.SelectAllVisible().DeselectAllVisible();
    if w == v {
      forall x | x in v.selectedIds ensures x !in Ids(v.subscriptions) {
        assert x in w.selectedIds;
      }
    }
  }

  // ---- Bulk unsubscribe -----------------------------------------------------------------------

  /** A successful unsubscribe of the ids that were posted removes every item carrying one of them
      and nothing else, keeps the order of the rest and empties the selection, whatever the
      selection became while the request was in flight. */
  lemma {:induction false} UnsubscribeSucceeded(v: View, sent: set<string>, s: Subscription)
    ensures v.Unsubscribe(sent, true).selectedIds == {}
    ensures Ids(v.Unsubscribe(sent, true).subscriptions) == Ids(v.subscriptions) - sent
    ensures multiset(v.Unsubscribe(sent, true).subscriptions)[s]
            == if s.id in sent then 0 else multiset(v.subscriptions)[s]
    ensures forall a, b :: v.subscriptions == a + b ==>
      v.Unsubscribe(sent, true).subscriptions == Without(a, sent) + Without(b, sent)
    ensures v.Unsubscribe(sent, true).(subscriptions := v.subscriptions, selectedIds := v.selectedIds) == v
  {
    WithoutRemovesIds(v.subscriptions, sent);
    WithoutCount(v.subscriptions, sent, s);
    forall a, b | v.subscriptions == a + b
      ensures Without(v.subscriptions, sent) == Without(a, sent) + Without(b, sent)
    {
      WithoutConcat(a, b, sent);
    }
  }

  /** A refused unsubscribe changes nothing. */
  lemma UnsubscribeFailed(v: View, sent: set<string>)
    ensures v.Unsubscribe(sent, false) == v
  {
  }

  // ---- Pagination and sorting -----------------------------------------------------------------

  /** The buttons' conditions, and what the page buttons do. */
  lemma PagingLaws(v: View)
    ensures v.CanGoPrev() <==> v.page > 1
    ensures v.CanGoNext() <==> v.page * ItemsPerPage < v.total
    ensures v.NextPage().page == v.page + 1
    ensures v.PrevPage().page == if v.page - 1 >= 1 then v.page - 1 else 1
    ensures v.NextPage().selectedIds == v.selectedIds && v.PrevPage().selectedIds == v.selectedIds
    ensures v.NextPage().appliedFilter == v.appliedFilter && v.NextPage().sortOrder == v.sortOrder
    ensures v.PrevPage().appliedFilter == v.appliedFilter && v.PrevPage().sortOrder == v.sortOrder
  {
  }

  /** Where "previous" is disabled, pressing it would change nothing: no new request either. */
  lemma PrevAtFirstPage(v: View)
    requires v.Valid() && !v.CanGoPrev()
    ensures v.PrevPage() == v
  {
  }

  /** Toggling the sort order twice restores everything but the request counter, which has moved on
      by two; the sort toggle never touches the page, the filter or the selection. */
  lemma ToggleSortTwice(v: View)
    ensures v.ToggleSort().sortOrder != v.sortOrder
    ensures v.ToggleSort().page == v.page && v.ToggleSort().appliedFilter == v.appliedFilter
    ensures v.ToggleSort().selectedIds == v.selectedIds
    ensures v.ToggleSort().ToggleSort() == v.(generation := v.generation + 2)
  {
  }

  // ---- Requests -------------------------------------------------------------------------------

  /** A failed, refused or cancelled request, or one that has been superseded, changes nothing. */
  lemma DeliverIgnored(v: View, gen: nat, response: Response)
    requires gen != v.generation || !response.Ok?
    ensures v.Deliver(gen, response) == v
  {
  }

  /** The response to the latest request replaces the list and the total, and nothing else. */
  lemma DeliverLatest(v: View, body: RawPayload)
    ensures v.Deliver(v.generation, Ok(body)).subscriptions == ItemsOf(body)
    ensures v.Deliver(v.generation, Ok(body)).total == TotalOf(body)
    ensures v.Deliver(v.generation, Ok(body)).(subscriptions := v.subscriptions, total := v.total) == v
  {
  }

  /** Once an event has issued a new request, the response to the previous one is dropped. */
  lemma SupersededResponseDropped(v: View, a: Action, response: Response)
    requires Step(v, a).generation != v.generation
    ensures Step(v, a).Deliver(v.generation, response) == Step(v, a)
  {
  }

  /** Every event keeps the page at 1 or more, and never moves the request counter back. */
  lemma StepKeeps(v: View, a: Action)
    requires v.Valid()
    ensures Step(v, a).Valid()
    ensures v.generation <= Step(v, a).generation <= v.generation + 1
  {
  }

  /** Any sequence of events keeps the page at 1 or more and never moves the request counter back. */
  lemma {:induction false} RunKeeps(v: View, acts: seq<Action>)
    requires v.Valid()
    ensures Run(v, acts).Valid()
    ensures v.generation <= Run(v, acts).generation <= v.generation + |acts|
    decreases |acts|
  {
    if acts != [] {
      StepKeeps(v, acts[0]);
      RunKeeps(Step(v, acts[0]), acts[1..]);
    }
  }

  /** One event keeps the log of issued queries in step with the request counter: a request is
      issued exactly when the query changes, and only then. */
  lemma StepLogs(v: View, a: Action, issued: seq<Query>)
    requires Tracks(issued, v)
    ensures Tracks(Logged(issued, v, Step(v, a)), Step(v, a))
    ensures issued <= Logged(issued, v, Step(v, a))
    ensures Step(v, a).generation != v.generation <==> Step(v, a).CurrentQuery() != v.CurrentQuery()
  {
  }

  /** After any sequence of events, request number `generation` is the last one issued, and it was
      issued with the query now in force; earlier entries of the log are never rewritten. */
  lemma {:induction false} HistoryTracksLatest(v: View, acts: seq<Action>, issued: seq<Query>)
    requires Tracks(issued, v)
    ensures Tracks(History(v, acts, issued), Run(v, acts))
    ensures issued <= History(v, acts, issued)
    decreases |acts|
  {
    if acts != [] {
      StepLogs(v, acts[0], issued);
      HistoryTracksLatest(Step(v, acts[0]), acts[1..], Logged(issued, v, Step(v, acts[0])));
    }
  }

  /** A response that changes anything answers the request issued with the query now in force. */
  lemma AppliedResponseMatchesQuery(v: View, issued: seq<Query>, gen: nat, response: Response)
    requires Tracks(issued, v)
    requires v.Deliver(gen, response) != v
    ensures gen < |issued| && issued[gen] == v.CurrentQuery() && gen == |issued| - 1
  {
  }

  /** Only responses to the request that was latest when they arrived matter: taking out every other
      delivery (and every failure) leaves the outcome of any sequence of events unchanged. */
  lemma {:induction false} OnlyLatestResponsesMatter(v: View, acts: seq<Action>)
    ensures Run(v, Prune(v, acts)) == Run(v, acts)
    decreases |acts|
  {
    if acts != [] {
      if Ignored(v, acts[0]) {
        assert Step(v, acts[0]) == v;
        OnlyLatestResponsesMatter(v, acts[1..]);
      } else {
        var rest := Prune(Step(v, acts[0]), acts[1..]);
        assert ([acts[0]] + rest)[1..] == rest;
        OnlyLatestResponsesMatter(Step(v, acts[0]), acts[1..]);
      }
    }
  }
}
