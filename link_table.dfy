/**
  Model of app/components/table.tsx: the dashboard table. Its one state cell
  holds a `TableState`; every `setState(prev => ...)` updater is a function
  from the previous state to the next, and the handlers of class
  `TableComponent` apply them in the order the component does.
*/
module LinkTable {
  import opened Wrappers
  import opened NumberText

  /** One element of the list GET /api/links returns, as the dashboard types it. */
  datatype LinkRecord = LinkRecord(
    id: int, slug: string, originalUrl: string, tracks: int, createdAt: string, shortenUrl: string)

  datatype TableState = TableState(
    data: seq<LinkRecord>,
    loading: bool,
    error: Option<string>,
    deletingSlug: Option<string>,
    selectedForDelete: Option<string>)

  /** The state the component mounts with: no rows yet, loading, nothing selected. */
  const Initial := TableState([], true, None, None, None)

  /** `a` is `b` with some elements left out, the rest in their original order. */
  ghost predicate IsSubsequence<T>(a: seq<T>, b: seq<T>)
    decreases |b|
  {
    a == [] || (b != [] && ((a[0] == b[0] && IsSubsequence(a[1..], b[1..])) || IsSubsequence(a, b[1..])))
  }

  /**
    `data.filter((url) => url.slug !== slug)`: every row with that slug is
    gone, every other row is kept as often as it occurred, in its order.
  */
  function WithoutSlug(data: seq<LinkRecord>, slug: string): (kept: seq<LinkRecord>)
    ensures forall i :: 0 <= i < |kept| ==> kept[i].slug != slug
    ensures forall x: LinkRecord :: multiset(kept)[x] == if x.slug == slug then 0 else multiset(data)[x]
    ensures IsSubsequence(kept, data)
  {
    if data == [] then []
    else
      assert data == [data[0]] + data[1..];
      var rest := WithoutSlug(data[1..], slug);
      if data[0].slug == slug then rest
      else
        assert ([data[0]] + rest)[1..] == rest;
        [data[0]] + rest
  }

  lemma {:induction false} WithoutSlugUnchanged(data: seq<LinkRecord>, slug: string)
    requires forall i :: 0 <= i < |data| ==> data[i].slug != slug
    ensures WithoutSlug(data, slug) == data
  {
    if data != [] {
      WithoutSlugUnchanged(data[1..], slug);
    }
  }

  /** Deleting the same slug twice removes nothing more the second time. */
  lemma WithoutSlugIdempotent(data: seq<LinkRecord>, slug: string)
    ensures WithoutSlug(WithoutSlug(data, slug), slug) == WithoutSlug(data, slug)
  {
    WithoutSlugUnchanged(WithoutSlug(data, slug), slug);
  }

  // ------------------------------------------------------------- updaters

  /** `fetchData`, first update: loading, error cleared. */
  function FetchStarted(prev: TableState): (next: TableState)
    ensures next.loading && next.error == None
    ensures next.data == prev.data
    ensures next.deletingSlug == prev.deletingSlug && next.selectedForDelete == prev.selectedForDelete
  {
    prev.(loading := true, error := None)
  }

  /** `fetchData` on success: the fetched list replaces `data`, loading ends. */
  function FetchSucceeded(prev: TableState, urls: seq<LinkRecord>): (next: TableState)
    ensures next.data == urls && !next.loading
    ensures next.error == prev.error
    ensures next.deletingSlug == prev.deletingSlug && next.selectedForDelete == prev.selectedForDelete
  {
    prev.(data := urls, loading := false)
  }

  /** `fetchData` on failure: loading ends with the error message, `data` stays. */
  function FetchFailed(prev: TableState, message: string): (next: TableState)
    ensures !next.loading && next.error == Some(message)
    ensures next.data == prev.data
    ensures next.deletingSlug == prev.deletingSlug && next.selectedForDelete == prev.selectedForDelete
  {
    prev.(loading := false, error := Some(message))
  }

  /** `handleDeleteClick`: only the selection changes. */
  function DeleteSelected(prev: TableState, slug: string): (next: TableState)
    ensures next.selectedForDelete == Some(slug)
    ensures next.data == prev.data && next.loading == prev.loading && next.error == prev.error
    ensures next.deletingSlug == prev.deletingSlug
  {
    prev.(selectedForDelete := Some(slug))
  }

  /** `handleConfirmDelete`, first update: the slug being deleted is recorded. */
  function DeleteStarted(prev: TableState, slug: string): (next: TableState)
    ensures next.deletingSlug == Some(slug)
    ensures next.data == prev.data && next.loading == prev.loading && next.error == prev.error
    ensures next.selectedForDelete == prev.selectedForDelete
  {
    prev.(deletingSlug := Some(slug))
  }

  /** `handleConfirmDelete` on success: the slug's rows leave `data`, and the delete is over. */
  function DeleteSucceeded(prev: TableState, slug: string): (next: TableState)
    ensures forall i :: 0 <= i < |next.data| ==> next.data[i].slug != slug
    ensures IsSubsequence(next.data, prev.data)
    ensures forall x: LinkRecord :: x.slug != slug ==> multiset(next.data)[x] == multiset(prev.data)[x]
    ensures next.deletingSlug == None && next.selectedForDelete == None
    ensures next.loading == prev.loading && next.error == prev.error
  {
    prev.(data := WithoutSlug(prev.data, slug), deletingSlug := None, selectedForDelete := None)
  }

  /** `handleConfirmDelete` on failure: `data` stays, the delete is over. */
  function DeleteFailed(prev: TableState): (next: TableState)
    ensures next.deletingSlug == None && next.selectedForDelete == None
    ensures next.data == prev.data && next.loading == prev.loading && next.error == prev.error
  {
    prev.(deletingSlug := None, selectedForDelete := None)
  }

  /** `handleCancelDelete`: only the selection is cleared. */
  function DeleteCancelled(prev: TableState): (next: TableState)
    ensures next.selectedForDelete == None
    ensures next.data == prev.data && next.loading == prev.loading && next.error == prev.error
    ensures next.deletingSlug == prev.deletingSlug
  {
    prev.(selectedForDelete := None)
  }

  // ------------------------------------------------------ what is rendered

  /** The confirmation dialog is open exactly while a slug is selected. */
  function DialogOpen(s: TableState): (open: bool)
    ensures open <==> s.selectedForDelete.Some?
  {
    s.selectedForDelete != None
  }

  /**
    The slug a click on the dialog's Delete button passes to
    `handleConfirmDelete`: none while a delete is in flight (the button is
    disabled), and none when the selection is null or empty (the `&&` guard).
  */
  function ConfirmTarget(s: TableState): (target: Option<string>)
    ensures target.Some? <==>
      s.deletingSlug.None? && s.selectedForDelete.Some? && s.selectedForDelete.value != ""
    ensures target.Some? ==> target == s.selectedForDelete
  {
    if s.deletingSlug == None && s.selectedForDelete != None && s.selectedForDelete.value != ""
    then s.selectedForDelete
    else None
  }

  /** Clicking a row's delete button opens the dialog on that row's slug, and Delete then targets it. */
  lemma ClickThenConfirmTargetsSlug(s: TableState, slug: string)
    requires s.deletingSlug.None? && slug != ""
    ensures DialogOpen(DeleteSelected(s, slug))
    ensures ConfirmTarget(DeleteSelected(s, slug)) == Some(slug)
  {
  }

  /** Cancelling closes the dialog; finishing a delete, either way, closes it and re-enables its buttons. */
  lemma DeleteEndsClosed(s: TableState, slug: string)
    ensures !DialogOpen(DeleteCancelled(s))
    ensures !DialogOpen(DeleteSucceeded(DeleteStarted(s, slug), slug)) && DeleteSucceeded(DeleteStarted(s, slug), slug).deletingSlug == None
    ensures !DialogOpen(DeleteFailed(DeleteStarted(s, slug))) && DeleteFailed(DeleteStarted(s, slug)).deletingSlug == None
  {
  }

  /** A completed fetch never leaves the table loading; success clears a previous error. */
  lemma FetchEndsLoading(s: TableState, urls: seq<LinkRecord>, message: string)
    ensures var ok := FetchSucceeded(FetchStarted(s), urls);
      !ok.loading && ok.error == None && ok.data == urls
    ensures var failed := FetchFailed(FetchStarted(s), message);
      !failed.loading && failed.error == Some(message) && failed.data == s.data
  {
  }

  /**
    How the GET request of `fetchData` ends: `Loaded` when `response.ok` holds
    and the body is read; `LoadNotOk` when it does not; `LoadThrew` when
    `fetch` or reading the body throws, with the `Error`'s message, or `None`
    when the thrown value is not an `Error`.
  */
  datatype FetchReply = Loaded(urls: seq<LinkRecord>) | LoadNotOk(status: nat) | LoadThrew(message: Option<string>)

  /** The message `fetchData`'s catch block stores. */
  function FetchFailureMessage(reply: FetchReply): (message: string)
    requires !reply.Loaded?
    ensures reply.LoadNotOk? ==> message == "Failed to fetch links (" + DecimalString(reply.status) + ")"
    ensures reply.LoadThrew? && reply.message.Some? ==> message == reply.message.value
    ensures reply == LoadThrew(None) ==> message == "Failed to load URLs"
  {
    match reply
    case LoadNotOk(status) => "Failed to fetch links (" + DecimalString(status) + ")"
    case LoadThrew(m) => if m.Some? then m.value else "Failed to load URLs"
  }

  // -------------------------------------------------------------- handlers

  class TableComponent {
    var state: TableState

    constructor ()
      ensures state == Initial
    {
      state := TableState([], true, None, None, None);
    }

    /** `fetchData`, with `reply` standing for the outcome of the GET request. */
    method FetchData(reply: FetchReply)
      modifies this
      ensures reply.Loaded? ==> state == old(state).(data := reply.urls, loading := false, error := None)
      ensures !reply.Loaded? ==>
        state == old(state).(loading := false, error := Some(FetchFailureMessage(reply)))
    {
      state := FetchStarted(state);
      match reply {
        case Loaded(urls) =>
          state := FetchSucceeded(state, urls);
        case _ =>
          state := FetchFailed(state, FetchFailureMessage(reply));
      }
    }

    /** `handleDeleteClick`. */
    method HandleDeleteClick(slug: string)
      modifies this
      ensures state == old(state).(selectedForDelete := Some(slug))
    {
      state := DeleteSelected(state, slug);
    }

    /**
      `handleConfirmDelete`, with `deleted` standing for whether the DELETE
      request answered with an ok status. `pending` is the state shown while
      the request is in flight.
    */
    method HandleConfirmDelete(slug: string, deleted: bool) returns (ghost pending: TableState)
      modifies this
      ensures pending == old(state).(deletingSlug := Some(slug))
      ensures deleted ==> state == old(state).(
        data := WithoutSlug(old(state).data, slug), deletingSlug := None, selectedForDelete := None)
      ensures !deleted ==> state == old(state).(deletingSlug := None, selectedForDelete := None)
    {
      state := DeleteStarted(state, slug);
      pending := state;
      if deleted {
        state := DeleteSucceeded(state, slug);
      } else {
        state := DeleteFailed(state);
      }
    }

    /** `handleCancelDelete`. */
    method HandleCancelDelete()
      modifies this
      ensures state == old(state).(selectedForDelete := None)
    {
      state := DeleteCancelled(state);
    }

    /** The alert dialog's `onOpenChange`: closing it cancels the selection; opening changes nothing. */
    method HandleDialogOpenChange(open: bool)
      modifies this
      ensures state == if open then old(state) else old(state).(selectedForDelete := None)
    {
      if !open {
        HandleCancelDelete();
      }
    }

    /** The dialog's Delete button: it calls `handleConfirmDelete` only on `ConfirmTarget`. */
    method ClickConfirm(deleted: bool)
      modifies this
      ensures ConfirmTarget(old(state)).None? ==> state == old(state)
      ensures ConfirmTarget(old(state)).Some? ==>
        var slug := ConfirmTarget(old(state)).value;
        state == if deleted
          then old(state).(data := WithoutSlug(old(state).data, slug), deletingSlug := None, selectedForDelete := None)
          else old(state).(deletingSlug := None, selectedForDelete := None)
    {
      var target := ConfirmTarget(state);
      if target.Some? {
        ghost var pending := HandleConfirmDelete(target.value, deleted);
      }
    }
  }
}
