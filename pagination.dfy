/** The client's cursor history (web/src/hooks/pagination.ts): the current
    cursor and a stack of the cursors of earlier pages. */
module PaginationHook {
  import opened Common

  /** The two state cells; a null cursor is None. */
  datatype PageState = PageState(cursor: Option<int>, history: seq<int>)

  function Initial(): PageState {
    PageState(None, [])
  }

  /** goToNextPage: the current cursor, when there is one, goes on the stack. */
  function Next(s: PageState, lastItemId: Option<int>): (t: PageState)
    ensures t.cursor == lastItemId
    ensures s.cursor.Some? ==> |t.history| == |s.history| + 1 && t.history[|s.history|] == s.cursor.value
    ensures s.cursor.None? ==> t.history == s.history
    ensures t.history[..|s.history|] == s.history
  {
    PageState(lastItemId, if s.cursor.Some? then s.history + [s.cursor.value] else s.history)
  }

  /** goToPreviousPage: the top of the stack becomes the cursor; an empty stack
      gives a null cursor. */
  function Previous(s: PageState): (t: PageState)
    ensures s.history == [] ==> t == Initial()
    ensures s.history != [] ==> t.cursor == Some(s.history[|s.history| - 1])
                                && t.history + [t.cursor.value] == s.history
  {
    if s.history == [] then PageState(None, [])
    else PageState(Some(s.history[|s.history| - 1]), s.history[..|s.history| - 1])
  }

  /** Going forward then back restores the state exactly when the old cursor
      was set or the stack was empty: a null cursor is not pushed, so going
      back then pops an entry that was pushed before. */
  lemma NextThenPrevious(s: PageState, lastItemId: Option<int>)
    ensures Previous(Next(s, lastItemId)) == s <==> s.cursor.Some? || s.history == []
  {
    if s.cursor.Some? {
      assert (s.history + [s.cursor.value])[..|s.history|] == s.history;
    } else if s.history != [] {
      assert Previous(Next(s, lastItemId)).cursor.Some?;
    }
  }

  /** goToNextPage and goToPreviousPage move the stack by at most one entry. */
  lemma StepsMoveHistoryByOne(s: PageState, lastItemId: Option<int>)
    ensures |Next(s, lastItemId).history| - |s.history| in {0, 1}
    ensures |s.history| - |Previous(s).history| in {0, 1}
  {
  }

  /** The state as the hook holds it between renders. */
  class Pagination {
    var cursor: Option<int>
    var cursorHistory: seq<int>

    function State(): PageState
      reads this
    {
      PageState(cursor, cursorHistory)
    }

    constructor ()
      ensures State() == Initial()
    {
      cursor := None;
      cursorHistory := [];
    }

    method GoToNextPage(lastItemId: Option<int>)
      modifies this
      ensures State() == Next(old(State()), lastItemId)
    {
      if cursor.Some? {
        cursorHistory := cursorHistory + [cursor.value];
      }
      cursor := lastItemId;
    }

    method GoToPreviousPage()
      modifies this
      ensures State() == Previous(old(State()))
    {
      var newHistory := cursorHistory;
      var previousCursor: Option<int> := None;
      if |newHistory| > 0 {
        previousCursor := Some(newHistory[|newHistory| - 1]);
        newHistory := newHistory[..|newHistory| - 1];
      }
      cursorHistory := newHistory;
      cursor := previousCursor;
    }

    method ResetPagination()
      modifies this
      ensures State() == Initial()
    {
      cursor := None;
      cursorHistory := [];
    }
  }
}
