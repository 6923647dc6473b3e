/**
 * The generic user table: the processed column list (an actions column is
 * added once when handlers are given), the actions cell with its guarded
 * buttons and click traces, the pagination summary and the page buttons.
 * Row models, sorting and paging themselves belong to the table library and
 * enter as `pageIndex`, `pageSize`, `pageCount` and the row total.
 */
module UserTable {
  import opened Wrappers
  import opened Events

  /** Where a column's cells come from: the caller's definition, or the generated actions cell. */
  datatype CellSource = CallerCell | ActionsCell

  datatype ColumnDef = ColumnDef(id: Option<string>, header: string, cell: CellSource)

  const ActionsColumn := ColumnDef(Some("actions"), "Actions", ActionsCell)

  predicate IsActions(c: ColumnDef) {
    c.id == Some("actions")
  }

  /** `columns.some(col => col.id === "actions")` */
  predicate HasActionsColumn(columns: seq<ColumnDef>) {
    exists i :: 0 <= i < |columns| && IsActions(columns[i])
  }

  /** The number of columns whose id is "actions". */
  function ActionsCount(columns: seq<ColumnDef>): nat {
    if |columns| == 0 then 0
    else ActionsCount(columns[..|columns| - 1]) + (if IsActions(columns[|columns| - 1]) then 1 else 0)
  }

  lemma {:induction false} ActionsCountPositive(columns: seq<ColumnDef>)
    ensures ActionsCount(columns) > 0 <==> HasActionsColumn(columns)
    decreases |columns|
  {
    if |columns| > 0 {
      var init := columns[..|columns| - 1];
      ActionsCountPositive(init);
      if HasActionsColumn(init) {
        var i :| 0 <= i < |init| && IsActions(init[i]);
        assert IsActions(columns[i]);
      }
      if HasActionsColumn(columns) && !IsActions(columns[|columns| - 1]) {
        var i :| 0 <= i < |columns| && IsActions(columns[i]);
        assert IsActions(init[i]);
      }
    }
  }

  /** `processedColumns` */
  function ProcessedColumns(columns: seq<ColumnDef>, hasDelete: bool, hasEdit: bool): (r: seq<ColumnDef>)
    ensures |r| >= |columns| && r[..|columns|] == columns
    ensures |r| == |columns| + (if (hasDelete || hasEdit) && !HasActionsColumn(columns) then 1 else 0)
    ensures |r| > |columns| ==> r[|columns|] == ActionsColumn
  {
    if !hasDelete && !hasEdit then columns
    else if HasActionsColumn(columns) then columns
    else columns + [ActionsColumn]
  }

  /**
   * With a handler, the result holds an actions column, and exactly one when
   * the caller supplied none; the caller's own actions columns are never doubled.
   */
  lemma ActionsColumnOnce(columns: seq<ColumnDef>, hasDelete: bool, hasEdit: bool)
    requires hasDelete || hasEdit
    ensures HasActionsColumn(ProcessedColumns(columns, hasDelete, hasEdit))
    ensures ActionsCount(ProcessedColumns(columns, hasDelete, hasEdit))
         == if HasActionsColumn(columns) then ActionsCount(columns) else 1
  {
    var r := ProcessedColumns(columns, hasDelete, hasEdit);
    ActionsCountPositive(columns);
    if !HasActionsColumn(columns) {
      assert r[..|r| - 1] == columns;
      assert IsActions(r[|r| - 1]);
    }
    ActionsCountPositive(r);
  }

  /** Processing the processed columns again changes nothing. */
  lemma ProcessedColumnsIdempotent(columns: seq<ColumnDef>, hasDelete: bool, hasEdit: bool)
    ensures ProcessedColumns(ProcessedColumns(columns, hasDelete, hasEdit), hasDelete, hasEdit)
         == ProcessedColumns(columns, hasDelete, hasEdit)
  {
    if hasDelete || hasEdit {
      ActionsColumnOnce(columns, hasDelete, hasEdit);
    }
  }

  datatype ActionButton = EditButton | DeleteButton

  /** The buttons in the generated actions cell, left to right. */
  function ActionsCellButtons(hasEdit: bool, hasDelete: bool, userId: Option<string>): (r: seq<ActionButton>)
    ensures EditButton in r <==> hasEdit
    ensures DeleteButton in r <==> hasDelete && Truthy(userId)
    ensures |r| <= 2 && (|r| == 2 ==> r == [EditButton, DeleteButton])
  {
    (if hasEdit then [EditButton] else []) + (if hasDelete && Truthy(userId) then [DeleteButton] else [])
  }

  /** What the caller's handlers are asked to do. */
  datatype UserAction<R> = EditUser(user: R) | DeleteUser(userId: string)

  /** `ActionButton`'s click: stop propagation, prevent default, then the callback's own trace. */
  function ActionButtonClick<A>(callback: seq<Effect<A>>): (r: seq<Effect<A>>)
    ensures |r| == |callback| + 2
    ensures StopsFirst(r) && r[1].PreventDefault?
    ensures r[2..] == callback
    ensures Invocations(r) == Invocations(callback)
  {
    InvocationsAppend([StopPropagation, PreventDefault], callback);
    assert Invocations<A>([StopPropagation, PreventDefault]) == 0 by {
      var two: seq<Effect<A>> := [StopPropagation, PreventDefault];
      assert two[..1] == [StopPropagation];
      InvocationsOfOne<A>(StopPropagation);
    }
    [StopPropagation, PreventDefault] + callback
  }

  /** A click on Edit. */
  function EditClick<R>(user: R): seq<Effect<UserAction<R>>> {
    ActionButtonClick([Invoke(EditUser(user))])
  }

  /** A click on Delete, with the answer to the confirmation prompt. */
  function DeleteClick<R>(userId: string, confirmed: bool): seq<Effect<UserAction<R>>> {
    ActionButtonClick([AskConfirm] + if confirmed then [Invoke(DeleteUser(userId))] else [])
  }

  /** Edit always calls its handler, once, after the event is stopped. */
  lemma EditCallsOnce<R>(user: R)
    ensures StopsFirst(EditClick(user))
    ensures Invocations(EditClick(user)) == 1
    ensures EditClick(user)[|EditClick(user)| - 1] == Invoke(EditUser(user))
  {
    InvocationsOfOne<UserAction<R>>(Invoke(EditUser(user)));
  }

  /** Delete calls the handler with the row id exactly when the prompt is accepted; declining does nothing else. */
  lemma DeleteGatedByConfirm<R>(userId: string, confirmed: bool)
    ensures StopsFirst(DeleteClick<R>(userId, confirmed))
    ensures Invocations(DeleteClick<R>(userId, confirmed)) == if confirmed then 1 else 0
    ensures confirmed ==> DeleteClick<R>(userId, confirmed)[3] == Invoke(DeleteUser(userId))
    ensures !confirmed ==> DeleteClick<R>(userId, confirmed) == [StopPropagation, PreventDefault, AskConfirm]
  {
    var tail: seq<Effect<UserAction<R>>> := if confirmed then [Invoke(DeleteUser(userId))] else [];
    InvocationsAppend([AskConfirm], tail);
    InvocationsOfOne<UserAction<R>>(AskConfirm);
    InvocationsOfOne<UserAction<R>>(Invoke(DeleteUser(userId)));
  }

  /** The numbers in "Showing <first> to <last> of <total> results". */
  datatype Summary = Summary(first: int, last: int, total: nat)

  function PaginationSummary(pageIndex: nat, pageSize: nat, total: nat): (s: Summary)
    ensures s.total == total
    ensures s.first == pageIndex * pageSize + 1
    ensures s.last <= total && s.last <= (pageIndex + 1) * pageSize
    ensures s.last == total || s.last == (pageIndex + 1) * pageSize
  {
    var end := (pageIndex + 1) * pageSize;
    Summary(pageIndex * pageSize + 1, if end <= total then end else total, total)
  }

  /** The rows of page `pageIndex` (the slice the table library shows). */
  function PageRows<T>(rows: seq<T>, pageIndex: nat, pageSize: nat): seq<T> {
    var start := pageIndex * pageSize;
    var end := (pageIndex + 1) * pageSize;
    if start >= |rows| then []
    else if end <= |rows| then rows[start..end]
    else rows[start..]
  }

  /**
   * On a page that holds rows, the summary names exactly that page's rows:
   * 1-based row `first + k` is the page's k-th row.
   */
  lemma SummaryMatchesPage<T>(rows: seq<T>, pageIndex: nat, pageSize: nat)
    requires pageSize > 0 && pageIndex * pageSize < |rows|
    ensures var s := PaginationSummary(pageIndex, pageSize, |rows|);
      && 1 <= s.first <= s.last <= |rows|
      && |PageRows(rows, pageIndex, pageSize)| == s.last - s.first + 1
      && forall k :: 0 <= k < s.last - s.first + 1 ==> PageRows(rows, pageIndex, pageSize)[k] == rows[s.first - 1 + k]
  {
    assert (pageIndex + 1) * pageSize == pageIndex * pageSize + pageSize;
  }

  /** An empty table reads "Showing 1 to 0 of 0 results" on its first page. */
  lemma EmptySummary()
    ensures PaginationSummary(0, 10, 0) == Summary(1, 0, 0)
  {
  }

  datatype PageButton = PageButton(index: nat, number: nat, current: bool)

  /** One button per page index, labelled from 1, the current one highlighted. */
  function PageButtons(pageCount: nat, pageIndex: nat): (r: seq<PageButton>)
    ensures |r| == pageCount
    ensures forall i :: 0 <= i < pageCount ==>
      r[i].index == i && r[i].number == i + 1 && (r[i].current <==> i == pageIndex)
  {
    seq(pageCount, i requires 0 <= i < pageCount => PageButton(i, i + 1, i == pageIndex))
  }

  function CurrentCount(buttons: seq<PageButton>): nat {
    if |buttons| == 0 then 0
    else CurrentCount(buttons[..|buttons| - 1]) + (if buttons[|buttons| - 1].current then 1 else 0)
  }

  /** Exactly one button is highlighted when the page index is in range, none otherwise. */
  lemma {:induction false} OneCurrentPage(pageCount: nat, pageIndex: nat)
    ensures CurrentCount(PageButtons(pageCount, pageIndex)) == if pageIndex < pageCount then 1 else 0
    decreases pageCount
  {
    if pageCount > 0 {
      var r := PageButtons(pageCount, pageIndex);
      assert r[..pageCount - 1] == PageButtons(pageCount - 1, pageIndex);
      OneCurrentPage(pageCount - 1, pageIndex);
    }
  }
}
