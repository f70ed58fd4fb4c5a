/**
  The home page: today's services and their summary, the save handler that dispatches to
  the store, the guards on the clear, share and PDF actions, and the vertical positions
  at which the PDF report draws its rows.
*/
module HomePage {
  import opened Wrappers
  import opened Domain
  import opened Dates
  import opened Seqs
  import opened Summaries
  import opened ServicesStore

  /** The services the page shows: those dated today, in store order. */
  function TodayServices(all: seq<Service>, today: Date): seq<Service>
  {
    Filter(all, TodayOf(today))
  }

  /** Exactly the services dated today are shown, each as often as it is stored, in the
      store's order. */
  lemma TodayServicesExactly(all: seq<Service>, more: seq<Service>, today: Date)
    ensures forall x :: multiset(TodayServices(all, today))[x] == if IsToday(x, today) then multiset(all)[x] else 0
    ensures TodayServices(all + more, today) == TodayServices(all, today) + TodayServices(more, today)
  {
    FilterCounts(all, TodayOf(today));
    FilterAppend(all, more, TodayOf(today));
  }

  /** The daily summary: the reduce over today's services (its count is not displayed). */
  function DailySummary(all: seq<Service>, today: Date): Totals
  {
    TotalsOf(TodayServices(all, today))
  }

  /** The day's total is its cash part plus its online part; the cash part is what today's
      "dinheiro" services cost, and every other service is counted online. */
  lemma DailySummaryBalanced(all: seq<Service>, today: Date)
    ensures DailySummary(all, today).total == DailySummary(all, today).dinheiro + DailySummary(all, today).online
    ensures DailySummary(all, today).dinheiro == PriceSum(Filter(TodayServices(all, today), CashOf()))
    ensures DailySummary(all, today).online == PriceSum(Filter(TodayServices(all, today), OnlineOf()))
    ensures DailySummary(all, today).total == PriceSum(TodayServices(all, today))
  {
    SummaryBalanced(TodayServices(all, today));
    FoldTotalsSplit(NoTotals, TodayServices(all, today));
  }

  /** Clear, share and PDF are disabled when nothing is dated today. */
  predicate ActionsDisabled(all: seq<Service>, today: Date)
  {
    |TodayServices(all, today)| == 0
  }

  /** The actions are disabled exactly when no stored service is dated today, and an enabled
      clear always removes at least one service. */
  lemma ActionsDisabledMeans(all: seq<Service>, today: Date)
    ensures ActionsDisabled(all, today) <==> forall i :: 0 <= i < |all| ==> !IsToday(all[i], today)
    ensures !ActionsDisabled(all, today) ==> |ClearToday(all, today)| < |all|
  {
    FilterCounts(all, TodayOf(today));
    if !ActionsDisabled(all, today) {
      var t := TodayServices(all, today);
      assert multiset(t)[t[0]] > 0;
      var i :| 0 <= i < |all| && all[i] == t[0];
      FilterShrinks(all, NotTodayOf(today), i);
    } else {
      forall i | 0 <= i < |all| ensures !IsToday(all[i], today) {
        assert multiset(all)[all[i]] > 0;
      }
    }
  }

  /** After clearing, the page shows nothing and its actions are disabled. */
  lemma ClearedDayIsEmpty(all: seq<Service>, today: Date)
    ensures TodayServices(ClearToday(all, today), today) == []
    ensures ActionsDisabled(ClearToday(all, today), today)
  {
    var c := ClearToday(all, today);
    FilterCounts(c, TodayOf(today));
    if TodayServices(c, today) != [] {
      assert false;
    }
  }

  /** The first row's y: the table header sits at 110 and the rows start 8 below it. */
  const FirstRowY: int := 118
  const RowStep: int := 7
  /** Past this y a new page begins. */
  const PageBottom: int := 280
  /** Where the rows resume on a new page. */
  const PageTop: int := 20

  /** Rows on the first page (118, 125, ..., 279) and on every later page (20, 27, ..., 279). */
  const FirstPageRows: nat := 24
  const PageRows: nat := 38

  /** Where row `i` is drawn. */
  function RowY(i: nat): int
  {
    if i < FirstPageRows then FirstRowY + RowStep * i
    else PageTop + RowStep * ((i - FirstPageRows) % PageRows)
  }

  /** How many pages have been added once row `i` is drawn. */
  function PagesAdded(i: nat): nat
  {
    if i < FirstPageRows then 0 else 1 + (i - FirstPageRows) / PageRows
  }

  /** Every row is drawn between the top and the bottom margin. */
  lemma RowsInsideMargins(i: nat)
    ensures PageTop <= RowY(i) <= PageBottom
  {
  }

  lemma PageStep(j: int)
    requires j >= 1
    ensures (j - 1) % 38 == 37 ==> j % 38 == 0 && j / 38 == (j - 1) / 38 + 1
    ensures (j - 1) % 38 < 37 ==> j % 38 == (j - 1) % 38 + 1 && j / 38 == (j - 1) / 38
  {
  }

  /** The cursor `yPos` holds after row `i` is drawn. */
  function CursorAfter(i: nat): int
  {
    RowY(i) + RowStep
  }

  /** One turn of the `forEach` body: a cursor past the bottom starts a new page at the top
      margin, the row is drawn at the cursor, and the cursor moves one step down. */
  lemma RowStepMatches(i: nat)
    ensures var y := if i == 0 then FirstRowY else CursorAfter(i - 1);
      && (y > PageBottom ==> RowY(i) == PageTop && PagesAdded(i) == PagesAdded(i - 1) + 1)
      && (y <= PageBottom ==> RowY(i) == y && PagesAdded(i) == if i == 0 then 0 else PagesAdded(i - 1))
  {
    if i > FirstPageRows {
      PageStep(i - FirstPageRows);
    }
  }

  /** The PDF loop over today's `n` services: the y of every row and the number of pages it
      adds. */
  method LayOutRows(n: nat) returns (ys: seq<int>, pages: nat)
    ensures |ys| == n
    ensures forall i :: 0 <= i < n ==> ys[i] == RowY(i) && PageTop <= ys[i] <= PageBottom
    ensures pages == if n == 0 then 0 else PagesAdded(n - 1)
  {
    var yPos := FirstRowY;
    ys := [];
    pages := 0;
    for i := 0 to n
      invariant |ys| == i
      invariant forall k :: 0 <= k < i ==> ys[k] == RowY(k)
      invariant yPos == if i == 0 then FirstRowY else CursorAfter(i - 1)
      invariant pages == if i == 0 then 0 else PagesAdded(i - 1)
    {
      RowStepMatches(i);
      if yPos > PageBottom {
        pages := pages + 1;
        yPos := PageTop;
      }
      ys := ys + [yPos];
      yPos := yPos + RowStep;
    }
    forall i | 0 <= i < n ensures PageTop <= ys[i] <= PageBottom {
      RowsInsideMargins(i);
    }
  }

  /** The page's own state, over the service store it dispatches to. */
  class Home {
    var isSheetOpen: bool
    var serviceToEdit: Option<Service>
    const store: ServiceStore

    constructor(store: ServiceStore)
      ensures this.store == store && !isSheetOpen && serviceToEdit == None
    {
      this.store := store;
      isSheetOpen := false;
      serviceToEdit := None;
    }

    /** `handleAddClick`. */
    method AddClick()
      modifies this
      ensures isSheetOpen && serviceToEdit == None
    {
      serviceToEdit := None;
      isSheetOpen := true;
    }

    /** `handleEditClick(service)`. */
    method EditClick(s: Service)
      modifies this
      ensures isSheetOpen && serviceToEdit == Some(s)
    {
      serviceToEdit := Some(s);
      isSheetOpen := true;
    }

    /** `handleSaveService`: an edit updates the edited service's id with the data, otherwise
        the data is added under `freshId`; the sheet closes either way. */
    method SaveService(d: ServiceData, freshId: string)
      modifies this, store`services
      ensures !isSheetOpen && serviceToEdit == old(serviceToEdit)
      ensures old(serviceToEdit).Some? ==> store.services == UpdateIn(old(store.services), old(serviceToEdit).value.id, d)
      ensures old(serviceToEdit).None? ==> store.services == AddTo(old(store.services), freshId, d)
    {
      match serviceToEdit {
        case Some(s) => store.UpdateService(s.id, d);
        case None => store.AddService(freshId, d);
      }
      isSheetOpen := false;
    }
  }
}
