/**
 * The event log page (src/components/EventsContent.tsx): a type and date
 * filter over a fixed list of events, ten events per page, and previous /
 * next / numbered page buttons.
 */
module EventsContent {
  import opened Common
  import opened EventFilter

  datatype Event = Event(
    id: string,
    eventType: string,
    timestamp: string,
    date: string,
    description: string,
    phase: Option<string>)

  const ItemsPerPage: nat := 10

  // ---------------------------------------------------------------------------
  // String order

  /** JavaScript's `a <= b` on strings: lexicographic by character. */
  predicate StrLe(a: string, b: string)
    decreases |a|
  {
    if a == [] then true
    else if b == [] then false
    else if a[0] != b[0] then a[0] < b[0]
    else StrLe(a[1..], b[1..])
  }

  lemma {:induction false} StrLeTotal(a: string, b: string)
    ensures StrLe(a, b) || StrLe(b, a)
    decreases |a|
  {
    if a != [] && b != [] && a[0] == b[0] {
      StrLeTotal(a[1..], b[1..]);
    }
  }

  lemma {:induction false} StrLeTransitive(a: string, b: string, c: string)
    requires StrLe(a, b) && StrLe(b, c)
    ensures StrLe(a, c)
    decreases |a|
  {
    if a != [] && b != [] && c != [] && a[0] == b[0] && b[0] == c[0] {
      StrLeTransitive(a[1..], b[1..], c[1..]);
    }
  }

  lemma {:induction false} StrLeAntisymmetric(a: string, b: string)
    requires StrLe(a, b) && StrLe(b, a)
    ensures a == b
    decreases |a|
  {
    if a != [] && b != [] {
      StrLeAntisymmetric(a[1..], b[1..]);
      assert a == [a[0]] + a[1..] && b == [b[0]] + b[1..];
    }
  }

  // ---------------------------------------------------------------------------
  // Filtering

  /** The filter callback: type selected (or none selected), date within the set bounds. */
  predicate Keep(e: Event, selected: seq<string>, range: DateRange) {
    (|selected| == 0 || e.eventType in selected)
    && (range.start == "" || StrLe(range.start, e.date))
    && (range.end == "" || StrLe(e.date, range.end))
  }

  /** `allEvents.filter(...)` */
  function Filtered(events: seq<Event>, selected: seq<string>, range: DateRange): (r: seq<Event>)
    ensures |r| <= |events|
    ensures forall e :: e in r <==> e in events && Keep(e, selected, range)
  {
    if |events| == 0 then []
    else
      var rest := Filtered(events[1..], selected, range);
      if Keep(events[0], selected, range) then [events[0]] + rest else rest
  }

  /** The filtered list keeps the events' order. */
  lemma {:induction false} FilteredIsSubsequence(events: seq<Event>, selected: seq<string>, range: DateRange)
    ensures IsSubsequence(Filtered(events, selected, range), events)
    decreases |events|
  {
    if |events| > 0 {
      FilteredIsSubsequence(events[1..], selected, range);
      var rest := Filtered(events[1..], selected, range);
      if !Keep(events[0], selected, range) {
        if rest != [] {
          SubsequenceSkip(rest, events[0], events[1..]);
        }
      } else {
        assert ([events[0]] + rest)[1..] == rest;
      }
    }
  }

  /** Each kept event appears as often as in the full list, every other one not at all. */
  lemma {:induction false} FilteredCounts(events: seq<Event>, selected: seq<string>, range: DateRange)
    ensures forall e ::
      multiset(Filtered(events, selected, range))[e] == if Keep(e, selected, range) then multiset(events)[e] else 0
    decreases |events|
  {
    if |events| > 0 {
      FilteredCounts(events[1..], selected, range);
      assert events == [events[0]] + events[1..];
    }
  }

  /** With no type selected and no bound set, every event is shown. */
  lemma {:induction false} NoFilterKeepsAll(events: seq<Event>)
    ensures Filtered(events, [], DateRange("", "")) == events
    decreases |events|
  {
    if |events| > 0 {
      NoFilterKeepsAll(events[1..]);
      assert [events[0]] + events[1..] == events;
    }
  }

  /** When no event passes the filter the list is empty. */
  lemma {:induction false} NothingKept(events: seq<Event>, selected: seq<string>, range: DateRange)
    requires forall i :: 0 <= i < |events| ==> !Keep(events[i], selected, range)
    ensures Filtered(events, selected, range) == []
    decreases |events|
  {
    if |events| > 0 {
      NothingKept(events[1..], selected, range);
    }
  }

  /** A start bound after the end bound leaves nothing to show. */
  lemma InvertedRangeIsEmpty(events: seq<Event>, selected: seq<string>, range: DateRange)
    requires range.start != "" && range.end != "" && !StrLe(range.start, range.end)
    ensures Filtered(events, selected, range) == []
  {
    forall i | 0 <= i < |events| ensures !Keep(events[i], selected, range) {
      if Keep(events[i], selected, range) {
        StrLeTransitive(range.start, events[i].date, range.end);
      }
    }
    NothingKept(events, selected, range);
  }

  // ---------------------------------------------------------------------------
  // Pagination

  /** `Math.ceil(n / itemsPerPage)` */
  function TotalPages(n: nat): (t: nat)
    ensures t * ItemsPerPage >= n
    ensures t > 0 ==> (t - 1) * ItemsPerPage < n
    ensures t == 0 <==> n == 0
  {
    (n + ItemsPerPage - 1) / ItemsPerPage
  }

  /** `items.slice(start, start + itemsPerPage)` for page `page` (counted from 1). */
  function PageSlice<T>(items: seq<T>, page: nat): (r: seq<T>)
    requires page >= 1
    ensures |r| <= ItemsPerPage
    ensures page > TotalPages(|items|) ==> r == []
    ensures forall k :: 0 <= k < |r| ==>
      (page - 1) * ItemsPerPage + k < |items| && r[k] == items[(page - 1) * ItemsPerPage + k]
  {
    var start := (page - 1) * ItemsPerPage;
    if start >= |items| then []
    else items[start..if start + ItemsPerPage <= |items| then start + ItemsPerPage else |items|]
  }

  /** Pages 1 to `p`, one after another. */
  function PagesUpTo<T>(items: seq<T>, p: nat): seq<T> {
    if p == 0 then [] else PagesUpTo(items, p - 1) + PageSlice(items, p)
  }

  /** Reading the pages in order shows every item once, in order. */
  lemma {:induction false} PagesCoverItems<T>(items: seq<T>, p: nat)
    ensures PagesUpTo(items, p) == items[..if p * ItemsPerPage <= |items| then p * ItemsPerPage else |items|]
  {
    if p > 0 {
      PagesCoverItems(items, p - 1);
    }
  }

  /** All `TotalPages` pages together are exactly the filtered list. */
  lemma AllPagesAreTheList<T>(items: seq<T>)
    ensures PagesUpTo(items, TotalPages(|items|)) == items
  {
    PagesCoverItems(items, TotalPages(|items|));
  }

  /** The Previous button: never below 1. */
  function PrevPage(page: nat): (p: nat)
    ensures p >= 1
    ensures page > 1 ==> p == page - 1
    ensures page <= 1 ==> p == 1
  {
    if page - 1 > 1 then page - 1 else 1
  }

  /** The Next button: never past the last page. */
  function NextPage(page: nat, total: nat): (p: nat)
    ensures p <= total
    ensures page < total ==> p == page + 1
    ensures page >= total ==> p == total
  {
    if total < page + 1 then total else page + 1
  }

  /** The footer "Showing a—b of n events". */
  datatype Footer = Footer(first: nat, last: nat, of: nat)

  function FooterOf(page: nat, n: nat): (f: Footer)
    requires page >= 1
    ensures f.of == n && f.first == (page - 1) * ItemsPerPage + 1
    ensures f.last <= n && f.last <= f.first + ItemsPerPage - 1
    ensures page <= TotalPages(n) ==> f.first <= f.last
    ensures page > TotalPages(n) ==> f.first > f.last
  {
    var start := (page - 1) * ItemsPerPage;
    Footer(start + 1, if start + ItemsPerPage < n then start + ItemsPerPage else n, n)
  }

  /** On an existing page the footer counts exactly the events the page shows. */
  lemma FooterCountsPage<T>(items: seq<T>, page: nat)
    requires 1 <= page <= TotalPages(|items|)
    ensures var f := FooterOf(page, |items|); f.last - f.first + 1 == |PageSlice(items, page)|
  {
  }

  /** The pagination bar is rendered only when there is more than one page. */
  predicate ShowsPagination(n: nat)
    ensures ShowsPagination(n) <==> n > ItemsPerPage
  {
    TotalPages(n) > 1
  }

  // ---------------------------------------------------------------------------
  // The page's state

  class EventsPage {
    const allEvents: seq<Event>
    var selectedTypes: seq<string>
    var dateRange: DateRange
    var currentPage: nat

    constructor(events: seq<Event>)
      ensures allEvents == events
      ensures selectedTypes == [] && dateRange == DateRange("", "") && currentPage == 1
    {
      allEvents := events;
      selectedTypes := [];
      dateRange := DateRange("", "");
      currentPage := 1;
    }

    predicate Valid()
      reads this
    {
      currentPage >= 1
    }

    function Shown(): seq<Event>
      reads this
    {
      Filtered(allEvents, selectedTypes, dateRange)
    }

    function Visible(): (r: seq<Event>)
      reads this
      requires Valid()
      ensures |r| <= ItemsPerPage
      ensures forall e :: e in r ==> e in allEvents && Keep(e, selectedTypes, dateRange)
    {
      PageSlice(Shown(), currentPage)
    }

    /** `onTypeChange`: the filter changes, the page number does not. */
    method SetSelectedTypes(types: seq<string>)
      requires Valid()
      modifies this`selectedTypes
      ensures Valid() && selectedTypes == types
    {
      selectedTypes := types;
    }

    /** `onDateChange`: the page number does not change either. */
    method SetDateRange(range: DateRange)
      requires Valid()
      modifies this`dateRange
      ensures Valid() && dateRange == range
    {
      dateRange := range;
    }

    method Previous()
      requires Valid()
      modifies this`currentPage
      ensures Valid() && currentPage == PrevPage(old(currentPage))
    {
      currentPage := if currentPage - 1 > 1 then currentPage - 1 else 1;
    }

    /** Only reachable while the pagination bar is shown. */
    method Next()
      requires Valid() && ShowsPagination(|Shown()|)
      modifies this`currentPage
      ensures Valid() && currentPage == NextPage(old(currentPage), TotalPages(|Shown()|))
    {
      var total := TotalPages(|Shown()|);
      currentPage := if total < currentPage + 1 then total else currentPage + 1;
    }

    /** The numbered button `i + 1`. */
    method GoTo(i: nat)
      requires Valid() && i < TotalPages(|Shown()|)
      modifies this`currentPage
      ensures Valid() && currentPage == i + 1 && |Visible()| > 0
    {
      currentPage := i + 1;
    }
  }

  /**
   * The page number survives a filter change: on page 2 of fifteen events,
   * selecting a type none of them has leaves page 2 of an empty list.
   */
  method StalePageAfterFilter(e: Event) returns (pageNumber: int, visible: seq<Event>)
    requires e.eventType != "memory"
    ensures pageNumber == 2 && visible == []
  {
    var events := seq(15, _ => e);
    var page := new EventsPage(events);
    NoFilterKeepsAll(events);
    page.GoTo(1);
    page.SetSelectedTypes(["memory"]);
    NothingKept(events, ["memory"], DateRange("", ""));
    pageNumber, visible := page.currentPage, page.Visible();
  }
}
