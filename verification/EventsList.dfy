/**
 * The paginated events list: the colour of each event-type pill, the
 * Previous/Next paging and the fetches it triggers, the single expanded card,
 * and the page state (`events`, `page`, `loading`, `expandedEvent`). The
 * server's reply to a fetch is an input.
 */
module EventsList {
  import opened Wrappers
  import opened Session

  datatype EventType = EventType(id: int, name: string)

  datatype TicketSummary = TicketSummary(id: string, typeCategory: string, numberOfTickets: int, price: real)

  /** An event as the server lists it; `eventTypes` may be missing from the reply. */
  datatype Event = Event(
    id: string,
    eventName: string,
    eventStartDate: string,
    eventEndDate: string,
    eventVenue: string,
    eventCapacity: int,
    posterUrl: string,
    ticketType: seq<TicketSummary>,
    eventTypes: Option<seq<EventType>>)

  // ---------------------------------------------------------------------------
  // Type pills
  // ---------------------------------------------------------------------------

  const DefaultColor := "bg-gray-500 text-white"

  /** `eventTypeColors` */
  const TypeColors: map<string, string> := map[
    "Trivia Night" := "bg-blue-500 text-white",
    "Sports" := "bg-green-500 text-white",
    "Musical" := "bg-purple-500 text-white",
    "Drama" := "bg-red-500 text-white",
    "Music" := "bg-indigo-500 text-white"]

  /** `eventTypeColors[name] || "bg-gray-500 text-white"` */
  function ColorClass(name: string): (c: string)
    ensures c != ""
    ensures c == DefaultColor || c in TypeColors.Values
  {
    if name in TypeColors && TypeColors[name] != "" then TypeColors[name] else DefaultColor
  }

  /** A listed name gets its own class and every other name the grey default. */
  lemma ColorClassTotal(name: string)
    ensures name in TypeColors ==> ColorClass(name) == TypeColors[name]
    ensures name !in TypeColors ==> ColorClass(name) == DefaultColor
  {
  }

  /** The five listed names, and one name that is not listed. */
  lemma ColorClassExamples()
    ensures ColorClass("Trivia Night") == "bg-blue-500 text-white"
    ensures ColorClass("Sports") == "bg-green-500 text-white"
    ensures ColorClass("Musical") == "bg-purple-500 text-white"
    ensures ColorClass("Drama") == "bg-red-500 text-white"
    ensures ColorClass("Music") == "bg-indigo-500 text-white"
    ensures ColorClass("Comedy") == DefaultColor
  {
  }

  datatype Pill = TypePill(typeId: int, text: string, colorClass: string) | NoTypePill

  /** The pills of one card: one per type in order, or a single "No Type" pill when there are none. */
  function Pills(e: Event): (ps: seq<Pill>)
    ensures |ps| >= 1
    ensures ps == [NoTypePill] <==> e.eventTypes.None? || e.eventTypes.value == []
    ensures e.eventTypes.Some? && e.eventTypes.value != [] ==>
      |ps| == |e.eventTypes.value| &&
      forall i :: 0 <= i < |ps| ==> ps[i] == TypePill(e.eventTypes.value[i].id, e.eventTypes.value[i].name, ColorClass(e.eventTypes.value[i].name))
    ensures forall i :: 0 <= i < |ps| && ps[i].TypePill? ==> ps[i].colorClass != ""
  {
    match e.eventTypes
    case Some(ts) =>
      if |ts| > 0 then
        var ps := seq(|ts|, i requires 0 <= i < |ts| => TypePill(ts[i].id, ts[i].name, ColorClass(ts[i].name)));
        assert ps[0].TypePill?;
        ps
      else [NoTypePill]
    case None => [NoTypePill]
  }

  // ---------------------------------------------------------------------------
  // Expanded card
  // ---------------------------------------------------------------------------

  /** `expandedEvent === event.id ? null : event.id` */
  function ToggleExpanded(current: Option<string>, id: string): (r: Option<string>)
    ensures r == Some(id) <==> current != Some(id)
    ensures r == None <==> current == Some(id)
  {
    if current == Some(id) then None else Some(id)
  }

  /**
   * Two clicks on one card undo each other when that card or no card was
   * expanded; from another expanded card they leave every card collapsed.
   */
  lemma ToggleExpandedTwice(current: Option<string>, id: string)
    ensures current.Some? && current != Some(id) ==> ToggleExpanded(ToggleExpanded(current, id), id) == None
    ensures current.None? ==> ToggleExpanded(ToggleExpanded(current, id), id) == None
    ensures current == Some(id) ==> ToggleExpanded(ToggleExpanded(current, id), id) == current
  {
  }

  // ---------------------------------------------------------------------------
  // Paging
  // ---------------------------------------------------------------------------

  const PageSize := 6

  datatype PageClick = Previous | Next

  /** `Math.max(prev - 1, 0)` for Previous, `prev + 1` for Next. */
  function PageAfter(p: int, c: PageClick): (r: int)
    ensures r >= 0 || c == Next
    ensures p >= 0 ==> r == p - 1 || r == p || r == p + 1
    ensures r == p <==> c == Previous && p == 0
    ensures p >= 0 ==> (r > p <==> c == Next)
  {
    match c
    case Previous => if p - 1 > 0 then p - 1 else 0
    case Next => p + 1
  }

  /** The Previous button is disabled on the first page. */
  predicate PreviousEnabled(p: int) {
    p != 0
  }

  /**
   * The pages fetched after a sequence of clicks from page `p`: the effect on
   * `page` re-runs only when the page actually changes.
   */
  function LaterFetches(p: int, clicks: seq<PageClick>): (r: seq<int>)
    ensures |r| <= |clicks|
    decreases |clicks|
  {
    if clicks == [] then []
    else
      var q := PageAfter(p, clicks[0]);
      (if q != p then [q] else []) + LaterFetches(q, clicks[1..])
  }

  /** Every page fetched: the one on mount, then one per page change. */
  function Fetches(p: int, clicks: seq<PageClick>): seq<int> {
    [p] + LaterFetches(p, clicks)
  }

  /** Starting from a non-negative page, no click sequence ever fetches a negative page. */
  lemma {:induction false} LaterFetchesNonNegative(p: int, clicks: seq<PageClick>)
    requires p >= 0
    ensures forall k :: 0 <= k < |LaterFetches(p, clicks)| ==> LaterFetches(p, clicks)[k] >= 0
    decreases |clicks|
  {
    if clicks != [] {
      LaterFetchesNonNegative(PageAfter(p, clicks[0]), clicks[1..]);
    }
  }

  /** From a non-negative page, each fetch after the first is for a page next to the one fetched before it. */
  lemma {:induction false} FetchesAreAdjacent(p: int, clicks: seq<PageClick>)
    requires p >= 0
    ensures forall k :: 0 < k < |Fetches(p, clicks)| ==>
      Fetches(p, clicks)[k] == Fetches(p, clicks)[k - 1] + 1 || Fetches(p, clicks)[k] == Fetches(p, clicks)[k - 1] - 1
    decreases |clicks|
  {
    if clicks != [] {
      var q := PageAfter(p, clicks[0]);
      FetchesAreAdjacent(q, clicks[1..]);
      var rest := Fetches(q, clicks[1..]);
      var fs := Fetches(p, clicks);
      assert q == p + 1 || q == p || q == p - 1;
      if q != p {
        assert LaterFetches(p, clicks) == [q] + LaterFetches(q, clicks[1..]);
        assert fs == [p] + rest;
        assert rest[0] == q;
        forall k | 1 < k < |fs| ensures fs[k] == fs[k - 1] + 1 || fs[k] == fs[k - 1] - 1 {
          assert fs[k] == rest[k - 1] && fs[k - 1] == rest[k - 2];
        }
      } else {
        assert fs == rest;
      }
    }
  }

  /** The page the clicks reach from page `p`: `PageAfter` folded over them. */
  function PageWalk(p: int, clicks: seq<PageClick>): (r: int)
    ensures p >= 0 ==> r >= 0
    ensures p >= 0 ==> r <= p + |clicks|
    decreases |clicks|
  {
    if clicks == [] then p else PageWalk(PageAfter(p, clicks[0]), clicks[1..])
  }

  /** The value of `page` after each prefix of the clicks, the empty prefix first. */
  function Trail(p: int, clicks: seq<PageClick>): (r: seq<int>)
    ensures |r| == |clicks| + 1 && r[0] == p
    ensures r[|r| - 1] == PageWalk(p, clicks)
    decreases |clicks|
  {
    if clicks == [] then [p] else [p] + Trail(PageAfter(p, clicks[0]), clicks[1..])
  }

  /** A run of values with each repeat of the value before it dropped. */
  function Collapse(xs: seq<int>): (r: seq<int>)
    ensures |r| <= |xs|
    ensures xs != [] ==> r != [] && r[0] == xs[0] && r[|r| - 1] == xs[|xs| - 1]
    ensures forall i :: 0 <= i < |r| - 1 ==> r[i] != r[i + 1]
    decreases |xs|
  {
    if |xs| <= 1 then xs
    else if xs[0] == xs[1] then Collapse(xs[1..])
    else [xs[0]] + Collapse(xs[1..])
  }

  /**
   * The effect keyed on `page` runs on mount and then whenever a render sees a
   * `page` different from the one before, so the fetched pages are the page
   * values in order with each repeat dropped.
   */
  lemma {:induction false} FetchesCollapseTrail(p: int, clicks: seq<PageClick>)
    ensures Fetches(p, clicks) == Collapse(Trail(p, clicks))
    decreases |clicks|
  {
    if clicks != [] {
      var q := PageAfter(p, clicks[0]);
      var t := Trail(q, clicks[1..]);
      FetchesCollapseTrail(q, clicks[1..]);
      assert Trail(p, clicks) == [p] + t;
      assert ([p] + t)[1..] == t;
      if q != p {
        assert LaterFetches(p, clicks) == [q] + LaterFetches(q, clicks[1..]);
        assert Collapse([p] + t) == [p] + Collapse(t);
      } else {
        assert LaterFetches(p, clicks) == LaterFetches(q, clicks[1..]);
        assert Collapse([p] + t) == Collapse(t);
      }
    }
  }

  /** The last page fetched is the page the clicks reach. */
  lemma LastFetchIsCurrentPage(p: int, clicks: seq<PageClick>)
    ensures Fetches(p, clicks)[|Fetches(p, clicks)| - 1] == PageWalk(p, clicks)
  {
    FetchesCollapseTrail(p, clicks);
  }

  /** From page 0, Previous fetches nothing more; Next then Previous fetches pages 1 and 0. */
  lemma PagingExamples()
    ensures Fetches(0, [Previous]) == [0]
    ensures Fetches(0, [Next, Previous]) == [0, 1, 0]
  {
    assert [Previous][1..] == [];
    assert [Next, Previous][1..] == [Previous];
  }

  /** The request a fetch sends: page, page size and the `Authorization` header. */
  datatype PageRequest = PageRequest(page: int, size: int, authorization: string)

  /** How a fetch settles: with the `data.content` of the reply, or by throwing. */
  datatype FetchResult = Fetched(content: seq<Event>) | FetchFailed

  class EventsPage {
    var events: seq<Event>
    var page: int
    var loading: bool
    var expandedEvent: Option<string>

    predicate Valid()
      reads this
    {
      page >= 0
    }

    constructor ()
      ensures Valid()
      ensures events == [] && page == 0 && loading && expandedEvent == None
    {
      events := [];
      page := 0;
      loading := true;
      expandedEvent := None;
    }

    /** `fetchEvents`: request the current page; a reply replaces the list wholesale, a failure keeps it. */
    method FetchEvents(stored: Option<string>, result: FetchResult) returns (request: PageRequest)
      requires Valid()
      modifies this`events, this`loading
      ensures Valid()
      ensures request == PageRequest(page, PageSize, BearerHeader(stored)) && request.page >= 0
      ensures events == if result.Fetched? then result.content else old(events)
      ensures !loading
    {
      loading := true;
      request := PageRequest(page, PageSize, BearerHeader(stored));
      if result.Fetched? {
        events := result.content;
      }
      loading := false;
    }

    /** The Previous button; `refetch` says whether the page changed, so that the fetch effect re-runs. */
    method ClickPrevious() returns (refetch: bool)
      requires Valid()
      modifies this`page
      ensures Valid()
      ensures page == PageAfter(old(page), Previous)
      ensures refetch <==> PreviousEnabled(old(page))
    {
      var before := page;
      page := PageAfter(page, Previous);
      refetch := page != before;
    }

    method ClickNext() returns (refetch: bool)
      requires Valid()
      modifies this`page
      ensures Valid()
      ensures page == old(page) + 1 && refetch
    {
      var before := page;
      page := PageAfter(page, Next);
      refetch := page != before;
    }

    /** "More Details" / "Hide Details" on the card of event `id`. */
    method ClickDetails(id: string)
      modifies this`expandedEvent
      ensures expandedEvent == ToggleExpanded(old(expandedEvent), id)
    {
      expandedEvent := ToggleExpanded(expandedEvent, id);
    }
  }
}
