/**
 * The event draft that the creation wizard accumulates (`EventData`), the
 * shallow-merge update every step uses to edit it, and the values the steps
 * compute from it: the selected event-type ids, the ticket tiers and their
 * total, and the end-date base used at submit.
 */
module Draft {
  import opened Wrappers

  /** A calendar date as the date picker yields it; time-of-day composition is not modelled. */
  datatype Date = Date(day: int)

  /** The image file chosen in step 4, identified by its name. */
  datatype PosterFile = PosterFile(name: string)

  /** One ticket tier. The price is carried along but never reasoned about. */
  datatype Ticket = Ticket(typeCategory: string, numberOfTickets: int, price: real)

  datatype EventData = EventData(
    eventName: string,
    eventVenue: string,
    eventTypes: seq<int>,
    eventDate: Option<Date>,
    eventEndDate: Option<Date>,
    startTime: string,
    endTime: string,
    isMultiDay: bool,
    tickets: seq<Ticket>,
    posterFile: Option<PosterFile>)

  /** The draft the wizard starts from: empty text, no dates, single-day, no tiers, no poster. */
  const InitialEventData := EventData("", "", [], None, None, "", "", false, [], None)

  /** The tier that "Add Ticket Type" appends. */
  const DefaultTicket := Ticket("Custom Type", 0, 0.0)

  // ---------------------------------------------------------------------------
  // Shallow merge (`{ ...prev, ...data }` with `data: Partial<EventData>`)
  // ---------------------------------------------------------------------------

  /**
   * A partial draft: `None` for a field the partial does not name, `Some(v)` for
   * one it sets to `v` (for the date fields `v` may itself be `None`, i.e. null).
   */
  datatype Patch = Patch(
    eventName: Option<string>,
    eventVenue: Option<string>,
    eventTypes: Option<seq<int>>,
    eventDate: Option<Option<Date>>,
    eventEndDate: Option<Option<Date>>,
    startTime: Option<string>,
    endTime: Option<string>,
    isMultiDay: Option<bool>,
    tickets: Option<seq<Ticket>>,
    posterFile: Option<Option<PosterFile>>)

  /** The empty partial `{}`. */
  const NoChange: Patch := Patch(None, None, None, None, None, None, None, None, None, None)

  /** `{ ...prev, ...data }` */
  function Merge(d: EventData, p: Patch): EventData {
    EventData(
      p.eventName.GetOr(d.eventName),
      p.eventVenue.GetOr(d.eventVenue),
      p.eventTypes.GetOr(d.eventTypes),
      p.eventDate.GetOr(d.eventDate),
      p.eventEndDate.GetOr(d.eventEndDate),
      p.startTime.GetOr(d.startTime),
      p.endTime.GetOr(d.endTime),
      p.isMultiDay.GetOr(d.isMultiDay),
      p.tickets.GetOr(d.tickets),
      p.posterFile.GetOr(d.posterFile))
  }

  /** The later of two settings of one field: `b` if it names the field, else `a`. */
  function Later<T>(a: Option<T>, b: Option<T>): Option<T> {
    if b.Some? then b else a
  }

  /** The single partial equivalent to applying `p` and then `q`. */
  function Then(p: Patch, q: Patch): Patch {
    Patch(
      Later(p.eventName, q.eventName),
      Later(p.eventVenue, q.eventVenue),
      Later(p.eventTypes, q.eventTypes),
      Later(p.eventDate, q.eventDate),
      Later(p.eventEndDate, q.eventEndDate),
      Later(p.startTime, q.startTime),
      Later(p.endTime, q.endTime),
      Later(p.isMultiDay, q.isMultiDay),
      Later(p.tickets, q.tickets),
      Later(p.posterFile, q.posterFile))
  }

  /** Every field the partial does not name keeps its value; every field it names takes the new one. */
  lemma MergeIsShallow(d: EventData, p: Patch)
    ensures p.eventName.None? ==> Merge(d, p).eventName == d.eventName
    ensures p.eventVenue.None? ==> Merge(d, p).eventVenue == d.eventVenue
    ensures p.eventTypes.None? ==> Merge(d, p).eventTypes == d.eventTypes
    ensures p.eventDate.None? ==> Merge(d, p).eventDate == d.eventDate
    ensures p.eventEndDate.None? ==> Merge(d, p).eventEndDate == d.eventEndDate
    ensures p.startTime.None? ==> Merge(d, p).startTime == d.startTime
    ensures p.endTime.None? ==> Merge(d, p).endTime == d.endTime
    ensures p.isMultiDay.None? ==> Merge(d, p).isMultiDay == d.isMultiDay
    ensures p.tickets.None? ==> Merge(d, p).tickets == d.tickets
    ensures p.posterFile.None? ==> Merge(d, p).posterFile == d.posterFile
    ensures p.eventName.Some? ==> Merge(d, p).eventName == p.eventName.value
    ensures p.eventVenue.Some? ==> Merge(d, p).eventVenue == p.eventVenue.value
    ensures p.eventTypes.Some? ==> Merge(d, p).eventTypes == p.eventTypes.value
    ensures p.eventDate.Some? ==> Merge(d, p).eventDate == p.eventDate.value
    ensures p.eventEndDate.Some? ==> Merge(d, p).eventEndDate == p.eventEndDate.value
    ensures p.startTime.Some? ==> Merge(d, p).startTime == p.startTime.value
    ensures p.endTime.Some? ==> Merge(d, p).endTime == p.endTime.value
    ensures p.isMultiDay.Some? ==> Merge(d, p).isMultiDay == p.isMultiDay.value
    ensures p.tickets.Some? ==> Merge(d, p).tickets == p.tickets.value
    ensures p.posterFile.Some? ==> Merge(d, p).posterFile == p.posterFile.value
  {
  }

  /** Merging the same partial a second time changes nothing more. */
  lemma MergeTwice(d: EventData, p: Patch)
    ensures Merge(Merge(d, p), p) == Merge(d, p)
  {
  }

  /** Merging the empty partial changes nothing. */
  lemma MergeNoChange(d: EventData)
    ensures Merge(d, NoChange) == d
  {
  }

  /** Two updates in a row (as in the date handlers) equal one update with the combined partial. */
  lemma MergeThen(d: EventData, p: Patch, q: Patch)
    ensures Merge(Merge(d, p), q) == Merge(d, Then(p, q))
  {
  }

  // ---------------------------------------------------------------------------
  // Step 1: event-type selection
  // ---------------------------------------------------------------------------

  /** `ids.filter((t) => t !== id)`: every occurrence of `id` removed, the rest in order. */
  function Without(ids: seq<int>, id: int): (r: seq<int>)
    ensures forall x :: x in r <==> x in ids && x != id
    ensures |r| <= |ids|
  {
    if ids == [] then []
    else (if ids[0] == id then [] else [ids[0]]) + Without(ids[1..], id)
  }

  /** `toggleEventType`: remove `id` if it is selected, else append it at the end. */
  function Toggle(ids: seq<int>, id: int): (r: seq<int>)
    ensures id in ids ==> id !in r
    ensures id !in ids ==> id in r && |r| == |ids| + 1 && r[..|ids|] == ids
    ensures forall x :: x != id ==> (x in r <==> x in ids)
    ensures id in ids ==> r == Without(ids, id)
  {
    if id in ids then Without(ids, id) else ids + [id]
  }

  /** Filtering distributes over concatenation, so the kept ids keep their relative order. */
  lemma {:induction false} WithoutConcat(a: seq<int>, b: seq<int>, id: int)
    ensures Without(a + b, id) == Without(a, id) + Without(b, id)
  {
    if a == [] {
      assert a + b == b;
    } else {
      assert (a + b)[0] == a[0];
      assert (a + b)[1..] == a[1..] + b;
      WithoutConcat(a[1..], b, id);
    }
  }

  /** Removing an id that does not occur leaves the list as it is. */
  lemma {:induction false} WithoutAbsent(ids: seq<int>, id: int)
    requires id !in ids
    ensures Without(ids, id) == ids
  {
    if ids != [] {
      assert id !in ids[1..];
      WithoutAbsent(ids[1..], id);
      assert [ids[0]] + ids[1..] == ids;
    }
  }

  /** Toggling an unselected id twice restores the original list. */
  lemma ToggleTwiceRestores(ids: seq<int>, id: int)
    requires id !in ids
    ensures Toggle(Toggle(ids, id), id) == ids
  {
    assert id in ids + [id];
    WithoutConcat(ids, [id], id);
    WithoutAbsent(ids, id);
    assert Without([id], id) == [];
  }

  /** Toggling a selected id twice moves it to the end and drops its duplicates. */
  lemma TogglePresentTwice(ids: seq<int>, id: int)
    requires id in ids
    ensures Toggle(Toggle(ids, id), id) == Without(ids, id) + [id]
  {
  }

  /** No id is selected twice. */
  predicate Distinct(ids: seq<int>) {
    forall i, j :: 0 <= i < j < |ids| ==> ids[i] != ids[j]
  }

  lemma {:induction false} WithoutKeepsDistinct(ids: seq<int>, id: int)
    requires Distinct(ids)
    ensures Distinct(Without(ids, id))
  {
    if ids != [] {
      var tail := ids[1..];
      assert Distinct(tail) by {
        forall i, j | 0 <= i < j < |tail| ensures tail[i] != tail[j] {
          assert tail[i] == ids[i + 1] && tail[j] == ids[j + 1];
        }
      }
      WithoutKeepsDistinct(tail, id);
      assert ids[0] !in tail by {
        forall k | 0 <= k < |tail| ensures tail[k] != ids[0] {
          assert tail[k] == ids[k + 1];
        }
      }
      var rest := Without(tail, id);
      assert ids[0] !in rest;
      if ids[0] != id {
        var r := [ids[0]] + rest;
        forall i, j | 0 <= i < j < |r| ensures r[i] != r[j] {
          if i == 0 {
            assert r[j] == rest[j - 1];
          } else {
            assert r[i] == rest[i - 1] && r[j] == rest[j - 1];
          }
        }
      } else {
        assert [] + rest == rest;
      }
    }
  }

  /** Selections made only through the toggle never hold an id twice. */
  lemma ToggleKeepsDistinct(ids: seq<int>, id: int)
    requires Distinct(ids)
    ensures Distinct(Toggle(ids, id))
  {
    if id in ids {
      WithoutKeepsDistinct(ids, id);
    } else {
      var r := ids + [id];
      forall i, j | 0 <= i < j < |r| ensures r[i] != r[j] {
        if j == |ids| {
          assert r[i] == ids[i];
        } else {
          assert r[i] == ids[i] && r[j] == ids[j];
        }
      }
    }
  }

  // ---------------------------------------------------------------------------
  // Step 3: ticket tiers and their total
  // ---------------------------------------------------------------------------

  predicate NonNegativeCounts(ts: seq<Ticket>) {
    forall k :: 0 <= k < |ts| ==> ts[k].numberOfTickets >= 0
  }

  /**
   * `tickets.reduce((sum, t) => sum + t.numberOfTickets, 0)`, folded from the left:
   * the total shown in step 3 and the capacity submitted. Counts may be negative
   * (the count input accepts them), so the total is a plain sum.
   */
  function TotalTickets(ts: seq<Ticket>): (r: int)
    ensures NonNegativeCounts(ts) ==> r >= 0
    ensures NonNegativeCounts(ts) ==> (r == 0 <==> forall k :: 0 <= k < |ts| ==> ts[k].numberOfTickets == 0)
  {
    if ts == [] then 0
    else
      assert forall k :: 0 <= k < |ts| - 1 ==> ts[..|ts| - 1][k] == ts[k];
      TotalTickets(ts[..|ts| - 1]) + ts[|ts| - 1].numberOfTickets
  }

  /** The step-3 warning "Total number of tickets must be greater than zero." */
  predicate ShowsZeroTicketsWarning(d: EventData) {
    TotalTickets(d.tickets) <= 0
  }

  /**
   * With no negative count, step 3 warns exactly when every tier has zero
   * tickets (an empty tier list included).
   */
  lemma ZeroTicketsWarningIff(d: EventData)
    requires NonNegativeCounts(d.tickets)
    ensures ShowsZeroTicketsWarning(d) <==> forall k :: 0 <= k < |d.tickets| ==> d.tickets[k].numberOfTickets == 0
  {
  }

  lemma {:induction false} TotalConcat(a: seq<Ticket>, b: seq<Ticket>)
    ensures TotalTickets(a + b) == TotalTickets(a) + TotalTickets(b)
  {
    if b == [] {
      assert a + b == a;
    } else {
      var front := b[..|b| - 1];
      assert (a + b)[..|a + b| - 1] == a + front;
      assert (a + b)[|a + b| - 1] == b[|b| - 1];
      TotalConcat(a, front);
    }
  }

  lemma TotalSingle(t: Ticket)
    ensures TotalTickets([t]) == t.numberOfTickets
  {
    assert [t][..0] == [];
  }

  /** The worked example: tiers of 10 and 100 tickets give a total (and capacity) of 110. */
  lemma TotalExample()
    ensures TotalTickets([Ticket("VIP", 10, 50.0), Ticket("GA", 100, 20.0)]) == 110
  {
    var ts := [Ticket("VIP", 10, 50.0), Ticket("GA", 100, 20.0)];
    assert ts[..1] == [Ticket("VIP", 10, 50.0)];
    TotalSingle(Ticket("VIP", 10, 50.0));
  }

  /** With negative counts allowed, tiers that are not all empty can still trigger the zero warning. */
  lemma NegativeCountsCancel()
    ensures ShowsZeroTicketsWarning(InitialEventData.(tickets := [Ticket("A", 10, 0.0), Ticket("B", -10, 0.0)]))
  {
    var ts := [Ticket("A", 10, 0.0), Ticket("B", -10, 0.0)];
    assert ts[..1] == [Ticket("A", 10, 0.0)];
    TotalSingle(Ticket("A", 10, 0.0));
  }

  /** Appending the default tier adds one tier, keeps the others and leaves the total unchanged. */
  lemma AddTicketKeepsTotal(ts: seq<Ticket>)
    ensures |ts + [DefaultTicket]| == |ts| + 1 && (ts + [DefaultTicket])[..|ts|] == ts
    ensures TotalTickets(ts + [DefaultTicket]) == TotalTickets(ts)
  {
    TotalConcat(ts, [DefaultTicket]);
    TotalSingle(DefaultTicket);
  }

  /** Replacing tier `i` changes the total by the difference of the two counts. */
  lemma UpdateTicketTotal(ts: seq<Ticket>, i: int, t: Ticket)
    requires 0 <= i < |ts|
    ensures TotalTickets(ts[i := t]) == TotalTickets(ts) - ts[i].numberOfTickets + t.numberOfTickets
  {
    assert ts == ts[..i] + [ts[i]] + ts[i + 1..];
    assert ts[i := t] == ts[..i] + [t] + ts[i + 1..];
    TotalConcat(ts[..i] + [ts[i]], ts[i + 1..]);
    TotalConcat(ts[..i], [ts[i]]);
    TotalConcat(ts[..i] + [t], ts[i + 1..]);
    TotalConcat(ts[..i], [t]);
    TotalSingle(ts[i]);
    TotalSingle(t);
  }

  /** `tickets.filter((_, i) => i !== index)` over the tiers at positions `pos`, `pos+1`, ... */
  function KeepOthers(ts: seq<Ticket>, index: int, pos: int): (r: seq<Ticket>)
    ensures |r| == if pos <= index < pos + |ts| then |ts| - 1 else |ts|
    decreases |ts|
  {
    if ts == [] then []
    else (if pos == index then [] else [ts[0]]) + KeepOthers(ts[1..], index, pos + 1)
  }

  /** `removeTicket(index)`: the tiers without the one at `index`. */
  function RemoveTier(ts: seq<Ticket>, index: int): (r: seq<Ticket>)
    ensures |r| == if 0 <= index < |ts| then |ts| - 1 else |ts|
  {
    KeepOthers(ts, index, 0)
  }

  lemma {:induction false} KeepOthersShape(ts: seq<Ticket>, index: int, pos: int)
    ensures pos <= index < pos + |ts| ==> KeepOthers(ts, index, pos) == ts[..index - pos] + ts[index - pos + 1..]
    ensures !(pos <= index < pos + |ts|) ==> KeepOthers(ts, index, pos) == ts
    decreases |ts|
  {
    if ts != [] {
      var tail := ts[1..];
      KeepOthersShape(tail, index, pos + 1);
      if pos == index {
        assert KeepOthers(ts, index, pos) == tail;
        assert ts[..0] + ts[1..] == tail;
      } else if pos < index < pos + |ts| {
        var j := index - pos;
        assert KeepOthers(ts, index, pos) == [ts[0]] + (tail[..j - 1] + tail[j..]);
        assert [ts[0]] + tail[..j - 1] == ts[..j];
        assert tail[j..] == ts[j + 1..];
      } else {
        assert KeepOthers(ts, index, pos) == [ts[0]] + tail;
        assert [ts[0]] + tail == ts;
      }
    }
  }

  /**
   * Removing tier `i` keeps the tiers before `i` in place and shifts those after
   * it down by one; an index outside the list leaves it unchanged.
   */
  lemma RemoveTierShifts(ts: seq<Ticket>, i: int)
    ensures 0 <= i < |ts| ==> |RemoveTier(ts, i)| == |ts| - 1
    ensures 0 <= i < |ts| ==> forall k :: 0 <= k < i ==> RemoveTier(ts, i)[k] == ts[k]
    ensures 0 <= i < |ts| ==> forall k :: i <= k < |ts| - 1 ==> RemoveTier(ts, i)[k] == ts[k + 1]
    ensures !(0 <= i < |ts|) ==> RemoveTier(ts, i) == ts
  {
    KeepOthersShape(ts, i, 0);
  }

  /** The total of a list is its first count plus the total of the rest. */
  lemma TotalCons(ts: seq<Ticket>)
    requires ts != []
    ensures TotalTickets(ts) == ts[0].numberOfTickets + TotalTickets(ts[1..])
  {
    assert ts == [ts[0]] + ts[1..];
    TotalConcat([ts[0]], ts[1..]);
    TotalSingle(ts[0]);
  }

  /** One step of the filter: the first tier counts towards the kept total unless it is the one removed. */
  lemma KeepOthersTotalStep(ts: seq<Ticket>, index: int, pos: int)
    requires ts != []
    ensures TotalTickets(KeepOthers(ts, index, pos)) ==
            (if pos == index then 0 else ts[0].numberOfTickets) + TotalTickets(KeepOthers(ts[1..], index, pos + 1))
  {
    var rest := KeepOthers(ts[1..], index, pos + 1);
    if pos == index {
      assert KeepOthers(ts, index, pos) == rest;
    } else {
      assert KeepOthers(ts, index, pos) == [ts[0]] + rest;
      TotalConcat([ts[0]], rest);
      TotalSingle(ts[0]);
    }
  }

  /** The filter lowers the total by the count of the tier it drops, if it drops one. */
  lemma {:induction false} KeepOthersTotal(ts: seq<Ticket>, index: int, pos: int)
    ensures TotalTickets(KeepOthers(ts, index, pos)) ==
            TotalTickets(ts) - (if pos <= index < pos + |ts| then ts[index - pos].numberOfTickets else 0)
    decreases |ts|
  {
    if ts != [] {
      var tail := ts[1..];
      KeepOthersTotal(tail, index, pos + 1);
      KeepOthersTotalStep(ts, index, pos);
      TotalCons(ts);
      if pos < index < pos + |ts| {
        assert tail[index - (pos + 1)] == ts[index - pos];
      }
    }
  }

  /** Removing tier `i` lowers the total by exactly that tier's count. */
  lemma RemoveTierTotal(ts: seq<Ticket>, i: int)
    requires 0 <= i < |ts|
    ensures TotalTickets(RemoveTier(ts, i)) == TotalTickets(ts) - ts[i].numberOfTickets
  {
    KeepOthersTotal(ts, i, 0);
  }

  // ---------------------------------------------------------------------------
  // Step 2: dates
  // ---------------------------------------------------------------------------

  /** A single-day draft ends on the day it starts. */
  predicate DatesInSync(d: EventData) {
    !d.isMultiDay ==> d.eventEndDate == d.eventDate
  }

  /** The date the submitted end timestamp is built on. */
  function EndDateBase(d: EventData): (r: Option<Date>)
    ensures r == d.eventDate || r == d.eventEndDate
    ensures r.None? ==> d.eventDate.None?
  {
    if d.isMultiDay && d.eventEndDate.Some? then d.eventEndDate else d.eventDate
  }

  /**
   * For a draft whose dates are in sync, the end timestamp is built on the end
   * date whenever one is set, and on the start date only when no end date is set.
   */
  lemma EndDateBaseInSync(d: EventData)
    requires DatesInSync(d)
    ensures d.eventEndDate.Some? ==> EndDateBase(d) == d.eventEndDate
    ensures d.eventEndDate.None? ==> EndDateBase(d) == d.eventDate
  {
  }
}
