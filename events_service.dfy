/** The in-memory event store of the backend (`EventsService`). */
module Events {
  import opened Options
  import Decimal
  import Clock
  import Seqs
  import Sorting

  /** `EventItemDto`; `eventDate`/`eventTime` are the `YYYY-MM-DD`/`HH:mm` strings as numbers. */
  datatype EventItem = EventItem(
    id: string,
    title: Option<string>,
    eventDate: int,
    eventTime: Clock.MinuteOfDay,
    roundDuration: int,
    createdAt: string)

  /** The body of `create`: `Omit<EventItemDto, 'id' | 'createdAt'>` as
      declared, and the `id` and `createdAt` a raw body may still carry (no
      validation pipe strips them). */
  datatype NewEvent = NewEvent(
    title: Option<string>,
    eventDate: int,
    eventTime: Clock.MinuteOfDay,
    roundDuration: int,
    id: Option<string>,
    createdAt: Option<string>)

  /** `Partial<EventItemDto>`: an absent field is `None`. */
  datatype EventPatch = EventPatch(
    id: Option<string>,
    title: Option<string>,
    eventDate: Option<int>,
    eventTime: Option<Clock.MinuteOfDay>,
    roundDuration: Option<int>,
    createdAt: Option<string>)

  const NoChange := EventPatch(None, None, None, None, None, None)

  /** The sort key of `list`: the event's minute stamp. */
  function Key(e: EventItem): int {
    Clock.Stamp(e.eventDate, e.eventTime)
  }

  /** `a` may be listed before `b`: `list`'s comparator is not positive. */
  predicate ListedBefore(a: EventItem, b: EventItem) {
    Clock.DateTimeLe(a.eventDate, a.eventTime, b.eventDate, b.eventTime)
  }

  predicate InListOrder(s: seq<EventItem>) {
    forall i, j :: 0 <= i < j < |s| ==> ListedBefore(s[i], s[j])
  }

  /** What `this.events.sort(...)` leaves in the array. */
  function Listed(s: seq<EventItem>): seq<EventItem> {
    Sorting.Sort(s, Key)
  }

  /** `list` orders by (eventDate, eventTime) and only reorders. */
  lemma ListedIsOrderedPermutation(s: seq<EventItem>)
    ensures InListOrder(Listed(s))
    ensures multiset(Listed(s)) == multiset(s)
  {
    var r := Listed(s);
    Sorting.SortSorted(s, Key);
    forall i, j | 0 <= i < j < |r|
      ensures ListedBefore(r[i], r[j])
    {
      Clock.StampOrder(r[i].eventDate, r[i].eventTime, r[j].eventDate, r[j].eventTime);
    }
  }

  /** Two events share a sort key exactly when they share date and time. */
  lemma SameKeySameSlot(a: EventItem, b: EventItem)
    ensures Key(a) == Key(b) <==> a.eventDate == b.eventDate && a.eventTime == b.eventTime
  {
    Clock.StampOrder(a.eventDate, a.eventTime, b.eventDate, b.eventTime);
    Clock.StampOrder(b.eventDate, b.eventTime, a.eventDate, a.eventTime);
  }

  /** The sort is stable: events at the same date and time keep their relative order. */
  lemma ListedIsStable(s: seq<EventItem>, k: int)
    ensures Seqs.Filter(Listed(s), Sorting.HasKey(Key, k)) == Seqs.Filter(s, Sorting.HasKey(Key, k))
  {
    Sorting.SortStable(s, Key, k);
  }

  /** `{ ...e, ...patch }`: patched fields win, the others are kept. */
  function Merge(e: EventItem, p: EventPatch): (r: EventItem)
    ensures r.id == p.id.GetOr(e.id) && r.title == (if p.title.Some? then p.title else e.title)
    ensures r.eventDate == p.eventDate.GetOr(e.eventDate) && r.eventTime == p.eventTime.GetOr(e.eventTime)
    ensures r.roundDuration == p.roundDuration.GetOr(e.roundDuration)
    ensures r.createdAt == p.createdAt.GetOr(e.createdAt)
  {
    EventItem(
      p.id.GetOr(e.id),
      if p.title.Some? then p.title else e.title,
      p.eventDate.GetOr(e.eventDate),
      p.eventTime.GetOr(e.eventTime),
      p.roundDuration.GetOr(e.roundDuration),
      p.createdAt.GetOr(e.createdAt))
  }

  /** An empty patch changes nothing, and a patch applied twice acts once. */
  lemma MergeLaws(e: EventItem, p: EventPatch)
    ensures Merge(e, NoChange) == e
    ensures Merge(Merge(e, p), p) == Merge(e, p)
  {
  }

  function HasId(id: string): EventItem -> bool {
    (e: EventItem) => e.id == id
  }

  function HasOtherId(id: string): EventItem -> bool {
    (e: EventItem) => e.id != id
  }

  /** `events.filter((e) => e.id !== id)`. */
  function Without(s: seq<EventItem>, id: string): seq<EventItem> {
    Seqs.Filter(s, HasOtherId(id))
  }

  /** `remove` drops exactly the entries with that id, keeps the rest in
      order, and shortens the store iff one was there. */
  lemma WithoutSpec(s: seq<EventItem>, id: string)
    ensures Seqs.SubsequenceOf(Without(s, id), s)
    ensures forall e :: e in Without(s, id) <==> e in s && e.id != id
    ensures |Without(s, id)| < |s| <==> exists e :: e in s && e.id == id
    ensures forall e :: multiset(Without(s, id))[e] == if e.id != id then multiset(s)[e] else 0
  {
    forall e
      ensures multiset(Without(s, id))[e] == if e.id != id then multiset(s)[e] else 0
    {
      Seqs.FilterMultiset(s, HasOtherId(id), e);
    }
    Seqs.FilterIsSubsequence(s, HasOtherId(id));
    Seqs.FilterShrinks(s, HasOtherId(id));
    forall e | e in s && e.id != id
      ensures e in Without(s, id)
    {
      var i :| 0 <= i < |s| && s[i] == e;
    }
  }

  /** A second `remove` of the same id finds nothing and changes nothing. */
  lemma RemoveTwice(s: seq<EventItem>, id: string)
    ensures Without(Without(s, id), id) == Without(s, id)
    ensures !exists e :: e in Without(s, id) && e.id == id
  {
    Seqs.FilterIdempotent(s, HasOtherId(id));
  }

  /** `new Date(`${e.eventDate}T${e.eventTime}:00`)`, in milliseconds. */
  function StartMs(e: EventItem): int {
    Clock.MomentMs(e.eventDate, e.eventTime)
  }

  /** The test `new Date(...) >= now` of `next`. */
  function StartsAtOrAfter(nowMs: int): EventItem -> bool {
    (e: EventItem) => StartMs(e) >= nowMs
  }

  /** `s.find(...) ?? null`. */
  function FirstUpcoming(s: seq<EventItem>, nowMs: int): Option<EventItem> {
    var i := Seqs.FindIndex(s, StartsAtOrAfter(nowMs));
    if i == -1 then None else Some(s[i])
  }

  /** In a list in listing order, the first upcoming event precedes every upcoming one. */
  lemma FirstUpcomingIsEarliest(l: seq<EventItem>, nowMs: int)
    requires InListOrder(l)
    ensures var r := FirstUpcoming(l, nowMs);
      && (r.None? <==> forall e :: e in l ==> StartMs(e) < nowMs)
      && (r.Some? ==>
            && r.value in l
            && StartMs(r.value) >= nowMs
            && forall e :: e in l && StartMs(e) >= nowMs ==> ListedBefore(r.value, e))
  {
    var i := Seqs.FindIndex(l, StartsAtOrAfter(nowMs));
    if i == -1 {
      forall e | e in l
        ensures StartMs(e) < nowMs
      {
        var j :| 0 <= j < |l| && l[j] == e;
        assert !StartsAtOrAfter(nowMs)(l[j]);
      }
    } else {
      forall e | e in l && StartMs(e) >= nowMs
        ensures ListedBefore(l[i], e)
      {
        var j :| 0 <= j < |l| && l[j] == e;
        assert StartsAtOrAfter(nowMs)(l[j]);
        if j != i {
          assert i < j;
        }
      }
    }
  }

  /** `next` yields the earliest event starting at or after `now`, or null
      when there is none: the minimum of the upcoming set, both in the
      listing order and in time. */
  lemma NextIsEarliestUpcoming(s: seq<EventItem>, nowMs: int)
    ensures var r := FirstUpcoming(Listed(s), nowMs);
      && (r.None? <==> forall e :: e in s ==> StartMs(e) < nowMs)
      && (r.Some? ==>
            && r.value in s
            && StartMs(r.value) >= nowMs
            && forall e :: e in s && StartMs(e) >= nowMs ==>
                 ListedBefore(r.value, e) && StartMs(r.value) <= StartMs(e))
  {
    var l := Listed(s);
    ListedIsOrderedPermutation(s);
    forall e
      ensures e in s <==> e in l
    {
      assert e in s <==> e in multiset(s);
      assert e in l <==> e in multiset(l);
    }
    FirstUpcomingIsEarliest(l, nowMs);
    var r := FirstUpcoming(l, nowMs);
    if r.Some? {
      forall e | e in s && StartMs(e) >= nowMs
        ensures StartMs(r.value) <= StartMs(e)
      {
        Clock.MomentOrder(r.value.eventDate, r.value.eventTime, e.eventDate, e.eventTime);
      }
    }
  }

  class EventsService {
    var events: seq<EventItem>

    constructor()
      ensures events == []
    {
      events := [];
    }

    /** Sorts the stored events in place and returns them. */
    method List() returns (r: seq<EventItem>)
      modifies this
      ensures events == Listed(old(events))
      ensures r == events
    {
      events := Listed(events);
      r := events;
    }

    /** Appends one event whose id is the text of the new length. The body
        is spread after the generated fields, so an `id` or `createdAt` in
        the body replaces the generated one. */
    method Create(data: NewEvent, createdAt: string) returns (item: EventItem)
      modifies this
      ensures item.id == if data.id.Some? then data.id.value else Decimal.NatToString(|old(events)| + 1)
      ensures item.createdAt == if data.createdAt.Some? then data.createdAt.value else createdAt
      ensures item.title == data.title && item.eventDate == data.eventDate
      ensures item.eventTime == data.eventTime && item.roundDuration == data.roundDuration
      ensures events == old(events) + [item]
    {
      item := EventItem(data.id.GetOr(Decimal.NatToString(|events| + 1)), data.title,
                        data.eventDate, data.eventTime, data.roundDuration, data.createdAt.GetOr(createdAt));
      events := events + [item];
    }

    /** Merges `patch` into the first event with that id; unknown ids change nothing. */
    method Update(id: string, patch: EventPatch) returns (r: Option<EventItem>)
      modifies this
      ensures var i := Seqs.FindIndex(old(events), HasId(id));
        if i == -1 then r == None && events == old(events)
        else r == Some(Merge(old(events)[i], patch)) && events == old(events)[i := r.value]
    {
      var idx := Seqs.FindIndex(events, HasId(id));
      if idx == -1 {
        return None;
      }
      events := events[idx := Merge(events[idx], patch)];
      r := Some(events[idx]);
    }

    /** Drops every event with that id; reports whether the length changed. */
    method Remove(id: string) returns (removed: bool)
      modifies this
      ensures events == Without(old(events), id)
      ensures removed <==> |events| != |old(events)|
      ensures removed <==> exists e :: e in old(events) && e.id == id
    {
      var before := |events|;
      events := Without(events, id);
      removed := |events| != before;
      WithoutSpec(old(events), id);
    }

    /** Lists (and so sorts) the events, then picks the first one at or after `nowMs`. */
    method Next(nowMs: int) returns (r: Option<EventItem>)
      modifies this
      ensures events == Listed(old(events))
      ensures r == FirstUpcoming(events, nowMs)
    {
      var listed := List();
      r := FirstUpcoming(listed, nowMs);
    }
  }

  /** Ids are not unique: after a removal, `create` can reissue a live id. */
  method IdsRepeatAfterRemoval() returns (svc: EventsService)
    ensures |svc.events| == 2
    ensures svc.events[0].id == "2" && svc.events[1].id == "2"
  {
    svc := new EventsService();
    var data := NewEvent(None, 0, 1140, 7, None, None);
    var first := svc.Create(data, "t1");
    var second := svc.Create(data, "t2");
    var removed := svc.Remove("1");
    assert svc.events == [second] by {
      assert svc.events == Seqs.Filter([first, second], HasOtherId("1"));
      assert [first, second][1..] == [second];
    }
    var third := svc.Create(data, "t3");
  }
}
