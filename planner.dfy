/** The planner: scheduled posts expanded into one calendar event per platform, the month and
    year navigation of the toolbar, and the confirm/cancel dialog that follows dragging an event
    to a new time. The calendar's own event store is modelled as the map from event id to
    start time; the library moves an event in it when it is dropped. */
module Planner {
  import opened Wrappers
  import opened TextUtil

  /** A scheduled post as the server returns it; `content` lists the entries of the per-platform
      text object in its key order. */
  datatype ScheduledPost = ScheduledPost(
    id: string,
    platforms: seq<string>,
    content: seq<(string, string)>,
    scheduledTime: string,
    image: Option<string>,
    userId: string,
    status: string,
    jobId: string)

  /** One calendar event; `title` is `None` when it is `undefined`. */
  datatype CalendarEvent = CalendarEvent(
    id: string,
    title: Option<string>,
    start: string,
    imageUrl: Option<string>,
    platform: string,
    userId: string,
    status: string,
    jobId: string)

  /** The value stored under `key`, if any. */
  function Lookup(content: seq<(string, string)>, key: string): (r: Option<string>)
    ensures r.Some? <==> exists i :: 0 <= i < |content| && content[i].0 == key
    ensures r.Some? ==> exists i :: 0 <= i < |content| && content[i] == (key, r.value)
  {
    if content == [] then None
    else if content[0].0 == key then Some(content[0].1)
    else
      var r := Lookup(content[1..], key);
      if r.Some? then
        var i :| 0 <= i < |content[1..]| && content[1..][i] == (key, r.value);
        assert content[i + 1] == (key, r.value);
        r
      else r
  }

  /** `content[platform] || Object.values(content)[0]`: the platform's own text when it is not
      empty, otherwise the first text of the post, or `undefined` when the post has none. */
  function Title(content: seq<(string, string)>, platform: string): (r: Option<string>)
    ensures r.None? <==> content == [] && Lookup(content, platform).None?
    ensures Lookup(content, platform).Some? && Lookup(content, platform).value != "" ==> r == Lookup(content, platform)
    ensures !(Lookup(content, platform).Some? && Lookup(content, platform).value != "") && content != [] ==>
      r == Some(content[0].1)
  {
    var own := Lookup(content, platform);
    if own.Some? && own.value != "" then own
    else if content != [] then Some(content[0].1)
    else None
  }

  const Dash := "-"

  /** The event of one post on one platform. */
  function EventFor(post: ScheduledPost, platform: string): (e: CalendarEvent)
    ensures e.id == post.id + Dash + platform
    ensures e.platform == platform && e.title == Title(post.content, platform)
    ensures e.start == post.scheduledTime && e.imageUrl == post.image
    ensures e.userId == post.userId && e.status == post.status && e.jobId == post.jobId
  {
    CalendarEvent(post.id + Dash + platform, Title(post.content, platform), post.scheduledTime,
                  post.image, platform, post.userId, post.status, post.jobId)
  }

  /** `post.platforms.map(...)`. */
  function EventsOf(post: ScheduledPost): seq<CalendarEvent> {
    seq(|post.platforms|, j requires 0 <= j < |post.platforms| => EventFor(post, post.platforms[j]))
  }

  /** `data.flatMap(...)`: the events of every post, post after post. */
  function ExpandPosts(posts: seq<ScheduledPost>): seq<CalendarEvent> {
    if posts == [] then [] else EventsOf(posts[0]) + ExpandPosts(posts[1..])
  }

  /** The total number of platforms over the posts. */
  function PlatformCount(posts: seq<ScheduledPost>): nat {
    if posts == [] then 0 else |posts[0].platforms| + PlatformCount(posts[1..])
  }

  /** There is one event per (post, platform) pair. */
  lemma {:induction false} ExpandCount(posts: seq<ScheduledPost>)
    ensures |ExpandPosts(posts)| == PlatformCount(posts)
  {
    if posts != [] {
      ExpandCount(posts[1..]);
    }
  }

  lemma PlatformCountPrefix(posts: seq<ScheduledPost>, i: nat)
    requires 0 < i <= |posts|
    ensures PlatformCount(posts[..i]) == |posts[0].platforms| + PlatformCount(posts[1..][..i - 1])
  {
    assert posts[..i][1..] == posts[1..][..i - 1];
  }

  lemma ExpandFirst(posts: seq<ScheduledPost>, j: nat)
    requires posts != [] && j < |posts[0].platforms|
    ensures j < |ExpandPosts(posts)| && ExpandPosts(posts)[j] == EventFor(posts[0], posts[0].platforms[j])
  {
    assert ExpandPosts(posts) == EventsOf(posts[0]) + ExpandPosts(posts[1..]);
  }

  lemma ExpandShift(posts: seq<ScheduledPost>, n: nat)
    requires posts != [] && n < |ExpandPosts(posts[1..])|
    ensures |posts[0].platforms| + n < |ExpandPosts(posts)|
    ensures ExpandPosts(posts)[|posts[0].platforms| + n] == ExpandPosts(posts[1..])[n]
  {
    var head := EventsOf(posts[0]);
    assert ExpandPosts(posts) == head + ExpandPosts(posts[1..]);
    assert |head| == |posts[0].platforms|;
  }

  /** The events follow the posts, and within a post its platforms: the event of post `i` on
      its platform `j` comes after the events of the earlier posts, at offset `j`. */
  lemma {:induction false} ExpandIndex(posts: seq<ScheduledPost>, i: nat, j: nat)
    requires i < |posts| && j < |posts[i].platforms|
    ensures PlatformCount(posts[..i]) + j < |ExpandPosts(posts)|
    ensures ExpandPosts(posts)[PlatformCount(posts[..i]) + j] == EventFor(posts[i], posts[i].platforms[j])
  {
    if i == 0 {
      assert posts[..0] == [];
      ExpandFirst(posts, j);
    } else {
      var before := PlatformCount(posts[1..][..i - 1]);
      ExpandIndex(posts[1..], i - 1, j);
      assert posts[1..][i - 1] == posts[i];
      PlatformCountPrefix(posts, i);
      ExpandShift(posts, before + j);
    }
  }

  /** Every event is the event of some post on one of its platforms. */
  lemma {:induction false} ExpandSound(posts: seq<ScheduledPost>, n: nat)
    requires n < |ExpandPosts(posts)|
    ensures exists i, j ::
      0 <= i < |posts| && 0 <= j < |posts[i].platforms| && ExpandPosts(posts)[n] == EventFor(posts[i], posts[i].platforms[j])
  {
    var head := EventsOf(posts[0]);
    if n < |head| {
      assert ExpandPosts(posts)[n] == EventFor(posts[0], posts[0].platforms[n]);
    } else {
      ExpandSound(posts[1..], n - |head|);
      var i, j :| 0 <= i < |posts[1..]| && 0 <= j < |posts[1..][i].platforms|
        && ExpandPosts(posts[1..])[n - |head|] == EventFor(posts[1..][i], posts[1..][i].platforms[j]);
      assert posts[1..][i] == posts[i + 1];
    }
  }

  /** The calendar's store once it is given `events`: each event's id mapped to its start (an
      id given twice keeps the later event). */
  function StartsOf(events: seq<CalendarEvent>): (r: map<string, string>)
    ensures forall e <- events :: e.id in r
    ensures forall id <- r.Keys :: exists e <- events :: e.id == id && e.start == r[id]
  {
    if events == [] then map[]
    else
      var last := events[|events| - 1];
      var r := StartsOf(events[..|events| - 1])[last.id := last.start];
      assert forall e <- events :: e == last || e in events[..|events| - 1];
      r
  }

  const Ellipsis := "..."

  /** `truncateText`: the text itself when it fits in `maxLength`, otherwise its first
      `maxLength` characters followed by `...`. */
  function TruncateText(text: string, maxLength: nat): (r: string)
    ensures |text| <= maxLength ==> r == text
    ensures |text| > maxLength ==> r == text[..maxLength] + Ellipsis
    ensures |r| <= maxLength + 3
  {
    if |text| > maxLength then text[..maxLength] + Ellipsis else text
  }

  /** Truncating an already truncated text changes nothing: what it keeps is the same prefix. */
  lemma TruncateIdempotent(text: string, maxLength: nat)
    ensures TruncateText(TruncateText(text, maxLength), maxLength) == TruncateText(text, maxLength)
  {
    if |text| > maxLength {
      var r := TruncateText(text, maxLength);
      assert r[..maxLength] == text[..maxLength];
    }
  }

  // ---- toolbar navigation ----

  /** A calendar day: the year, the month from 0 (January) to 11, and the day of the month. */
  datatype CalendarDate = CalendarDate(year: int, month: int, day: int)

  /** `new Date(year, month, 1)`: a year from 0 to 99 means 1900 plus it, and a month outside
      0..11 carries into the year. */
  function FirstOfMonth(year: int, month: int): (d: CalendarDate)
    ensures 0 <= d.month < 12 && d.day == 1
    ensures 0 <= month < 12 ==> d.month == month
    ensures (year < 0 || 99 < year) && 0 <= month < 12 ==> d.year == year
  {
    var fullYear := if 0 <= year <= 99 then 1900 + year else year;
    CalendarDate(fullYear + month / 12, month % 12, 1)
  }

  /** Month arithmetic: the date is as many months from year 0 as the arguments say. */
  lemma FirstOfMonthCarries(year: int, month: int)
    requires year < 0 || 99 < year
    ensures var d := FirstOfMonth(year, month); d.year * 12 + d.month == year * 12 + month
  {
  }

  /** A month picked in the toolbar: the same year, the chosen month, day 1. */
  function MonthChanged(selected: CalendarDate, newMonth: int): (d: CalendarDate)
    ensures (selected.year < 0 || 99 < selected.year) && 0 <= newMonth < 12 ==>
      d == CalendarDate(selected.year, newMonth, 1)
  {
    FirstOfMonth(selected.year, newMonth)
  }

  /** A year picked in the toolbar: the chosen year, the same month, day 1. */
  function YearChanged(selected: CalendarDate, newYear: int): (d: CalendarDate)
    ensures (newYear < 0 || 99 < newYear) && 0 <= selected.month < 12 ==>
      d == CalendarDate(newYear, selected.month, 1)
  {
    FirstOfMonth(newYear, selected.month)
  }

  /** The years the toolbar offers. */
  const YearRange: seq<int> := [2023, 2024, 2025]

  /** Picking a month and then a year from the toolbar lands on day 1 of that month and year,
      whatever date was shown before. */
  lemma NavigateTo(selected: CalendarDate, month: int, yearIndex: nat)
    requires 0 <= month < 12 && yearIndex < |YearRange|
    ensures YearChanged(MonthChanged(selected, month), YearRange[yearIndex])
      == CalendarDate(YearRange[yearIndex], month, 1)
  {
  }

  // ---- rescheduling by drag and drop ----

  /** The event object captured when a drag starts: its id and the start it had then. */
  datatype EventSnapshot = EventSnapshot(id: string, start: string)

  /** A drop waiting for confirmation: the post's job, the new time and the dragged event. */
  datatype Reschedule = Reschedule(jobId: string, reScheduleTime: string, originalEvent: Option<EventSnapshot>)

  /** The state of the board: the calendar's event starts (`ready` is false while the calendar
      API is not there), the event being dragged, the pending reschedule, and the dialog. */
  datatype Board = Board(
    starts: map<string, string>,
    ready: bool,
    dragging: Option<EventSnapshot>,
    pending: Option<Reschedule>,
    confirmOpen: bool)

  function DragStarted(b: Board, event: EventSnapshot): (r: Board)
    ensures r.dragging == Some(event) && r.starts == b.starts && r.pending == b.pending
    ensures r.ready == b.ready && r.confirmOpen == b.confirmOpen
  {
    b.(dragging := Some(event))
  }

  /** The calendar moves the dropped event to its new start, then the handler records the
      pending reschedule with the captured original and opens the dialog. */
  function Dropped(b: Board, eventId: string, jobId: string, newStart: string): (r: Board)
    ensures r.starts.Keys == b.starts.Keys + {eventId} && r.starts[eventId] == newStart
    ensures forall id <- b.starts.Keys :: id != eventId ==> id in r.starts && r.starts[id] == b.starts[id]
    ensures r.pending == Some(Reschedule(jobId, newStart, b.dragging)) && r.confirmOpen
    ensures r.ready == b.ready && r.dragging == b.dragging
  {
    b.(starts := b.starts[eventId := newStart], pending := Some(Reschedule(jobId, newStart, b.dragging)),
       confirmOpen := true)
  }

  /** Puts the original event back at its original start, when the calendar has it. */
  function Reverted(starts: map<string, string>, original: EventSnapshot): (r: map<string, string>)
    requires original.id in starts
    ensures r.Keys == starts.Keys && r[original.id] == original.start
    ensures forall id <- starts.Keys :: id != original.id ==> r[id] == starts[id]
  {
    starts[original.id := original.start]
  }

  /** Whether reverting is possible: the calendar is there, the original event was captured and
      the calendar still has an event with its id. Otherwise `event.setStart` raises. */
  predicate CanRevert(b: Board) {
    b.ready && b.pending.Some? && b.pending.value.originalEvent.Some? && b.pending.value.originalEvent.value.id in b.starts
  }

  /** Confirm: the request goes out when a reschedule is pending; when the server rejects it the
      event goes back to where it was (a revert that raises happens in a callback and changes
      nothing). The dialog always closes and the pending reschedule is cleared. */
  function Confirmed(b: Board, serverAccepts: bool): (r: (Board, Option<(string, string)>))
    ensures !r.0.confirmOpen && r.0.pending.None? && r.0.ready == b.ready && r.0.dragging == b.dragging
    ensures r.1.Some? <==> b.pending.Some?
    ensures b.pending.Some? ==> r.1 == Some((b.pending.value.jobId, b.pending.value.reScheduleTime))
    ensures !serverAccepts && CanRevert(b) ==> r.0.starts == Reverted(b.starts, b.pending.value.originalEvent.value)
    ensures serverAccepts || !CanRevert(b) ==> r.0.starts == b.starts
  {
    var starts := if b.pending.Some? && !serverAccepts && CanRevert(b)
                  then Reverted(b.starts, b.pending.value.originalEvent.value) else b.starts;
    var request := if b.pending.Some? then Some((b.pending.value.jobId, b.pending.value.reScheduleTime)) else None;
    (b.(starts := starts, pending := None, confirmOpen := false), request)
  }

  /** Cancel: with the calendar there and a reschedule pending, the event goes back to its
      original start; when that raises (no original, or no such event any more) the handler
      stops before closing the dialog. Otherwise the dialog closes and the pending reschedule is
      cleared. The boolean says whether it raised. */
  function Cancelled(b: Board): (r: (Board, bool))
    ensures r.1 <==> b.ready && b.pending.Some? && !CanRevert(b)
    ensures r.1 ==> r.0 == b
    ensures !r.1 ==> !r.0.confirmOpen && r.0.pending.None? && r.0.ready == b.ready && r.0.dragging == b.dragging
    ensures !r.1 && CanRevert(b) ==> r.0.starts == Reverted(b.starts, b.pending.value.originalEvent.value)
    ensures !r.1 && !CanRevert(b) ==> r.0.starts == b.starts
  {
    if b.ready && b.pending.Some? then
      if CanRevert(b) then (b.(starts := Reverted(b.starts, b.pending.value.originalEvent.value), pending := None,
                               confirmOpen := false), false)
      else (b, true)
    else (b.(pending := None, confirmOpen := false), false)
  }

  /** Dragging an event to a new time and cancelling puts every event back where it was. */
  lemma DragThenCancelRestores(b: Board, eventId: string, jobId: string, newStart: string)
    requires b.ready && eventId in b.starts
    ensures var dropped := Dropped(DragStarted(b, EventSnapshot(eventId, b.starts[eventId])), eventId, jobId, newStart);
      var (after, raised) := Cancelled(dropped);
      !raised && after.starts == b.starts && !after.confirmOpen && after.pending.None?
  {
    var dropped := Dropped(DragStarted(b, EventSnapshot(eventId, b.starts[eventId])), eventId, jobId, newStart);
    assert CanRevert(dropped);
    var after := Cancelled(dropped).0;
    assert after.starts == b.starts[eventId := b.starts[eventId]];
  }

  /** On a calendar that is there and holds the loaded posts' events, any of those events can be
      dragged and, on cancel, every event is back where the posts put it. */
  lemma LoadedDragThenCancel(posts: seq<ScheduledPost>, i: nat, j: nat, jobId: string, newStart: string)
    requires i < |posts| && j < |posts[i].platforms|
    ensures var b := Board(StartsOf(ExpandPosts(posts)), true, None, None, false);
      var id := EventFor(posts[i], posts[i].platforms[j]).id;
      && id in b.starts
      && var dropped := Dropped(DragStarted(b, EventSnapshot(id, b.starts[id])), id, jobId, newStart);
         !Cancelled(dropped).1 && Cancelled(dropped).0.starts == b.starts
  {
    var events := ExpandPosts(posts);
    ExpandIndex(posts, i, j);
    assert events[PlatformCount(posts[..i]) + j] in events;
    var b := Board(StartsOf(events), true, None, None, false);
    DragThenCancelRestores(b, EventFor(posts[i], posts[i].platforms[j]).id, jobId, newStart);
  }

  /** Dragging and confirming sends the new time; a rejection puts every event back, an
      acceptance keeps the event at its new start. */
  lemma DragThenConfirm(b: Board, eventId: string, jobId: string, newStart: string, serverAccepts: bool)
    requires b.ready && eventId in b.starts
    ensures var dropped := Dropped(DragStarted(b, EventSnapshot(eventId, b.starts[eventId])), eventId, jobId, newStart);
      var (after, request) := Confirmed(dropped, serverAccepts);
      && request == Some((jobId, newStart))
      && after.starts == (if serverAccepts then b.starts[eventId := newStart] else b.starts)
  {
    var dropped := Dropped(DragStarted(b, EventSnapshot(eventId, b.starts[eventId])), eventId, jobId, newStart);
    assert CanRevert(dropped);
    if !serverAccepts {
      assert Confirmed(dropped, serverAccepts).0.starts == b.starts[eventId := b.starts[eventId]];
    }
  }

  /** The planner page: the events built from the server's posts, the toolbar date, and the
      reschedule bookkeeping. */
  class Calendar {
    var events: seq<CalendarEvent>
    var selectedDate: CalendarDate
    var starts: map<string, string>
    var calendarReady: bool
    var draggingEvent: Option<EventSnapshot>
    var rescheduleInfo: Option<Reschedule>
    var openConfirmModal: bool

    function State(): Board
      reads this
    {
      Board(starts, calendarReady, draggingEvent, rescheduleInfo, openConfirmModal)
    }

    constructor (today: CalendarDate)
      ensures events == [] && selectedDate == today
      ensures State() == Board(map[], false, None, None, false)
    {
      events := [];
      selectedDate := today;
      starts := map[];
      calendarReady := false;
      draggingEvent := None;
      rescheduleInfo := None;
      openConfirmModal := false;
    }

    /** The effect on new data: the posts, when there are any, become the events, and the
        calendar, given the new `events`, holds their starts. */
    method LoadPosts(data: Option<seq<ScheduledPost>>)
      modifies this
      ensures data.Some? ==>
        events == ExpandPosts(data.value) && State() == old(State()).(starts := StartsOf(events))
      ensures data.None? ==> events == old(events) && State() == old(State())
      ensures selectedDate == old(selectedDate)
    {
      if data.Some? {
        events := ExpandPosts(data.value);
        starts := StartsOf(events);
      }
    }

    /** The calendar's `ref` callback stores its API, and the effect on the API shows the
        calendar's current date in the toolbar. */
    method AttachCalendar(current: CalendarDate)
      modifies this
      ensures State() == old(State()).(ready := true)
      ensures selectedDate == current && events == old(events)
    {
      calendarReady := true;
      selectedDate := current;
    }

    method HandleMonthChange(newMonth: int)
      modifies this
      ensures selectedDate == MonthChanged(old(selectedDate), newMonth)
      ensures events == old(events) && State() == old(State())
    {
      selectedDate := FirstOfMonth(selectedDate.year, newMonth);
    }

    method HandleYearChange(newYear: int)
      modifies this
      ensures selectedDate == YearChanged(old(selectedDate), newYear)
      ensures events == old(events) && State() == old(State())
    {
      selectedDate := FirstOfMonth(newYear, selectedDate.month);
    }

    method HandleEventDragStart(event: EventSnapshot)
      modifies this
      ensures State() == DragStarted(old(State()), event)
      ensures events == old(events) && selectedDate == old(selectedDate)
    {
      draggingEvent := Some(event);
    }

    /** The calendar moves the event, then `handleEventDrop` runs. */
    method HandleEventDrop(eventId: string, jobId: string, newStart: string)
      modifies this
      ensures State() == Dropped(old(State()), eventId, jobId, newStart)
      ensures events == old(events) && selectedDate == old(selectedDate)
    {
      starts := starts[eventId := newStart];
      rescheduleInfo := Some(Reschedule(jobId, newStart, draggingEvent));
      openConfirmModal := true;
    }

    /** Returns the request sent, as the job id and the new time. */
    method HandleConfirmReschedule(serverAccepts: bool) returns (request: Option<(string, string)>)
      modifies this
      ensures (State(), request) == Confirmed(old(State()), serverAccepts)
      ensures events == old(events) && selectedDate == old(selectedDate)
    {
      request := None;
      if rescheduleInfo.Some? {
        var info := rescheduleInfo.value;
        request := Some((info.jobId, info.reScheduleTime));
        if !serverAccepts && calendarReady && info.originalEvent.Some? && info.originalEvent.value.id in starts {
          starts := starts[info.originalEvent.value.id := info.originalEvent.value.start];
        }
      }
      openConfirmModal := false;
      rescheduleInfo := None;
    }

    /** Returns true when `event.setStart` raised, which leaves everything as it was. */
    method HandleCancelReschedule() returns (raised: bool)
      modifies this
      ensures (State(), raised) == Cancelled(old(State()))
      ensures events == old(events) && selectedDate == old(selectedDate)
    {
      if calendarReady && rescheduleInfo.Some? {
        var original := rescheduleInfo.value.originalEvent;
        if original.None? || original.value.id !in starts {
          return true;
        }
        starts := starts[original.value.id := original.value.start];
      }
      openConfirmModal := false;
      rescheduleInfo := None;
      raised := false;
    }
  }
}
