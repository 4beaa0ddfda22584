/** `events.py`: the prompt listing a day's segments, the validation of the events the
    model returns, and how they are stored (one event row each, the first one flagged as
    the top story, and each listed segment pointed at its event). */
module Events {

  import opened Wrappers
  import opened Text
  import opened Utils
  import opened Scripts

  /** A row of the segments query. */
  datatype Segment = Segment(id: int, outlet: string, title: string, summary: string)

  /** An event of the model's reply: its description and the ids of its segments. */
  datatype Event = Event(description: string, segments: seq<int>)

  function SegmentIds(segments: seq<Segment>): (ids: set<int>)
    ensures forall k :: 0 <= k < |segments| ==> segments[k].id in ids
    ensures forall id :: id in ids ==> exists k :: 0 <= k < |segments| && segments[k].id == id
  {
    KeySet((s: Segment) => s.id, segments)
  }

  /** Every segment id the event lists is one of `ids`. */
  predicate KnownSegments(e: Event, ids: set<int>) {
    forall k :: 0 <= k < |e.segments| ==> e.segments[k] in ids
  }

  /** The events that list at least one segment, in their order. */
  function WithSegments(events: seq<Event>): (r: seq<Event>)
    ensures |r| <= |events|
    ensures forall k :: 0 <= k < |r| ==> r[k].segments != [] && r[k] in events
    ensures forall k :: 0 <= k < |events| && events[k].segments != [] ==> events[k] in r
  {
    if events == [] then []
    else (if events[0].segments != [] then [events[0]] else []) + WithSegments(events[1..])
  }

  /** `a` is `b` with some elements left out, the rest in their order. */
  predicate IsSubsequence<T(==)>(a: seq<T>, b: seq<T>)
    decreases |b|
  {
    if a == [] then true
    else if b == [] then false
    else if a[0] == b[0] then IsSubsequence(a[1..], b[1..])
    else IsSubsequence(a, b[1..])
  }

  lemma {:induction false} WithSegmentsIsSubsequence(events: seq<Event>)
    ensures IsSubsequence(WithSegments(events), events)
    decreases |events|
  {
    if events != [] {
      WithSegmentsIsSubsequence(events[1..]);
      if events[0].segments == [] {
        assert WithSegments(events) == WithSegments(events[1..]);
      } else {
        assert WithSegments(events)[1..] == WithSegments(events[1..]);
      }
    }
  }

  /** Events that all list segments pass the filter unchanged. */
  lemma {:induction false} WithSegmentsKeepsFull(events: seq<Event>)
    requires forall k :: 0 <= k < |events| ==> events[k].segments != []
    ensures WithSegments(events) == events
    decreases |events|
  {
    if events != [] {
      WithSegmentsKeepsFull(events[1..]);
    }
  }

  /** `clean_events`: `ValueError` exactly when some event lists a segment id that is not
      among the day's segments; otherwise the events that list at least one segment. */
  function CleanEvents(segments: seq<Segment>, events: seq<Event>): (r: Result<seq<Event>, string>)
    ensures r.Err? <==> exists k :: 0 <= k < |events| && !KnownSegments(events[k], SegmentIds(segments))
    ensures r.Ok? ==> forall k :: 0 <= k < |r.value| ==> r.value[k].segments != [] && KnownSegments(r.value[k], SegmentIds(segments))
  {
    var ids := SegmentIds(segments);
    if exists k :: 0 <= k < |events| && !KnownSegments(events[k], ids) then Err("Event contains segments that don't exist")
    else Ok(WithSegments(events))
  }

  /** The kept events are the input's, in order, and cleaning its own output again changes
      nothing. */
  lemma CleanEventsIdempotent(segments: seq<Segment>, events: seq<Event>)
    requires CleanEvents(segments, events).Ok?
    ensures IsSubsequence(CleanEvents(segments, events).value, events)
    ensures CleanEvents(segments, CleanEvents(segments, events).value) == CleanEvents(segments, events)
  {
    var r := CleanEvents(segments, events).value;
    WithSegmentsIsSubsequence(events);
    WithSegmentsKeepsFull(r);
  }

  const Outlets: seq<string> := ["ABC", "CBS", "NBC"]

  /** A segment as the prompt shows it. */
  function Entry(s: Segment): string {
    "(" + IntStr(s.id) + ") " + s.outlet + "\n" + s.title + ":\n" + s.summary + "\n====================\n"
  }

  /** The entries of the segments of one outlet, in their order. */
  function OutletEntries(segments: seq<Segment>, outlet: string): (r: seq<string>)
    ensures |r| <= |segments|
  {
    if segments == [] then []
    else OutletEntries(segments[..|segments| - 1], outlet)
         + (if segments[|segments| - 1].outlet == outlet then [Entry(segments[|segments| - 1])] else [])
  }

  /** The text one outlet contributes: its entries joined by newlines. */
  function OutletBlock(segments: seq<Segment>, outlet: string): string {
    Join("\n", OutletEntries(segments, outlet))
  }

  /** The blocks of `outlets`, one after the other with nothing between them. */
  function Blocks(segments: seq<Segment>, outlets: seq<string>): string
    decreases |outlets|
  {
    if outlets == [] then "" else Blocks(segments, outlets[..|outlets| - 1]) + OutletBlock(segments, outlets[|outlets| - 1])
  }

  const PromptIntro: string := "These are the news stories that appeared on ABC, CBS, and NBC on "

  const PromptQuestion: string := "What *specific* events happend that day that were reported on by the media? Be sure that your answer is a complete sentence (i.e., not just a noun or list of nouns) and specifc to the date (i.e., not 'the war in Iraq' or 'the economy', but 'Secretary Rumsfeld announced...'). Most segments will probably report at least one event, unless it's news analysis or human interest, but some events will be reported in multiple segments. You should have almost as many events as segments.\nDon't include the same event more than once, and list the most important event first."

  /** The text `get_prompt` builds. */
  function EventsPrompt(segments: seq<Segment>, date: Date): string
    requires ValidDate(date)
  {
    PromptIntro + AdaptDate(date) + ":\n\n" + Blocks(segments, Outlets) + "\n\n" + PromptQuestion
  }

  /** `get_prompt`: the ABC, then CBS, then NBC segments, each outlet's entries joined by
      newlines, between the fixed introduction with the date and the fixed question. */
  method GetPrompt(segments: seq<Segment>, date: Date) returns (prompt: string)
    requires ValidDate(date)
    ensures prompt == EventsPrompt(segments, date)
  {
    var abstracts := "";
    for i := 0 to |Outlets|
      invariant abstracts == Blocks(segments, Outlets[..i])
    {
      assert Outlets[..i + 1][..i] == Outlets[..i];
      abstracts := abstracts + OutletBlock(segments, Outlets[i]);
    }
    assert Outlets[..|Outlets|] == Outlets;
    prompt := PromptIntro + AdaptDate(date) + ":\n\n" + abstracts + "\n\n" + PromptQuestion;
  }

  /** Segments of other outlets are not shown. */
  lemma {:induction false} OtherOutletsIgnored(segments: seq<Segment>, s: Segment, outlets: seq<string>)
    requires s.outlet !in outlets
    ensures Blocks(segments + [s], outlets) == Blocks(segments, outlets)
    decreases |outlets|
  {
    if outlets != [] {
      var o := outlets[|outlets| - 1];
      var init := outlets[..|outlets| - 1];
      assert s.outlet != o;
      assert (segments + [s])[..|segments + [s]| - 1] == segments;
      assert OutletEntries(segments + [s], o) == OutletEntries(segments, o) + [];
      assert OutletEntries(segments + [s], o) == OutletEntries(segments, o);
      assert OutletBlock(segments + [s], o) == OutletBlock(segments, o);
      assert s.outlet !in init;
      OtherOutletsIgnored(segments, s, init);
      assert Blocks(segments + [s], outlets) == Blocks(segments + [s], init) + OutletBlock(segments + [s], o);
    }
  }

  /** A further segment of an outlet is shown after that outlet's earlier segments,
      separated by a newline. */
  lemma OutletBlockAppend(segments: seq<Segment>, s: Segment)
    ensures var before := OutletBlock(segments, s.outlet);
      OutletBlock(segments + [s], s.outlet)
        == if OutletEntries(segments, s.outlet) == [] then Entry(s) else before + "\n" + Entry(s)
  {
    assert (segments + [s])[..|segments + [s]| - 1] == segments;
    JoinAppend("\n", OutletEntries(segments, s.outlet), Entry(s));
  }

  /** A row of the `events` table; its id is its position plus one. */
  datatype EventRow = EventRow(model: string, date: Date, description: string, topStory: bool)

  /** The position of the last event that lists segment `sid`, if any. */
  function LastListing(events: seq<Event>, sid: int): (r: Option<nat>)
    ensures r.Some? ==> r.value < |events| && sid in events[r.value].segments
    ensures r.Some? ==> forall k :: r.value < k < |events| ==> sid !in events[k].segments
    ensures r.None? ==> forall k :: 0 <= k < |events| ==> sid !in events[k].segments
  {
    if events == [] then None
    else if sid in events[|events| - 1].segments then Some(|events| - 1)
    else LastListing(events[..|events| - 1], sid)
  }

  /** The event id a segment ends up with after the events were stored from row id
      `base + 1` on. */
  function Assigned(previous: Option<int>, events: seq<Event>, base: nat, sid: int): Option<int> {
    match LastListing(events, sid)
    case None => previous
    case Some(i) => Some(base + i + 1)
  }

  /** `after` is `before` with one row per event of `evs` appended in order, the first
      one flagged as the top story. */
  ghost predicate RowsAppended(before: seq<EventRow>, after: seq<EventRow>, model: string, date: Date, evs: seq<Event>) {
    && |after| == |before| + |evs|
    && after[..|before|] == before
    && forall i :: 0 <= i < |evs| ==> after[|before| + i] == EventRow(model, date, evs[i].description, i == 0)
  }

  /** Every segment an event of `evs` lists points at the row of the last such event (the
      rows of `evs` get ids from `base + 1` on); every other segment keeps its event. */
  ghost predicate Reassigned(before: map<int, Option<int>>, after: map<int, Option<int>>, evs: seq<Event>, base: nat) {
    && after.Keys == before.Keys
    && forall sid :: sid in after ==> after[sid] == Assigned(before[sid], evs, base, sid)
  }

  /** The two tables the script writes, as far as event storage touches them. */
  class Database {
    /** The `events` table, in insertion order; row `k` has id `k + 1`. */
    var events: seq<EventRow>
    /** `segments.event_id`, by segment id, for every segment in the table. */
    var eventOf: map<int, Option<int>>

    constructor (segmentIds: set<int>)
      ensures events == [] && eventOf.Keys == segmentIds
      ensures forall sid :: sid in eventOf ==> eventOf[sid] == None
    {
      events := [];
      eventOf := map sid | sid in segmentIds :: None;
    }

    /** The storage loop of `generate_events`: one row per event, `top_story` only for
        the first, and every listed segment updated to its event's id, so that a later
        event overrides an earlier one. An id with no segment row updates nothing. */
    method StoreEvents(model: string, date: Date, evs: seq<Event>)
      modifies this
      ensures RowsAppended(old(events), events, model, date, evs)
      ensures Reassigned(old(eventOf), eventOf, evs, |old(events)|)
    {
      var base := |events|;
      ghost var before := eventOf;
      for i := 0 to |evs|
        invariant |events| == base + i && events[..base] == old(events)
        invariant forall k :: 0 <= k < i ==> events[base + k] == EventRow(model, date, evs[k].description, k == 0)
        invariant eventOf.Keys == before.Keys
        invariant forall sid :: sid in eventOf ==> eventOf[sid] == Assigned(before[sid], evs[..i], base, sid)
      {
        events := events + [EventRow(model, date, evs[i].description, i == 0)];
        ghost var mid := eventOf;
        var eventId := |events|;
        PointSegments(evs[i].segments, eventId);
        AssignedAfterStep(before, mid, eventOf, evs, i, base, eventId);
      }
      assert evs[..|evs|] == evs;
    }

    /** The inner loop: every listed segment that has a row now points at `eventId`. */
    method PointSegments(sids: seq<int>, eventId: int)
      modifies this
      ensures events == old(events) && eventOf.Keys == old(eventOf).Keys
      ensures forall sid :: sid in eventOf ==> eventOf[sid] == if sid in sids then Some(eventId) else old(eventOf)[sid]
    {
      for j := 0 to |sids|
        invariant events == old(events) && eventOf.Keys == old(eventOf).Keys
        invariant forall sid :: sid in eventOf ==> eventOf[sid] == if sid in sids[..j] then Some(eventId) else old(eventOf)[sid]
      {
        assert sids[..j + 1] == sids[..j] + [sids[j]];
        if sids[j] in eventOf {
          eventOf := eventOf[sids[j] := Some(eventId)];
        }
      }
      assert sids[..|sids|] == sids;
    }
  }

  lemma AssignedStep(previous: Option<int>, evs: seq<Event>, i: nat, base: nat, sid: int)
    requires i < |evs|
    ensures Assigned(previous, evs[..i + 1], base, sid)
         == if sid in evs[i].segments then Some(base + i + 1) else Assigned(previous, evs[..i], base, sid)
  {
    assert evs[..i + 1][..i] == evs[..i];
  }

  /** One round of the storage loop keeps every segment at its assigned event. */
  lemma AssignedAfterStep(before: map<int, Option<int>>, mid: map<int, Option<int>>, after: map<int, Option<int>>,
                          evs: seq<Event>, i: nat, base: nat, eventId: int)
    requires i < |evs| && mid.Keys == before.Keys && after.Keys == before.Keys && eventId == base + i + 1
    requires forall sid :: sid in mid ==> mid[sid] == Assigned(before[sid], evs[..i], base, sid)
    requires forall sid :: sid in after ==> after[sid] == if sid in evs[i].segments then Some(eventId) else mid[sid]
    ensures forall sid :: sid in after ==> after[sid] == Assigned(before[sid], evs[..i + 1], base, sid)
  {
    forall sid | sid in after
      ensures after[sid] == Assigned(before[sid], evs[..i + 1], base, sid)
    {
      AssignedStep(before[sid], evs, i, base, sid);
    }
  }

  /** Of two events listing the same segment, the later one is the one recorded. */
  lemma LaterEventWins(evs: seq<Event>, i: nat, j: nat, sid: int)
    requires i < j < |evs| && sid in evs[i].segments && sid in evs[j].segments
    ensures LastListing(evs, sid).Some? && LastListing(evs, sid).value >= j
  {
  }

  /** The cleaned events one run of `generate_events` stores, if any. */
  function EventsToStore(segments: seq<Segment>, parsed: Option<seq<Event>>): Option<seq<Event>>
  {
    if segments != [] && parsed.Some? && CleanEvents(segments, parsed.value).Ok?
    then Some(CleanEvents(segments, parsed.value).value)
    else None
  }

  /** The JSON prefix `generate_events` starts the reply with. */
  const EventsJsonStart := "{\"events\":"

  /** What `generate_events` does with the reply once the model was called: events that
      name unknown segments raise (logged by the decorator) and nothing is stored;
      otherwise they are stored in order. */
  method StoreReply(db: Database, model: string, date: Date, segments: seq<Segment>, parsed: Option<seq<Event>>)
    requires segments != []
    modifies db
    ensures var stored := EventsToStore(segments, parsed);
      && (stored.Some? ==>
            && RowsAppended(old(db.events), db.events, model, date, stored.value)
            && Reassigned(old(db.eventOf), db.eventOf, stored.value, |old(db.events)|))
      && (stored.None? ==> db.events == old(db.events) && db.eventOf == old(db.eventOf))
  {
    if parsed.None? {
      return;
    }
    var cleaned := CleanEvents(segments, parsed.value);
    if cleaned.Err? {
      return;
    }
    db.StoreEvents(model, date, cleaned.value);
  }

  /** `generate_events` for one date, as far as the database sees it. `parsed` stands for
      the events the reply parses into (`None` when no JSON object is found or it does not
      validate: logged, nothing stored). A date without segments returns before the model
      is called. */
  method GenerateEvents(db: Database, model: string, date: Date, segments: seq<Segment>, parsed: Option<seq<Event>>)
    returns (call: Option<ChatCall>)
    requires ValidDate(date)
    modifies db
    ensures segments == [] ==> call.None? && db.events == old(db.events) && db.eventOf == old(db.eventOf)
    ensures segments != [] ==> call == Some(ChatCall(EventsPrompt(segments, date), 0.9, EventsJsonStart))
    ensures var stored := EventsToStore(segments, parsed);
      && (stored.Some? ==>
            && RowsAppended(old(db.events), db.events, model, date, stored.value)
            && Reassigned(old(db.eventOf), db.eventOf, stored.value, |old(db.events)|))
      && (stored.None? ==> db.events == old(db.events) && db.eventOf == old(db.eventOf))
  {
    if segments == [] {
      return None;
    }
    var prompt := GetPrompt(segments, date);
    call := Some(ChatCall(prompt, 0.9, EventsJsonStart));
    StoreReply(db, model, date, segments, parsed);
  }
}
