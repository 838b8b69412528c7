/** One event's card: the event's details, two independent participation
    toggles for students, and Edit/Delete buttons for organizers. */
module EventCard {
  import opened Wrappers
  import opened EventTypes

  /** The card's local participation flags. */
  datatype Toggles = Toggles(interested: bool, going: bool)

  const INITIAL_TOGGLES: Toggles := Toggles(false, false)

  /** The "Interested" button's click: `setIsInterested(!isInterested)`. */
  function FlipInterested(t: Toggles): (r: Toggles)
    ensures r.interested != t.interested && r.going == t.going
  {
    t.(interested := !t.interested)
  }

  /** The "Going" button's click: `setIsGoing(!isGoing)`. */
  function FlipGoing(t: Toggles): (r: Toggles)
    ensures r.going != t.going && r.interested == t.interested
  {
    t.(going := !t.going)
  }

  /** Each click changes only its own flag, clicking twice restores the state,
      and the two clicks commute. */
  lemma {:induction false} TogglesAreIndependent(t: Toggles)
    ensures FlipInterested(t).going == t.going && FlipInterested(t).interested != t.interested
    ensures FlipGoing(t).interested == t.interested && FlipGoing(t).going != t.going
    ensures FlipInterested(FlipInterested(t)) == t && FlipGoing(FlipGoing(t)) == t
    ensures FlipInterested(FlipGoing(t)) == FlipGoing(FlipInterested(t))
  {
  }

  /** The flags are not exclusive: one click on each from the start sets both. */
  lemma BothFlagsCanBeSet()
    ensures FlipGoing(FlipInterested(INITIAL_TOGGLES)) == Toggles(true, true)
  {
  }

  /** After any sequence of clicks a flag is set exactly when its own button
      was clicked an odd number of times. */
  function ApplyClicks(t: Toggles, clicks: seq<bool>): Toggles
    decreases |clicks|
  {
    if clicks == [] then t
    else ApplyClicks(if clicks[0] then FlipInterested(t) else FlipGoing(t), clicks[1..])
  }

  /** Number of `true` entries of `s`. */
  function CountTrue(s: seq<bool>): nat
  {
    if s == [] then 0 else (if s[0] then 1 else 0) + CountTrue(s[1..])
  }

  /** Number of `false` entries of `s`. */
  function CountFalse(s: seq<bool>): nat
  {
    if s == [] then 0 else (if s[0] then 0 else 1) + CountFalse(s[1..])
  }

  /** Interested-clicks (`true`) and going-clicks (`false`) act on their own
      flag only: each flag ends up as its start value flipped once per click
      of its own button. */
  lemma {:induction false} ClicksParity(t: Toggles, clicks: seq<bool>)
    ensures ApplyClicks(t, clicks).interested == (t.interested != (CountTrue(clicks) % 2 == 1))
    ensures ApplyClicks(t, clicks).going == (t.going != (CountFalse(clicks) % 2 == 1))
    decreases |clicks|
  {
    if clicks != [] {
      ClicksParity(if clicks[0] then FlipInterested(t) else FlipGoing(t), clicks[1..]);
    }
  }

  /** The buttons a card shows. */
  datatype Control = InterestedButton(pressed: bool) | GoingButton(pressed: bool)
                   | EditButton | DeleteButton(eventId: string)

  /** Students get the two toggles, organizers get Edit and Delete: two
      buttons either way, each an organizer's button exactly when the viewer
      is an organizer. */
  function Controls(event: Event, isOrganizer: bool, t: Toggles): (r: seq<Control>)
    ensures |r| == 2
    ensures forall c :: c in r ==> (c.EditButton? || c.DeleteButton?) == isOrganizer
  {
    (if !isOrganizer then [InterestedButton(t.interested), GoingButton(t.going)] else [])
    + (if isOrganizer then [EditButton, DeleteButton(event.id)] else [])
  }

  /** The toggles appear exactly for a viewer who is not an organizer, Edit and
      Delete exactly for an organizer, each button shows its own flag, and
      Delete carries the event's id. */
  lemma ControlsByRole(event: Event, isOrganizer: bool, t: Toggles)
    ensures InterestedButton(t.interested) in Controls(event, isOrganizer, t) <==> !isOrganizer
    ensures GoingButton(t.going) in Controls(event, isOrganizer, t) <==> !isOrganizer
    ensures EditButton in Controls(event, isOrganizer, t) <==> isOrganizer
    ensures forall c :: c in Controls(event, isOrganizer, t) && c.DeleteButton? ==> c.eventId == event.id && isOrganizer
    ensures forall c :: c in Controls(event, isOrganizer, t) && c.InterestedButton? ==> c.pressed == t.interested
    ensures forall c :: c in Controls(event, isOrganizer, t) && c.GoingButton? ==> c.pressed == t.going
    ensures isOrganizer ==> DeleteButton(event.id) in Controls(event, isOrganizer, t)
  {
    var cs := Controls(event, isOrganizer, t);
    if isOrganizer {
      assert cs == [EditButton, DeleteButton(event.id)];
    } else {
      assert cs == [InterestedButton(t.interested), GoingButton(t.going)];
    }
  }

  /** A value read off an event object in JavaScript: reading a property the
      object does not have yields `undefined`. */
  datatype JsValue = Undefined | Str(s: string) | Num(n: int) | Strs(a: seq<string>)

  /** `event[name]` for the properties the Event type declares. */
  function Property(e: Event, name: string): JsValue
  {
    if name == "id" then Str(e.id)
    else if name == "title" then Str(e.title)
    else if name == "club" then Str(e.club)
    else if name == "description" then Str(e.description)
    else if name == "category" then Str(e.category)
    else if name == "tags" then Strs(e.tags)
    else if name == "dateTime" then Str(e.dateTime)
    else if name == "venue" then Str(e.venue)
    else if name == "createdBy" then Str(e.createdBy)
    else if name == "interested" then Num(e.interested)
    else if name == "going" then Num(e.going)
    else Undefined
  }

  /** The counts line as the card is written: it reads `interested_count` and
      `going_count`. */
  function CountsAsWritten(e: Event): (JsValue, JsValue)
  {
    (Property(e, "interested_count"), Property(e, "going_count"))
  }

  /** The date as the card is written: it reads `event_date_time`. */
  function DateAsWritten(e: Event): JsValue
  {
    Property(e, "event_date_time")
  }

  /** As written, the card never shows an event's counts or date: all three
      properties it reads are absent from the Event type. */
  lemma CardReadsAbsentProperties(e: Event)
    ensures CountsAsWritten(e) == (Undefined, Undefined)
    ensures DateAsWritten(e) == Undefined
  {
  }

  /** The counts line as intended: the event's own counts. */
  function ShownCounts(e: Event): (JsValue, JsValue)
  {
    (Property(e, "interested"), Property(e, "going"))
  }

  /** The date as intended: the event's own date text. */
  function ShownDate(e: Event): JsValue
  {
    Property(e, "dateTime")
  }

  /** The corrected card shows the event's counts and date unchanged. */
  lemma ShownDetailsAreTheEvents(e: Event)
    ensures ShownCounts(e) == (Num(e.interested), Num(e.going))
    ensures ShownDate(e) == Str(e.dateTime)
  {
  }

  /** A card's rendered content: its buttons, the counts line and the date. */
  datatype CardView = CardView(controls: seq<Control>, counts: (JsValue, JsValue), date: JsValue)

  class Card {
    const event: Event
    const isOrganizer: bool
    /** Whether the parent passed `onEdit` / `onDelete`. */
    const hasOnEdit: bool
    const hasOnDelete: bool
    var isInterested: bool
    var isGoing: bool

    function State(): Toggles
      reads this
    {
      Toggles(isInterested, isGoing)
    }

    /** What the card renders, with the corrected reads of the counts and the
        date (`ShownCounts`, `ShownDate`); the card as written would show
        neither (`CardReadsAbsentProperties`). */
    function View(): (r: CardView)
      reads this
      ensures r.counts == (Num(event.interested), Num(event.going)) && r.date == Str(event.dateTime)
      ensures |r.controls| == 2
      ensures InterestedButton(isInterested) in r.controls <==> !isOrganizer
      ensures GoingButton(isGoing) in r.controls <==> !isOrganizer
      ensures EditButton in r.controls <==> isOrganizer
      ensures DeleteButton(event.id) in r.controls <==> isOrganizer
    {
      ControlsByRole(event, isOrganizer, State());
      ShownDetailsAreTheEvents(event);
      CardView(Controls(event, isOrganizer, State()), ShownCounts(event), ShownDate(event))
    }

    /** A new card shows both toggles off. */
    constructor (event: Event, isOrganizer: bool, hasOnEdit: bool, hasOnDelete: bool)
      ensures this.event == event && this.isOrganizer == isOrganizer
      ensures this.hasOnEdit == hasOnEdit && this.hasOnDelete == hasOnDelete
      ensures State() == INITIAL_TOGGLES
    {
      this.event := event;
      this.isOrganizer := isOrganizer;
      this.hasOnEdit := hasOnEdit;
      this.hasOnDelete := hasOnDelete;
      isInterested := false;
      isGoing := false;
    }

    /** Clicks "Interested" (shown only to non-organizers). */
    method ClickInterested()
      requires !isOrganizer
      modifies this`isInterested
      ensures State() == FlipInterested(old(State()))
    {
      isInterested := !isInterested;
    }

    /** Clicks "Going" (shown only to non-organizers). */
    method ClickGoing()
      requires !isOrganizer
      modifies this`isGoing
      ensures State() == FlipGoing(old(State()))
    {
      isGoing := !isGoing;
    }

    /** Clicks "Delete" (shown only to organizers): hands the event's id to
        `onDelete` when the parent gave one, and does nothing otherwise. */
    method ClickDelete() returns (deleted: Option<string>)
      requires isOrganizer
      ensures deleted.Some? <==> hasOnDelete
      ensures deleted.Some? ==> DeleteButton(deleted.value) in View().controls && deleted.value == event.id
    {
      ControlsByRole(event, isOrganizer, State());
      deleted := if hasOnDelete then Some(event.id) else None;
    }

    /** Clicks "Edit" (shown only to organizers): hands the event to `onEdit`
        when the parent gave one, and does nothing otherwise. */
    method ClickEdit() returns (edited: Option<Event>)
      requires isOrganizer
      ensures edited.Some? <==> hasOnEdit
      ensures edited.Some? ==> edited.value == event && EditButton in View().controls
    {
      ControlsByRole(event, isOrganizer, State());
      edited := if hasOnEdit then Some(event) else None;
    }
  }

  /** A student's card: clicking both buttons sets both flags, a second click
      on "Interested" clears only that one, and the counts shown never move. */
  method StudentClicks(e: Event)
  {
    var card := new Card(e, false, false, false);
    var counts := card.View().counts;
    card.ClickInterested();
    card.ClickGoing();
    assert card.State() == Toggles(true, true);
    card.ClickInterested();
    assert card.State() == Toggles(false, true);
    assert card.View().counts == counts == (Num(e.interested), Num(e.going));
  }
}
