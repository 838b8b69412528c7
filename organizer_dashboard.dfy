/** The organizer dashboard: a list of events seeded from the initial events,
    a create-event form held as text, and the dialog that shows it. Creating
    is guarded by the one-week window; deleting filters on the id. */
module OrganizerDashboard {
  import opened Wrappers
  import opened Seqs
  import opened Text
  import opened EventTypes
  import opened AuthContext
  import opened EventCard

  /** The form's text fields; `tags` is the raw comma-separated input. */
  datatype EventForm = EventForm(
    title: string,
    club: string,
    description: string,
    category: string,
    tags: string,
    dateTime: string,
    venue: string)

  /** The fields a form input edits. */
  datatype FormField = TitleField | ClubField | DescriptionField | CategoryField
                     | TagsField | DateTimeField | VenueField

  const EMPTY_FORM: EventForm := EventForm("", "", "", "", "", "", "")

  /** `formData.tags.split(",").map(tag => tag.trim())`: one tag per comma
      plus one, the i-th being the trimmed i-th piece, with no edge whitespace
      and no comma. The empty input gives a single empty tag. */
  function ParseTags(tags: string): (r: seq<string>)
    ensures |r| == Count(tags, ',') + 1
    ensures forall i :: 0 <= i < |r| ==>
      r[i] == Trim(Split(tags, ',')[i]) && Trimmed(r[i]) && ',' !in r[i]
    ensures tags == "" ==> r == [""]
  {
    var pieces := Split(tags, ',');
    seq(|pieces|, i requires 0 <= i < |pieces| => Trim(pieces[i]))
  }

  /** The event a submission creates: the form's fields, the trimmed tags, the
      signed-in organizer as creator and zero counts. */
  function NewEvent(form: EventForm, id: string, creator: string): (e: Event)
    ensures e.interested == 0 && e.going == 0 && e.createdBy == creator && e.id == id
    ensures e.title == form.title && e.club == form.club && e.description == form.description
      && e.category == form.category && e.dateTime == form.dateTime && e.venue == form.venue
    ensures e.tags == ParseTags(form.tags)
  {
    Event(id, form.title, form.club, form.description, form.category, ParseTags(form.tags),
          form.dateTime, form.venue, creator, 0, 0)
  }

  /** The list after `handleDelete(id)`: no event carrying `id` is left, and
      every remaining event was in the list. */
  function WithoutId(events: seq<Event>, id: string): (r: seq<Event>)
    ensures |r| <= |events|
    ensures forall i :: 0 <= i < |r| ==> r[i].id != id && r[i] in events
  {
    Filter(events, (e: Event) => e.id != id)
  }

  /** A deletion keeps exactly the events whose id differs, and no event with
      that id is left. */
  lemma WithoutIdMembership(events: seq<Event>, id: string, e: Event)
    ensures e in WithoutId(events, id) <==> e in events && e.id != id
  {
    FilterMembership(events, (e: Event) => e.id != id, e);
  }

  /** The remaining events keep their order. */
  lemma WithoutIdKeepsOrder(events: seq<Event>, id: string)
    ensures IsSubsequence(WithoutId(events, id), events)
  {
    FilterIsSubsequence(events, (e: Event) => e.id != id);
  }

  /** Deleting an id that no event carries changes nothing. */
  lemma WithoutAbsentId(events: seq<Event>, id: string)
    requires forall i :: 0 <= i < |events| ==> events[i].id != id
    ensures WithoutId(events, id) == events
  {
    FilterAllPass(events, (e: Event) => e.id != id);
  }

  /** Deleting the same id twice is deleting it once. */
  lemma WithoutIdIdempotent(events: seq<Event>, id: string)
    ensures WithoutId(WithoutId(events, id), id) == WithoutId(events, id)
  {
    FilterIdempotent(events, (e: Event) => e.id != id);
  }

  /** Deleting a freshly created event by its id gives back the list it was
      added to, when no older event shares the id. */
  lemma DeleteUndoesCreate(events: seq<Event>, e: Event)
    requires forall i :: 0 <= i < |events| ==> events[i].id != e.id
    ensures WithoutId([e] + events, e.id) == events
  {
    assert ([e] + events)[1..] == events;
    WithoutAbsentId(events, e.id);
  }

  /** The text a form field holds. */
  function FieldValue(form: EventForm, field: FormField): string
  {
    match field
    case TitleField => form.title
    case ClubField => form.club
    case DescriptionField => form.description
    case CategoryField => form.category
    case TagsField => form.tags
    case DateTimeField => form.dateTime
    case VenueField => form.venue
  }

  /** The form after an input changes one field: that field reads back the
      new value and every other field reads back what it held. */
  function WithField(form: EventForm, field: FormField, value: string): (r: EventForm)
    ensures FieldValue(r, field) == value
    ensures forall f :: f != field ==> FieldValue(r, f) == FieldValue(form, f)
  {
    match field
    case TitleField => form.(title := value)
    case ClubField => form.(club := value)
    case DescriptionField => form.(description := value)
    case CategoryField => form.(category := value)
    case TagsField => form.(tags := value)
    case DateTimeField => form.(dateTime := value)
    case VenueField => form.(venue := value)
  }

  /** The inputs marked `required`. */
  const REQUIRED_FIELDS: set<FormField> := {TitleField, ClubField, DescriptionField, DateTimeField, VenueField}

  /** The browser submits the form only when every input marked `required`
      (title, club, description, date-time, venue) is non-empty; the category
      select and the tags input are not required. */
  predicate RequiredFilled(form: EventForm)
    ensures RequiredFilled(form) <==> forall f :: f in REQUIRED_FIELDS ==> FieldValue(form, f) != ""
    ensures RequiredFilled(form) ==> form != EMPTY_FORM
  {
    form.title != "" && form.club != "" && form.description != ""
    && form.dateTime != "" && form.venue != ""
  }

  /** The dashboard shows only to a signed-in organizer; anyone else is
      redirected. */
  predicate Shows(user: Option<User>): (r: bool)
    ensures r <==> user.Some? && user.value.role != Student
  {
    user.Some? && user.value.role == Organizer
  }

  class Dashboard {
    var events: seq<Event>
    var isDialogOpen: bool
    var formData: EventForm

    /** Starts from the seed events, the dialog closed and the form empty. */
    constructor ()
      ensures events == INITIAL_EVENTS && !isDialogOpen && formData == EMPTY_FORM
    {
      events := INITIAL_EVENTS;
      isDialogOpen := false;
      formData := EMPTY_FORM;
    }

    /** The dialog's open-change callback. */
    method SetDialogOpen(open: bool)
      modifies this`isDialogOpen
      ensures isDialogOpen == open
    {
      isDialogOpen := open;
    }

    /** An input's change callback: one field takes the new value, the others
        keep theirs. */
    method EditField(field: FormField, value: string)
      modifies this`formData
      ensures formData == WithField(old(formData), field, value)
    {
      formData := WithField(formData, field, value);
    }

    /** `handleSubmit`, reachable only from the form inside the open dialog. A date before `now` or more than a week after it is
        refused and nothing changes. Otherwise the new event (id `newId`,
        created by the organizer) goes to the front of the list, the dialog
        closes and the form is emptied. */
    method HandleSubmit(parse: DateParser, now: int, newId: string, organizer: User) returns (accepted: bool)
      requires Shows(Some(organizer)) && isDialogOpen
      modifies this
      ensures accepted <==> !OutsideWeek(parse(old(formData).dateTime), now)
      ensures accepted ==>
        events == [NewEvent(old(formData), newId, organizer.email)] + old(events)
        && !isDialogOpen && formData == EMPTY_FORM
      ensures !accepted ==>
        events == old(events) && isDialogOpen == old(isDialogOpen) && formData == old(formData)
    {
      var eventDate := parse(formData.dateTime);
      if OutsideWeek(eventDate, now) {
        return false;
      }
      var newEvent := NewEvent(formData, newId, organizer.email);
      events := [newEvent] + events;
      isDialogOpen := false;
      formData := EMPTY_FORM;
      return true;
    }

    /** Pressing "Create Event" in the open dialog: the browser blocks the submission while a
        required field is empty; otherwise `handleSubmit` runs. */
    method Submit(parse: DateParser, now: int, newId: string, organizer: User) returns (created: bool)
      requires Shows(Some(organizer)) && isDialogOpen
      modifies this
      ensures created <==> RequiredFilled(old(formData)) && !OutsideWeek(parse(old(formData).dateTime), now)
      ensures created ==>
        events == [NewEvent(old(formData), newId, organizer.email)] + old(events)
        && !isDialogOpen && formData == EMPTY_FORM
      ensures !created ==>
        events == old(events) && isDialogOpen == old(isDialogOpen) && formData == old(formData)
    {
      if !RequiredFilled(formData) {
        return false;
      }
      created := HandleSubmit(parse, now, newId, organizer);
    }

    /** `handleDelete`: drops every event with the given id. */
    method HandleDelete(eventId: string)
      modifies this`events
      ensures events == WithoutId(old(events), eventId)
    {
      events := WithoutId(events, eventId);
    }
  }

  /** What a caller can rely on: an accepted event sits at the front with zero
      counts, the older events follow unchanged, and deleting
      it restores the list when its id was fresh. */
  method CreateThenDelete(parse: DateParser, now: int, organizer: User, title: string)
    requires Shows(Some(organizer))
    requires parse("2025-10-08T13:45:00") == Some(now + 1000)
  {
    var d := new Dashboard();
    d.SetDialogOpen(true);
    d.EditField(TitleField, title);
    d.EditField(DateTimeField, "2025-10-08T13:45:00");
    var ok := d.HandleSubmit(parse, now, "9", organizer);
    assert ok;
    var e := d.events[0];
    assert e.interested == 0 && e.going == 0 && e.createdBy == organizer.email && e.title == title;
    assert d.events[1..] == INITIAL_EVENTS;
    assert d.formData == EMPTY_FORM && !d.isDialogOpen;
    d.HandleDelete("9");
    assert forall i :: 0 <= i < |INITIAL_EVENTS| ==> INITIAL_EVENTS[i].id != "9";
    DeleteUndoesCreate(INITIAL_EVENTS, e);
    assert d.events == INITIAL_EVENTS;
  }

  /** The dashboard renders each event as an organizer's card with `onDelete`
      wired to `HandleDelete` and no `onEdit`: Delete removes the card's event,
      Edit does nothing. */
  method ClickOnDashboardCard(d: Dashboard, i: nat) returns (edited: Option<Event>)
    requires i < |d.events|
    modifies d`events
    ensures edited == None
    ensures d.events == WithoutId(old(d.events), old(d.events)[i].id)
  {
    var card := new Card(d.events[i], true, false, true);
    edited := card.ClickEdit();
    var deleted := card.ClickDelete();
    d.HandleDelete(deleted.value);
  }
}
