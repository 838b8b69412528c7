/** The event record shared by the feed, the dashboard and the event card,
    the seed list every page starts from, and the one-week scheduling window. */
module EventTypes {
  import opened Wrappers

  /** An event as the client declares it. `dateTime` is kept as the text the
      form produced; turning it into a point in time is the job of a
      `DateParser`. */
  datatype Event = Event(
    id: string,
    title: string,
    club: string,
    description: string,
    category: string,
    tags: seq<string>,
    dateTime: string,
    venue: string,
    createdBy: string,
    interested: int,
    going: int)

  /** `new Date(text).getTime()`: milliseconds since the epoch, or `None` for
      the invalid date (whose time value is NaN). */
  type DateParser = string -> Option<int>

  /** `7 * 24 * 60 * 60 * 1000`: one week in milliseconds. */
  const WEEK_MS: int := 7 * 24 * 60 * 60 * 1000

  /** The feed's test `eventDate >= now && eventDate <= weekFromNow`. Every
      comparison with NaN is false, so the invalid date is never in the week. */
  predicate InWeek(t: Option<int>, now: int)
    ensures InWeek(t, now) <==> t.Some? && !OutsideWeek(t, now)
  {
    t.Some? && now <= t.value && t.value <= now + WEEK_MS
  }

  /** The dashboard's rejection test `eventDate < now || eventDate > weekFromNow`.
      Every comparison with NaN is false, so the invalid date is never rejected. */
  predicate OutsideWeek(t: Option<int>, now: int)
    ensures OutsideWeek(t, now) <==> t.Some? && !(now <= t.value <= now + 604800000)
  {
    t.Some? && (t.value < now || t.value > now + WEEK_MS)
  }

  /** For a real date the two tests are complements: both ends inclusive. */
  lemma WindowTestsAgree(ms: int, now: int)
    ensures WEEK_MS == 604800000
    ensures InWeek(Some(ms), now) <==> now <= ms <= now + 604800000
    ensures OutsideWeek(Some(ms), now) <==> !InWeek(Some(ms), now)
  {
  }

  /** For the invalid date they are not: the dashboard lets it through and the
      feed leaves it out. */
  lemma InvalidDateSplitsTheTests(now: int)
    ensures !OutsideWeek(None, now) && !InWeek(None, now)
  {
  }

  const ORGANIZER_EMAIL: string := "organizer@college.edu"

  /** The eight events every page starts from. */
  const INITIAL_EVENTS: seq<Event> := [
    Event("1", "EXTEMPORE", "Toastmasters",
      "Spontaneous speaking competition to test your quick thinking and communication skills",
      "Competition", ["Public Speaking", "Competition"], "2025-10-06T13:45:00",
      "MBA Conference Room", ORGANIZER_EMAIL, 45, 32),
    Event("2", "LinkedIn Success", "E-CELL",
      "Introduction to LinkedIn and personal branding for career growth",
      "Workshop", ["Career", "Networking", "LinkedIn"], "2025-10-06T13:45:00",
      "ECL 06", ORGANIZER_EMAIL, 78, 56),
    Event("3", "Raw and Rare Workshop", "Incubation Cell",
      "Startup journey from idea to execution - learn from successful entrepreneurs",
      "Workshop", ["Startup", "Entrepreneurship", "Business"], "2025-10-06T13:45:00",
      "Gyaan Mandir Auditorium", ORGANIZER_EMAIL, 92, 67),
    Event("4", "AUDITIONS - Diwali Festival", "Dance Club",
      "Auditions for the upcoming Diwali festival dance performances",
      "Audition", ["Dance", "Festival", "Diwali"], "2025-10-07T13:45:00",
      "Civil Front", ORGANIZER_EMAIL, 65, 48),
    Event("5", "Core Team Auditions", "Music Club",
      "Join the music club core team - showcase your musical talent",
      "Audition", ["Music", "Audition", "Core Team"], "2025-10-07T13:45:00",
      "J.C. Bose", ORGANIZER_EMAIL, 54, 41),
    Event("6", "Clean Drive", "NSS",
      "Plastic-free campus initiative - help make our campus greener",
      "Social", ["Environment", "Social Service", "Campus"], "2025-10-08T13:45:00",
      "Football Ground", ORGANIZER_EMAIL, 38, 29),
    Event("7", "Hands on Workshop", "XPOSURE",
      "Photography workshop covering composition, lighting, and editing techniques",
      "Workshop", ["Photography", "Workshop", "Creative"], "2025-10-08T13:45:00",
      "CS Block 103", ORGANIZER_EMAIL, 71, 52),
    Event("8", "Workshop on Canva", "Design Club",
      "Learn graphic design basics and create stunning visuals using Canva",
      "Workshop", ["Design", "Canva", "Graphics"], "2025-10-09T13:45:00",
      "CS Block 304", ORGANIZER_EMAIL, 88, 63)
  ]

  /** The seed events have distinct ids, non-negative counts, and were all
      created by the one organizer account. */
  lemma InitialEventsWellFormed()
    ensures |INITIAL_EVENTS| == 8
    ensures forall i, j :: 0 <= i < j < |INITIAL_EVENTS| ==> INITIAL_EVENTS[i].id != INITIAL_EVENTS[j].id
    ensures forall i :: 0 <= i < |INITIAL_EVENTS| ==>
      INITIAL_EVENTS[i].interested >= 0 && INITIAL_EVENTS[i].going >= 0
      && INITIAL_EVENTS[i].createdBy == ORGANIZER_EMAIL
  {
  }
}
