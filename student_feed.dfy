/** The student feed: the seed events in the coming week, narrowed by a
    case-insensitive search on title or club and by a category selector. */
module StudentFeed {
  import opened Wrappers
  import opened Seqs
  import opened Text
  import opened EventTypes
  import opened AuthContext

  /** The category selector's "any category" value. */
  const ALL_CATEGORIES: string := "all"

  /** The predicate `getCurrentWeekEvents` filters by. */
  function WeekTest(parse: DateParser, now: int): Event -> bool
  {
    (e: Event) => InWeek(parse(e.dateTime), now)
  }

  /** `getCurrentWeekEvents`: the events dated from `now` to one week later;
      every event it returns has a real date in that window. */
  function WeekEvents(events: seq<Event>, parse: DateParser, now: int): (r: seq<Event>)
    ensures |r| <= |events|
    ensures forall i :: 0 <= i < |r| ==> InWeek(parse(r[i].dateTime), now)
  {
    Filter(events, WeekTest(parse, now))
  }

  /** The search test: the lowercased query occurs in the lowercased title or
      in the lowercased club. The description is not searched. */
  predicate MatchesSearch(e: Event, query: string)
    ensures query == "" ==> MatchesSearch(e, query)
  {
    Includes(Lower(e.title), Lower(query)) || Includes(Lower(e.club), Lower(query))
  }

  /** The category test: "all" matches every event, any other selector only
      the events whose category is exactly (case-sensitively) that text. */
  predicate MatchesCategory(e: Event, category: string)
    ensures category == ALL_CATEGORIES ==> MatchesCategory(e, category)
    ensures category != ALL_CATEGORIES ==> (MatchesCategory(e, category) <==> e.category == category)
  {
    category == ALL_CATEGORIES || e.category == category
  }

  /** The predicate `filteredEvents` filters by. */
  function SearchTest(query: string, category: string): Event -> bool
  {
    (e: Event) => MatchesSearch(e, query) && MatchesCategory(e, category)
  }

  /** `filteredEvents`: every event it lists is dated in the week and passes
      both the search and the category test. */
  function Feed(events: seq<Event>, parse: DateParser, now: int, query: string, category: string): (r: seq<Event>)
    ensures |r| <= |events|
    ensures forall i :: 0 <= i < |r| ==>
      InWeek(parse(r[i].dateTime), now) && MatchesSearch(r[i], query) && MatchesCategory(r[i], category)
  {
    Filter(WeekEvents(events, parse, now), SearchTest(query, category))
  }

  /** The page: students see the feed over the seed events; anyone else (or no
      one) is redirected and nothing is computed. */
  function Page(user: Option<User>, parse: DateParser, now: int, query: string, category: string): (r: Option<seq<Event>>)
    ensures r.Some? <==> user.Some? && user.value.role == Student
    ensures r.Some? ==> IsSubsequence(r.value, INITIAL_EVENTS)
    ensures r.Some? ==> forall e :: e in r.value <==>
      e in INITIAL_EVENTS && InWeek(parse(e.dateTime), now)
      && MatchesSearch(e, query) && MatchesCategory(e, category)
  {
    if user.None? || user.value.role != Student then None
    else
      FeedKeepsOrder(INITIAL_EVENTS, parse, now, query, category);
      FeedMembershipAll(INITIAL_EVENTS, parse, now, query, category);
      Some(Feed(INITIAL_EVENTS, parse, now, query, category))
  }

  /** An event is in the feed exactly when it is one of the inputs, its date is
      in the week (both ends inclusive), it matches the search and it matches
      the category. */
  lemma FeedMembership(events: seq<Event>, parse: DateParser, now: int, query: string, category: string, e: Event)
    ensures e in Feed(events, parse, now, query, category) <==>
      e in events
      && (var t := parse(e.dateTime); t.Some? && now <= t.value <= now + WEEK_MS)
      && MatchesSearch(e, query) && MatchesCategory(e, category)
  {
    FilterMembership(events, WeekTest(parse, now), e);
    FilterMembership(WeekEvents(events, parse, now), SearchTest(query, category), e);
  }

  /** `FeedMembership` for every event at once. */
  lemma FeedMembershipAll(events: seq<Event>, parse: DateParser, now: int, query: string, category: string)
    ensures forall e :: e in Feed(events, parse, now, query, category) <==>
      e in events && InWeek(parse(e.dateTime), now) && MatchesSearch(e, query) && MatchesCategory(e, category)
  {
    forall e: Event
      ensures e in Feed(events, parse, now, query, category) <==>
        e in events && InWeek(parse(e.dateTime), now) && MatchesSearch(e, query) && MatchesCategory(e, category)
    {
      FeedMembership(events, parse, now, query, category, e);
    }
  }

  /** The feed keeps the input's relative order: it is the input with some
      events dropped, nothing sorted or inserted. */
  lemma FeedKeepsOrder(events: seq<Event>, parse: DateParser, now: int, query: string, category: string)
    ensures IsSubsequence(Feed(events, parse, now, query, category), events)
  {
    var week := WeekEvents(events, parse, now);
    FilterIsSubsequence(events, WeekTest(parse, now));
    FilterIsSubsequence(week, SearchTest(query, category));
    SubsequenceTransitive(Feed(events, parse, now, query, category), week, events);
  }

  /** Nothing is duplicated: a selected event appears as often as in the input,
      any other event not at all. */
  lemma FeedMultiplicity(events: seq<Event>, parse: DateParser, now: int, query: string, category: string, e: Event)
    ensures multiset(Feed(events, parse, now, query, category))[e] ==
      if InWeek(parse(e.dateTime), now) && MatchesSearch(e, query) && MatchesCategory(e, category)
      then multiset(events)[e] else 0
  {
    FilterMultiplicity(events, WeekTest(parse, now), e);
    FilterMultiplicity(WeekEvents(events, parse, now), SearchTest(query, category), e);
  }

  /** The search holds exactly when the lowercased query occurs somewhere in the
      lowercased title or the lowercased club. */
  lemma MatchesSearchIff(e: Event, query: string)
    ensures MatchesSearch(e, query) <==>
      (exists i: nat :: OccursAt(Lower(e.title), Lower(query), i))
      || (exists i: nat :: OccursAt(Lower(e.club), Lower(query), i))
  {
    IncludesIff(Lower(e.title), Lower(query));
    IncludesIff(Lower(e.club), Lower(query));
  }

  /** The search ignores ASCII case in the query. */
  lemma SearchIgnoresQueryCase(e: Event, query: string)
    ensures MatchesSearch(e, query) <==> MatchesSearch(e, Lower(query))
  {
    LowerIdempotent(query);
  }

  /** A title that contains the query (ignoring case) puts the event in the
      unfiltered-by-category feed, if its date is in the week. */
  lemma TitleHitIsListed(events: seq<Event>, parse: DateParser, now: int, e: Event, query: string, i: nat)
    requires e in events && InWeek(parse(e.dateTime), now)
    requires OccursAt(Lower(e.title), Lower(query), i)
    ensures e in Feed(events, parse, now, query, ALL_CATEGORIES)
  {
    IncludesIff(Lower(e.title), Lower(query));
    FeedMembership(events, parse, now, query, ALL_CATEGORIES, e);
  }

  /** The description plays no part in the search. */
  lemma DescriptionNotSearched(e: Event, query: string, d: string)
    ensures MatchesSearch(e, query) == MatchesSearch(e.(description := d), query)
  {
  }

  /** With the initial filter state (empty query, "all") the feed is exactly
      the week's events. */
  lemma DefaultFiltersShowWholeWeek(events: seq<Event>, parse: DateParser, now: int)
    ensures Feed(events, parse, now, "", ALL_CATEGORIES) == WeekEvents(events, parse, now)
  {
    var week := WeekEvents(events, parse, now);
    assert forall i :: 0 <= i < |week| ==>
      MatchesSearch(week[i], "") && MatchesCategory(week[i], ALL_CATEGORIES);
    FilterAllPass(week, SearchTest("", ALL_CATEGORIES));
  }

  /** Any category other than "all" keeps only events of exactly that category. */
  lemma CategoryIsExact(events: seq<Event>, parse: DateParser, now: int, query: string, category: string)
    requires category != ALL_CATEGORIES
    ensures forall e :: e in Feed(events, parse, now, query, category) ==> e.category == category
  {
    forall e | e in Feed(events, parse, now, query, category) ensures e.category == category {
      FeedMembership(events, parse, now, query, category, e);
    }
  }
}
