/** The events page of the front end: the search box and the category
    buttons filter a fixed list of event cards. */
module EventPage {
  import opened Query
  import opened Strings

  /** The fields of an event card that the filter reads. */
  datatype EventCard = EventCard(id: int, title: string, location: string, category: string)

  /** The category button that selects every card. */
  const AllCategories := "all"

  /** The lower-cased title or location contains the lower-cased query at
      some position; the empty query is contained in every card. */
  predicate MatchesSearch(e: EventCard, query: string): (found: bool)
    ensures found <==> (exists i :: OccursAt(ToLower(e.title), ToLower(query), i)) ||
                       (exists i :: OccursAt(ToLower(e.location), ToLower(query), i))
    ensures query == "" ==> found
  {
    IncludesEmpty(ToLower(e.title));
    Includes(ToLower(e.title), ToLower(query)) || Includes(ToLower(e.location), ToLower(query))
  }

  predicate MatchesCategory(e: EventCard, category: string) {
    category == AllCategories || e.category == category
  }

  /** `filteredEvents`: the cards that match both, in their order. */
  function FilteredEvents(events: seq<EventCard>, query: string, category: string): (r: seq<EventCard>)
    ensures forall e :: e in r <==> e in events && MatchesSearch(e, query) && MatchesCategory(e, category)
    ensures forall e :: multiset(r)[e] ==
                        if MatchesSearch(e, query) && MatchesCategory(e, category) then multiset(events)[e] else 0
    ensures IsSubsequence(r, events)
  {
    Filter(events, (e: EventCard) => MatchesSearch(e, query) && MatchesCategory(e, category))
  }

  /** With an empty search and the 'all' button, every card is shown, in order. */
  lemma NoFilterShowsAll(events: seq<EventCard>)
    ensures FilteredEvents(events, "", AllCategories) == events
  {
    forall e: EventCard
      ensures MatchesSearch(e, "")
    {
      IncludesEmpty(ToLower(e.title));
    }
  }

  /** The empty search matches every card. */
  lemma EmptySearchMatches(e: EventCard)
    ensures MatchesSearch(e, "")
  {
    IncludesEmpty(ToLower(e.title));
  }

  /** The search ignores the case of the query. */
  lemma SearchIgnoresQueryCase(e: EventCard, query: string)
    ensures MatchesSearch(e, query) <==> MatchesSearch(e, ToLower(query))
  {
    ToLowerIdempotent(query);
  }

  /** Lower-casing keeps an occurrence where it is. */
  lemma LowerKeepsOccurrence(s: string, sub: string, i: int)
    requires OccursAt(s, sub, i)
    ensures OccursAt(ToLower(s), ToLower(sub), i)
  {
    assert ToLower(s)[i..i + |sub|] == ToLower(sub) by {
      forall j | 0 <= j < |sub|
        ensures ToLower(s)[i..i + |sub|][j] == ToLower(sub)[j]
      {
        assert s[i..i + |sub|][j] == sub[j];
      }
    }
  }

  /** A query written exactly as it appears in the title or the location finds the card. */
  lemma VerbatimQueryMatches(e: EventCard, query: string)
    requires Includes(e.title, query) || Includes(e.location, query)
    ensures MatchesSearch(e, query)
  {
    if Includes(e.title, query) {
      var i :| OccursAt(e.title, query, i);
      LowerKeepsOccurrence(e.title, query, i);
    } else {
      var i :| OccursAt(e.location, query, i);
      LowerKeepsOccurrence(e.location, query, i);
    }
  }

  /** A category other than 'all' shows only the cards of that category. */
  lemma CategoryIsExact(events: seq<EventCard>, query: string, category: string)
    requires category != AllCategories
    ensures forall e :: e in FilteredEvents(events, query, category) ==> e.category == category
  {
  }
}
