/**
 * The home page's own logic: the case-insensitive search over the loaded
 * events, the choice of an event's organizer id, and the component state that
 * opening and closing the organizer profile changes. Loading the events from
 * the hosted database is not modelled; its result is a parameter.
 */
module HomePage {
  import opened Wrappers
  import opened Strings

  /** The `TypeError` JavaScript throws when `.toLowerCase()` is called on `null`. */
  datatype FilterError = TypeError

  /**
   * The columns of an event row that this logic reads. `None` is a `null`
   * (or missing) column.
   */
  datatype Event = Event(
    title: Option<string>,
    location: Option<string>,
    userId: Option<string>,
    organizationId: Option<string>)

  /** JavaScript truthiness of an id: present and not the empty string. */
  predicate Truthy(id: Option<string>)
    ensures !Truthy(id) <==> id == None || id == Some("")
  {
    id.Some? && id.value != ""
  }

  /** `event.user_id || event.organization_id`. */
  function OrganizerIdOf(e: Event): (id: Option<string>)
    ensures Truthy(id) <==> Truthy(e.userId) || Truthy(e.organizationId)
    ensures Truthy(e.userId) ==> id == e.userId
    ensures !Truthy(e.userId) ==> id == e.organizationId
  {
    if Truthy(e.userId) then e.userId else e.organizationId
  }

  // ---------------------------------------------------------------------------
  // The search filter

  /**
   * The filter's callback for one event: `e.title.toLowerCase().includes(t)
   * || e.location.toLowerCase().includes(t)` with `t` the lower-cased term.
   * The location is only read when the title does not match.
   */
  function Matches(e: Event, term: string): (r: Result<bool, FilterError>)
    ensures e.title.None? ==> r.Err?
    ensures r == Ok(false) ==> e.title.Some? && e.location.Some?
  {
    match e.title
    case None => Err(TypeError)
    case Some(title) =>
      if Includes(Lower(title), Lower(term)) then Ok(true)
      else
        match e.location
        case None => Err(TypeError)
        case Some(location) => Ok(Includes(Lower(location), Lower(term)))
  }

  /** `events.filter(...)`; the first event whose callback throws aborts the whole filter. */
  function Filter(events: seq<Event>, term: string): (r: Result<seq<Event>, FilterError>)
    ensures r.Ok? ==> IsSubsequence(r.value, events)
  {
    if events == [] then Ok([])
    else
      match Matches(events[0], term)
      case Err(x) => Err(x)
      case Ok(keep) =>
        match Filter(events[1..], term)
        case Err(x) => Err(x)
        case Ok(rest) => Ok(if keep then [events[0]] + rest else rest)
  }

  /** `a` is `b` with some elements left out, the rest kept in order. */
  ghost predicate IsSubsequence<T>(a: seq<T>, b: seq<T>)
    decreases |b|
  {
    if a == [] then true
    else if b == [] then false
    else (a[0] == b[0] && IsSubsequence(a[1..], b[1..])) || IsSubsequence(a, b[1..])
  }

  lemma {:induction false} SubsequenceNoLonger<T>(a: seq<T>, b: seq<T>)
    requires IsSubsequence(a, b)
    ensures |a| <= |b|
    decreases |b|
  {
    if a != [] {
      if a[0] == b[0] && IsSubsequence(a[1..], b[1..]) {
        SubsequenceNoLonger(a[1..], b[1..]);
      } else {
        SubsequenceNoLonger(a, b[1..]);
      }
    }
  }

  /** Reference definition: the lower-cased term occurs in the lower-cased field. */
  ghost predicate ContainsIgnoringCase(field: Option<string>, term: string) {
    field.Some? && exists i :: OccursAt(Lower(field.value), Lower(term), i)
  }

  /** The callback does not throw: the title is present, and so is the location unless the title matches. */
  ghost predicate Evaluable(e: Event, term: string) {
    e.title.Some? && (ContainsIgnoringCase(e.title, term) || e.location.Some?)
  }

  /** The event is one the search asks for. */
  ghost predicate Wanted(e: Event, term: string) {
    ContainsIgnoringCase(e.title, term) || ContainsIgnoringCase(e.location, term)
  }

  /** The callback throws exactly on unevaluable events and otherwise answers `Wanted`. */
  lemma MatchesMeaning(e: Event, term: string)
    ensures Matches(e, term).Ok? <==> Evaluable(e, term)
    ensures Matches(e, term).Ok? ==> (Matches(e, term).value <==> Wanted(e, term))
  {
    if e.title.Some? {
      IncludesIffOccurs(Lower(e.title.value), Lower(term));
    }
    if e.location.Some? {
      IncludesIffOccurs(Lower(e.location.value), Lower(term));
    }
  }

  /** The filter succeeds exactly when no event makes its callback throw. */
  lemma {:induction false} FilterDefinedIff(events: seq<Event>, term: string)
    ensures Filter(events, term).Ok? <==> forall i :: 0 <= i < |events| ==> Evaluable(events[i], term)
  {
    if events != [] {
      MatchesMeaning(events[0], term);
      FilterDefinedIff(events[1..], term);
      assert forall i :: 1 <= i < |events| ==> events[i] == events[1..][i - 1];
    }
  }

  /**
   * Soundness and completeness: a successful filter keeps every wanted event
   * as often as it occurs, drops every other one, and is no longer than the input.
   */
  lemma {:induction false} FilterKeepsExactlyWanted(events: seq<Event>, term: string)
    requires Filter(events, term).Ok?
    ensures var kept := Filter(events, term).value;
            |kept| <= |events| &&
            (forall e :: multiset(kept)[e] == if Wanted(e, term) then multiset(events)[e] else 0) &&
            (forall e :: e in kept ==> Wanted(e, term))
  {
    var kept := Filter(events, term).value;
    SubsequenceNoLonger(kept, events);
    if events != [] {
      var rest := Filter(events[1..], term).value;
      FilterKeepsExactlyWanted(events[1..], term);
      MatchesMeaning(events[0], term);
      assert events == [events[0]] + events[1..];
      assert multiset(events) == multiset{events[0]} + multiset(events[1..]);
      if Matches(events[0], term).value {
        assert kept == [events[0]] + rest;
        assert multiset(kept) == multiset{events[0]} + multiset(rest);
      } else {
        assert kept == rest;
      }
      forall e | e in kept ensures Wanted(e, term) {
        assert multiset(kept)[e] > 0;
      }
    }
  }

  /** An empty search shows every event, provided every title is present. */
  lemma {:induction false} EmptyTermKeepsAll(events: seq<Event>)
    requires forall i :: 0 <= i < |events| ==> events[i].title.Some?
    ensures Filter(events, "") == Ok(events)
  {
    if events != [] {
      assert Lower("") == "";
      assert StartsWith(Lower(events[0].title.value), "");
      EmptyTermKeepsAll(events[1..]);
      assert events == [events[0]] + events[1..];
    }
  }

  /** The search ignores case: terms that lower-case alike select alike. */
  lemma {:induction false} FilterIgnoresTermCase(events: seq<Event>, t1: string, t2: string)
    requires Lower(t1) == Lower(t2)
    ensures Filter(events, t1) == Filter(events, t2)
  {
    if events != [] {
      FilterIgnoresTermCase(events[1..], t1, t2);
    }
  }

  /** Search terms that differ only in the case of ASCII letters select the same events. */
  lemma FilterIgnoresLetterCase(events: seq<Event>, t1: string, t2: string)
    requires EqualIgnoringCase(t1, t2)
    ensures Filter(events, t1) == Filter(events, t2)
  {
    LowerEqualIgnoringCase(t1, t2);
    FilterIgnoresTermCase(events, t1, t2);
  }

  // ---------------------------------------------------------------------------
  // Component state

  /** The state of the `HomePage` component that this logic reads and writes. */
  class HomePageState {
    var events: seq<Event>
    var searchTerm: string
    var selectedOrganizerId: Option<string>
    var isOrganizerOpen: bool

    /** The initial `useState` values. */
    constructor ()
      ensures events == [] && searchTerm == ""
      ensures selectedOrganizerId == None && !isOrganizerOpen
    {
      events := [];
      searchTerm := "";
      selectedOrganizerId := None;
      isOrganizerOpen := false;
    }

    /** `filtered`: what the grid shows for the current state. */
    function Filtered(): (r: Result<seq<Event>, FilterError>)
      reads this
      ensures r.Ok? ==> IsSubsequence(r.value, events) && |r.value| <= |events|
    {
      var r := Filter(events, searchTerm);
      if r.Ok? then SubsequenceNoLonger(r.value, events); r else r
    }

    /** `setEvents(data || [])` with the rows the database returned, or `None` for `null`. */
    method ReceiveEvents(data: Option<seq<Event>>)
      modifies this
      ensures events == (if data.Some? then data.value else [])
      ensures searchTerm == old(searchTerm)
      ensures selectedOrganizerId == old(selectedOrganizerId) && isOrganizerOpen == old(isOrganizerOpen)
    {
      events := if data.Some? then data.value else [];
    }

    /** The search box's `onChange`. */
    method SetSearchTerm(term: string)
      modifies this
      ensures searchTerm == term && events == old(events)
      ensures selectedOrganizerId == old(selectedOrganizerId) && isOrganizerOpen == old(isOrganizerOpen)
    {
      searchTerm := term;
    }

    /** `openOrganizer(id)`: a falsy id is ignored; otherwise it is selected and the profile opened. */
    method OpenOrganizer(id: Option<string>)
      modifies this
      ensures Truthy(id) ==> selectedOrganizerId == id && isOrganizerOpen
      ensures !Truthy(id) ==> selectedOrganizerId == old(selectedOrganizerId) && isOrganizerOpen == old(isOrganizerOpen)
      ensures events == old(events) && searchTerm == old(searchTerm)
      ensures Filtered() == old(Filtered())
    {
      if !Truthy(id) {
        return;
      }
      selectedOrganizerId := id;
      isOrganizerOpen := true;
    }

    /** The organizer button of a card, or the organizer row of the event dialog. */
    method OpenOrganizerOf(e: Event)
      modifies this
      ensures isOrganizerOpen <==> old(isOrganizerOpen) || Truthy(e.userId) || Truthy(e.organizationId)
      ensures Truthy(e.userId) ==> selectedOrganizerId == e.userId
      ensures !Truthy(e.userId) && Truthy(e.organizationId) ==> selectedOrganizerId == e.organizationId
      ensures !Truthy(e.userId) && !Truthy(e.organizationId) ==> selectedOrganizerId == old(selectedOrganizerId)
      ensures events == old(events) && searchTerm == old(searchTerm)
    {
      OpenOrganizer(OrganizerIdOf(e));
    }

    /** The profile dialog's `onClose`. */
    method CloseOrganizer()
      modifies this
      ensures !isOrganizerOpen && selectedOrganizerId == old(selectedOrganizerId)
      ensures events == old(events) && searchTerm == old(searchTerm)
    {
      isOrganizerOpen := false;
    }
  }
}
