/** The trips page: the search/status filter over the trip list, the two
    status mappings used by the badges, and the choice of hint shown when
    nothing is listed. */
module Trips {
  import opened JsText
  import opened Wrappers

  /** One row of the trip list. */
  datatype Trip = Trip(
    id: string, driver: string, vehicle: string,
    origin: string, destination: string, status: string,
    freight: string, startTime: string, estimatedTime: string,
    distance: string, progress: int)

  const AllStatuses := "all"

  /** The search term, lowered, occurs in the lowered driver, vehicle or id.
      The empty search matches every trip, and a term longer than all three
      fields matches none. */
  predicate MatchesSearch(t: Trip, searchTerm: string)
    ensures searchTerm == "" ==> MatchesSearch(t, searchTerm)
    ensures |searchTerm| > |t.driver| && |searchTerm| > |t.vehicle| && |searchTerm| > |t.id| ==>
      !MatchesSearch(t, searchTerm)
  {
    var term := ToLower(searchTerm);
    IncludesEmpty(ToLower(t.driver));
    || Includes(ToLower(t.driver), term)
    || Includes(ToLower(t.vehicle), term)
    || Includes(ToLower(t.id), term)
  }

  /** The status filter `'all'` lets every trip through; any other value
      lets through exactly the trips with that status. */
  predicate MatchesStatus(t: Trip, statusFilter: string)
    ensures statusFilter == AllStatuses ==> MatchesStatus(t, statusFilter)
    ensures statusFilter != AllStatuses ==> (MatchesStatus(t, statusFilter) <==> t.status == statusFilter)
  {
    statusFilter == AllStatuses || t.status == statusFilter
  }

  /** The predicate given to `trips.filter`; with no search and the filter at
      `'all'` it keeps every trip. */
  predicate Keep(t: Trip, searchTerm: string, statusFilter: string)
    ensures searchTerm == "" && statusFilter == AllStatuses ==> Keep(t, searchTerm, statusFilter)
  {
    MatchesSearch(t, searchTerm) && MatchesStatus(t, statusFilter)
  }

  /** `filteredTrips`. */
  function FilteredTrips(trips: seq<Trip>, searchTerm: string, statusFilter: string): (r: seq<Trip>)
    ensures |r| <= |trips|
    ensures forall t :: t in r ==> Keep(t, searchTerm, statusFilter)
  {
    if trips == [] then []
    else
      var rest := FilteredTrips(trips[1..], searchTerm, statusFilter);
      if Keep(trips[0], searchTerm, statusFilter) then [trips[0]] + rest else rest
  }

  /** `xs` is obtained from `ys` by deleting elements, keeping the order. */
  predicate IsSubsequence<T(==)>(xs: seq<T>, ys: seq<T>)
    decreases |ys|
  {
    if xs == [] then true
    else if ys == [] then false
    else if xs[0] == ys[0] then IsSubsequence(xs[1..], ys[1..])
    else IsSubsequence(xs, ys[1..])
  }

  /** The filtered list is the trip list with some rows deleted, in the
      original order. */
  lemma {:induction false} FilteredIsSubsequence(trips: seq<Trip>, searchTerm: string, statusFilter: string)
    ensures IsSubsequence(FilteredTrips(trips, searchTerm, statusFilter), trips)
  {
    if trips != [] {
      FilteredIsSubsequence(trips[1..], searchTerm, statusFilter);
      var rest := FilteredTrips(trips[1..], searchTerm, statusFilter);
      if Keep(trips[0], searchTerm, statusFilter) {
        assert ([trips[0]] + rest)[1..] == rest;
      } else {
        SubsequenceDropHead(rest, trips);
      }
    }
  }

  /** A subsequence of the tail is a subsequence of the whole list. */
  lemma {:induction false} SubsequenceDropHead<T>(xs: seq<T>, ys: seq<T>)
    requires ys != [] && IsSubsequence(xs, ys[1..])
    ensures IsSubsequence(xs, ys)
    decreases |ys|, 0
  {
    if xs != [] && xs[0] == ys[0] {
      SubsequenceTail(xs, ys[1..]);
    }
  }

  /** Dropping the first element of a subsequence keeps it a subsequence. */
  lemma {:induction false} SubsequenceTail<T>(xs: seq<T>, ys: seq<T>)
    requires xs != [] && IsSubsequence(xs, ys)
    ensures IsSubsequence(xs[1..], ys)
    decreases |ys|, 1
  {
    if xs[0] != ys[0] {
      SubsequenceTail(xs, ys[1..]);
    }
    SubsequenceDropHead(xs[1..], ys);
  }

  /** A trip is listed exactly when it is in the list and passes both the
      search and the status filter. */
  lemma {:induction false} FilteredMembership(trips: seq<Trip>, searchTerm: string, statusFilter: string, t: Trip)
    ensures t in FilteredTrips(trips, searchTerm, statusFilter) <==> t in trips && Keep(t, searchTerm, statusFilter)
  {
    if trips != [] {
      FilteredMembership(trips[1..], searchTerm, statusFilter, t);
      assert t in trips <==> t == trips[0] || t in trips[1..];
    }
  }

  /** A trip is listed as many times as it occurs in the list when it passes
      the filter, and not at all otherwise. */
  lemma {:induction false} FilteredCount(trips: seq<Trip>, searchTerm: string, statusFilter: string, t: Trip)
    ensures multiset(FilteredTrips(trips, searchTerm, statusFilter))[t]
      == if Keep(t, searchTerm, statusFilter) then multiset(trips)[t] else 0
  {
    if trips != [] {
      FilteredCount(trips[1..], searchTerm, statusFilter, t);
      assert trips == [trips[0]] + trips[1..];
    }
  }

  /** With an empty search and the status filter at `'all'`, every trip is
      listed. */
  lemma {:induction false} NoFilterKeepsAll(trips: seq<Trip>)
    ensures FilteredTrips(trips, "", AllStatuses) == trips
  {
    if trips != [] {
      NoFilterKeepsAll(trips[1..]);
    }
  }

  /** The search ignores the case of ASCII letters: two search terms that
      differ only in case list the same trips. */
  lemma {:induction false} SearchIgnoresCase(trips: seq<Trip>, term1: string, term2: string, statusFilter: string)
    requires SameIgnoringCase(term1, term2)
    ensures FilteredTrips(trips, term1, statusFilter) == FilteredTrips(trips, term2, statusFilter)
  {
    if trips != [] {
      SearchIgnoresCase(trips[1..], term1, term2, statusFilter);
    }
  }

  /** In particular, typing the search in capitals changes nothing. */
  lemma UpperCaseSearch(trips: seq<Trip>, term: string, statusFilter: string)
    ensures FilteredTrips(trips, ToUpper(term), statusFilter) == FilteredTrips(trips, term, statusFilter)
  {
    CaseChangesIgnored(term);
    SearchIgnoresCase(trips, ToUpper(term), term, statusFilter);
  }

  /** A status other than `'all'` lists only trips with that status. */
  lemma StatusFilterSelects(trips: seq<Trip>, searchTerm: string, statusFilter: string)
    requires statusFilter != AllStatuses
    ensures forall t :: t in FilteredTrips(trips, searchTerm, statusFilter) ==> t.status == statusFilter
  {
  }

  // ---------------------------------------------------------------------
  // Status mappings

  /** The three statuses the page knows. */
  predicate KnownStatus(status: string) {
    status == "completed" || status == "in_progress" || status == "pending"
  }

  /** `getStatusText`: a Portuguese label for the known statuses, the status
      itself otherwise. */
  function StatusText(status: string): (r: string)
    ensures status == "completed" ==> r == "Concluída"
    ensures status == "in_progress" ==> r == "Em Andamento"
    ensures status == "pending" ==> r == "Pendente"
    ensures !KnownStatus(status) ==> r == status
  {
    match status
    case "completed" => "Concluída"
    case "in_progress" => "Em Andamento"
    case "pending" => "Pendente"
    case _ => status
  }

  /** A status is shown as itself exactly when it is not one of the three
      known ones: every known status is translated. */
  lemma StatusTextTranslatesKnown(status: string)
    ensures StatusText(status) == status <==> !KnownStatus(status)
  {
  }

  const GrayBadge := "bg-gray-100 text-gray-800 border-gray-200"

  /** `getStatusColor`: green, blue and yellow for the known statuses, gray
      for every other one. */
  function StatusColor(status: string): (r: string)
    ensures r == GrayBadge <==> !KnownStatus(status)
    ensures r in {
      "bg-green-100 text-green-800 border-green-200",
      "bg-blue-100 text-blue-800 border-blue-200",
      "bg-yellow-100 text-yellow-800 border-yellow-200",
      GrayBadge }
  {
    match status
    case "completed" => "bg-green-100 text-green-800 border-green-200"
    case "in_progress" => "bg-blue-100 text-blue-800 border-blue-200"
    case "pending" => "bg-yellow-100 text-yellow-800 border-yellow-200"
    case _ => GrayBadge
  }

  /** The colour tells the known statuses apart. */
  lemma StatusColorDistinguishesKnown(s1: string, s2: string)
    requires KnownStatus(s1) && KnownStatus(s2) && s1 != s2
    ensures StatusColor(s1) != StatusColor(s2)
  {
  }

  // ---------------------------------------------------------------------
  // Empty state

  datatype EmptyHint = AdjustFilters | StartCreating

  /** The card shown under the list: none when some trip is listed;
      otherwise "Tente ajustar os filtros de busca" when a search or status
      filter is active, and "Comece criando uma nova viagem" when not. */
  function EmptyState(trips: seq<Trip>, searchTerm: string, statusFilter: string): (r: Option<EmptyHint>)
    ensures r.Some? <==> FilteredTrips(trips, searchTerm, statusFilter) == []
    ensures r == Some(AdjustFilters) <==>
      FilteredTrips(trips, searchTerm, statusFilter) == [] && (searchTerm != "" || statusFilter != AllStatuses)
    ensures r == Some(StartCreating) <==>
      FilteredTrips(trips, searchTerm, statusFilter) == [] && searchTerm == "" && statusFilter == AllStatuses
  {
    if FilteredTrips(trips, searchTerm, statusFilter) != [] then None
    else if searchTerm != "" || statusFilter != AllStatuses then Some(AdjustFilters)
    else Some(StartCreating)
  }

  /** The "start creating" hint appears only when there are no trips at all:
      with no filter active every trip would be listed. */
  lemma StartCreatingOnlyWhenNoTrips(trips: seq<Trip>, searchTerm: string, statusFilter: string)
    requires EmptyState(trips, searchTerm, statusFilter) == Some(StartCreating)
    ensures trips == []
  {
    NoFilterKeepsAll(trips);
  }
}
