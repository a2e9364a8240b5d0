/**
 * The participant directory (src/store/participantsStore.ts): the list of
 * participants, the ids the user marked as favourites and the three
 * directory filters. Filter values are the strings the filter controls
 * send, with "all" meaning "no constraint", exactly as the store compares
 * them.
 */
module Participants {
  import opened Wrappers
  import opened Types
  import opened Lists
  import opened Text

  datatype Filters = Filters(kind: string, sector: string, search: string)

  /** The three keys `setFilter` accepts (`keyof filters`). */
  datatype FilterKey = KindKey | SectorKey | SearchKey

  const InitialFilters := Filters("all", "all", "")

  /** `{...filters, [key]: value}`. */
  function WithFilter(f: Filters, key: FilterKey, value: string): (r: Filters)
    ensures key == KindKey ==> r.kind == value && r.sector == f.sector && r.search == f.search
    ensures key == SectorKey ==> r.sector == value && r.kind == f.kind && r.search == f.search
    ensures key == SearchKey ==> r.search == value && r.kind == f.kind && r.sector == f.sector
  {
    match key
    case KindKey => f.(kind := value)
    case SectorKey => f.(sector := value)
    case SearchKey => f.(search := value)
  }

  /** Case-insensitive search in name, pitch or description. */
  predicate MatchesSearch(p: Participant, search: string) {
    var searchLower := Lower(search);
    Contains(Lower(p.name), searchLower)
    || Contains(Lower(p.pitch), searchLower)
    || Contains(Lower(p.description), searchLower)
  }

  /** The callback `getFilteredParticipants` hands to `filter`. */
  predicate Passes(f: Filters, p: Participant) {
    if f.kind != "all" && p.kind.Name() != f.kind then false
    else if f.sector != "all" && p.sector.Name() != f.sector then false
    else if f.search != "" && !MatchesSearch(p, f.search) then false
    else true
  }

  function Filtered(ps: seq<Participant>, f: Filters): seq<Participant> {
    Filter(ps, (p: Participant) => Passes(f, p))
  }

  /**
   * The filtered list keeps participants in their directory order, and a
   * participant is in it exactly when it is in the directory and meets
   * every active filter. A passing participant listed twice is kept twice.
   */
  lemma FilteredSpec(ps: seq<Participant>, f: Filters)
    ensures IsSubseq(Filtered(ps, f), ps)
    ensures forall p :: multiset(Filtered(ps, f))[p] == if Passes(f, p) then multiset(ps)[p] else 0
    ensures forall p :: p in Filtered(ps, f) <==>
      p in ps
      && (f.kind == "all" || p.kind.Name() == f.kind)
      && (f.sector == "all" || p.sector.Name() == f.sector)
      && (f.search == "" || MatchesSearch(p, f.search))
  {
    FilterIsSubseq(ps, (p: Participant) => Passes(f, p));
    FilterCounts(ps, (p: Participant) => Passes(f, p));
  }

  /** With the initial filters nobody is filtered out. */
  lemma InitialFiltersKeepAll(ps: seq<Participant>)
    ensures Filtered(ps, InitialFilters) == ps
  {
    FilterKeepsAll(ps, (p: Participant) => Passes(InitialFilters, p));
  }

  /** Searches that differ only in letter case select the same participants. */
  lemma SearchIgnoresCase(ps: seq<Participant>, f: Filters, other: string)
    requires Lower(other) == Lower(f.search)
    ensures Filtered(ps, f.(search := other)) == Filtered(ps, f)
  {
    var g := f.(search := other);
    assert other == "" <==> f.search == "";
    assert forall p :: Passes(g, p) == Passes(f, p);
    FilterSamePredicate(ps, (p: Participant) => Passes(g, p), (p: Participant) => Passes(f, p));
  }

  lemma {:induction false} FilterSamePredicate(ps: seq<Participant>, p: Participant -> bool, q: Participant -> bool)
    requires forall x :: p(x) == q(x)
    ensures Filter(ps, p) == Filter(ps, q)
    decreases |ps|
  {
    if ps != [] {
      FilterSamePredicate(ps[1..], p, q);
    }
  }

  /** The participants directory store. */
  class ParticipantsStore {
    var participants: seq<Participant>
    var favorites: seq<string>
    var filters: Filters

    /** The directory starts from the given mock participants, no favourites and the initial filters. */
    constructor (mockParticipants: seq<Participant>)
      ensures participants == mockParticipants && favorites == [] && filters == InitialFilters
    {
      participants := mockParticipants;
      favorites := [];
      filters := InitialFilters;
    }

    /** Sets one filter; the other two filters, the list and the favourites are untouched. */
    method SetFilter(key: FilterKey, value: string)
      modifies this`filters
      ensures filters == WithFilter(old(filters), key, value)
    {
      filters := WithFilter(filters, key, value);
    }

    method ResetFilters()
      modifies this`filters
      ensures filters == InitialFilters
      ensures forall p :: p in participants ==> p in GetFilteredParticipants()
    {
      filters := InitialFilters;
      InitialFiltersKeepAll(participants);
    }

    /** Removes the id when it is a favourite and appends it otherwise. */
    method ToggleFavorite(participantId: string)
      modifies this`favorites
      ensures favorites == Toggle(old(favorites), participantId)
      ensures participantId in favorites <==> participantId !in old(favorites)
      ensures NoDup(old(favorites)) ==> NoDup(favorites)
    {
      if NoDup(favorites) {
        ToggleNoDup(favorites, participantId);
      }
      var isFavorite := participantId in favorites;
      favorites := if isFavorite then Without(favorites, participantId) else favorites + [participantId];
    }

    /** The first participant with this id, if any. */
    function GetParticipantById(id: string): (r: Option<Participant>)
      reads this
      ensures r.None? <==> forall k :: 0 <= k < |participants| ==> participants[k].id != id
      ensures r.Some? ==>
        r.value in participants && r.value.id == id
        && (exists k :: 0 <= k < |participants| && participants[k] == r.value
              && forall j :: 0 <= j < k ==> participants[j].id != id)
    {
      Find(participants, (p: Participant) => p.id == id)
    }

    /** The participants that meet the current filters, in directory order. */
    function GetFilteredParticipants(): (r: seq<Participant>)
      reads this
      ensures IsSubseq(r, participants)
      ensures forall p :: multiset(r)[p] == if Passes(filters, p) then multiset(participants)[p] else 0
      ensures forall p :: p in r ==> p in participants && Passes(filters, p)
      ensures forall p :: p in participants && Passes(filters, p) ==> p in r
    {
      FilteredSpec(participants, filters);
      Filtered(participants, filters)
    }
  }
}
