/**
 * The ranked list of participants a user wants to meet
 * (src/store/preferencesStore.ts). Entries are `{participantId, order}` and
 * the store keeps `order` equal to the 1-based position of the entry.
 */
module Preferences {
  import opened Types
  import opened Lists
  import opened Text

  /** The participant ids of a preference list, in list order. */
  function Ids(ps: seq<Preference>): (r: seq<string>)
    ensures |r| == |ps|
    ensures forall i :: 0 <= i < |ps| ==> r[i] == ps[i].participantId
  {
    seq(|ps|, i requires 0 <= i < |ps| => ps[i].participantId)
  }

  /** The store's invariant: no participant twice, and orders exactly 1..n. */
  ghost predicate WellOrdered(ps: seq<Preference>) {
    NoDup(Ids(ps)) && forall i :: 0 <= i < |ps| ==> ps[i].order == i + 1
  }

  /** `preferences.some(p => p.participantId === id)`. */
  predicate Listed(ps: seq<Preference>, id: string) {
    FindIndex(ps, (p: Preference) => p.participantId == id) >= 0
  }

  /** Being listed means that some entry carries the id. */
  lemma ListedIff(ps: seq<Preference>, id: string)
    ensures Listed(ps, id) <==> exists i :: 0 <= i < |ps| && ps[i].participantId == id
    ensures Listed(ps, id) <==> id in Ids(ps)
  {
    if id in Ids(ps) {
      var i :| 0 <= i < |ps| && Ids(ps)[i] == id;
      assert ps[i].participantId == id;
    }
  }

  /** The list after `addPreference(id)`: unchanged for a duplicate, else one entry appended. */
  function Added(ps: seq<Preference>, id: string): seq<Preference> {
    if Listed(ps, id) then ps else ps + [Preference(id, |ps| + 1)]
  }

  /** `ps.map((p, index) => ({...p, order: index + 1}))`. */
  function Renumbered(ps: seq<Preference>): (r: seq<Preference>)
    ensures Ids(r) == Ids(ps)
    ensures forall i :: 0 <= i < |r| ==> r[i].order == i + 1
  {
    var r := seq(|ps|, i requires 0 <= i < |ps| => ps[i].(order := i + 1));
    assert Ids(r) == Ids(ps);
    r
  }

  /** The filter `removePreference` applies: keep the entries for every other participant. */
  function KeepOthers(id: string): Preference -> bool {
    (p: Preference) => p.participantId != id
  }

  /** The list after `removePreference(id)`: entries for `id` filtered out, the rest renumbered. */
  function Removed(ps: seq<Preference>, id: string): seq<Preference> {
    Renumbered(Filter(ps, KeepOthers(id)))
  }

  lemma IdsAppend(a: seq<Preference>, b: seq<Preference>)
    ensures Ids(a + b) == Ids(a) + Ids(b)
  {
  }

  lemma IdsCons(ps: seq<Preference>)
    requires ps != []
    ensures Ids(ps) == [ps[0].participantId] + Ids(ps[1..])
  {
  }

  /** Filtering entries by id and then taking ids is taking ids and then filtering them. */
  lemma {:induction false} IdsOfFilter(ps: seq<Preference>, id: string)
    ensures Ids(Filter(ps, KeepOthers(id))) == Without(Ids(ps), id)
    decreases |ps|
  {
    if ps != [] {
      var head := if ps[0].participantId != id then [ps[0]] else [];
      var rest := Filter(ps[1..], KeepOthers(id));
      assert Filter(ps, KeepOthers(id)) == head + rest;
      IdsAppend(head, rest);
      IdsOfFilter(ps[1..], id);
      IdsCons(ps);
      WithoutCons(ps[0].participantId, Ids(ps[1..]), id);
    }
  }

  /** Adding keeps the invariant: a duplicate is refused and a new id gets order n+1. */
  lemma AddedWellOrdered(ps: seq<Preference>, id: string)
    requires WellOrdered(ps)
    ensures WellOrdered(Added(ps, id))
  {
    if !Listed(ps, id) {
      ListedIff(ps, id);
      var r := Added(ps, id);
      assert Ids(r) == Ids(ps) + [id];
      forall i, j | 0 <= i < j < |Ids(r)| ensures Ids(r)[i] != Ids(r)[j] {
        if j == |ps| {
          assert Ids(r)[i] == Ids(ps)[i];
        }
      }
    }
  }

  /**
   * Removing keeps the invariant, drops exactly the entries for `id` and keeps
   * the other ids in their relative order.
   */
  lemma RemovedWellOrdered(ps: seq<Preference>, id: string)
    requires WellOrdered(ps)
    ensures WellOrdered(Removed(ps, id))
    ensures Ids(Removed(ps, id)) == Without(Ids(ps), id)
    ensures !Listed(Removed(ps, id), id)
  {
    IdsOfFilter(ps, id);
    WithoutNoDup(Ids(ps), id);
    ListedIff(Removed(ps, id), id);
  }

  /** Removing an id that sits at position k gives the list without that position, renumbered. */
  lemma RemovedAt(ps: seq<Preference>, k: int)
    requires WellOrdered(ps) && 0 <= k < |ps|
    ensures Ids(Removed(ps, ps[k].participantId)) == Ids(ps)[..k] + Ids(ps)[k + 1..]
  {
    RemovedWellOrdered(ps, ps[k].participantId);
    WithoutAt(Ids(ps), k);
  }

  /** `reorderPreferences(newOrder)` keeps the ids and their sequence and numbers them 1..n. */
  lemma ReorderedWellOrdered(newOrder: seq<Preference>)
    ensures Ids(Renumbered(newOrder)) == Ids(newOrder)
    ensures NoDup(Ids(newOrder)) ==> WellOrdered(Renumbered(newOrder))
  {
  }

  /** The list after adding each id of `ids` in turn. */
  function AddedAll(ps: seq<Preference>, ids: seq<string>): seq<Preference>
    decreases |ids|
  {
    if ids == [] then ps else AddedAll(Added(ps, ids[0]), ids[1..])
  }

  /** Adding an id that is not listed appends it with the next order. */
  lemma AddedNew(ps: seq<Preference>, id: string)
    requires id !in Ids(ps)
    ensures Added(ps, id) == ps + [Preference(id, |ps| + 1)]
    ensures Ids(Added(ps, id)) == Ids(ps) + [id]
  {
    ListedIff(ps, id);
    IdsAppend(ps, [Preference(id, |ps| + 1)]);
  }

  /**
   * There is no size limit: adding n distinct new ids to a well-ordered list
   * succeeds every time, so the list grows by exactly n.
   */
  lemma {:induction false} AddedAllDistinct(ps: seq<Preference>, ids: seq<string>)
    requires WellOrdered(ps) && NoDup(ids)
    requires forall x :: x in ids ==> x !in Ids(ps)
    ensures WellOrdered(AddedAll(ps, ids))
    ensures Ids(AddedAll(ps, ids)) == Ids(ps) + ids
    decreases |ids|
  {
    if ids != [] {
      AddedNew(ps, ids[0]);
      AddedWellOrdered(ps, ids[0]);
      var ps' := Added(ps, ids[0]);
      NoDupTail(ids);
      forall x | x in ids[1..] ensures x !in Ids(ps') {
        assert x in ids && x != ids[0];
      }
      AddedAllDistinct(ps', ids[1..]);
      AppendHead(Ids(ps), ids);
    }
  }

  /** The ids `participant-1` .. `participant-n` that the store's tests add. */
  function TestIds(n: nat): seq<string> {
    seq(n, i requires 0 <= i < n => "participant-" + Dec(i + 1))
  }

  lemma TestIdsDistinct(n: nat)
    ensures NoDup(TestIds(n))
  {
    var r := TestIds(n);
    forall i, j | 0 <= i < j < n ensures r[i] != r[j] {
      DecInjective(i + 1, j + 1);
      assert r[i][12..] == Dec(i + 1) && r[j][12..] == Dec(j + 1);
    }
  }

  /** Fifteen (or twenty) distinct adds to an empty list all succeed. */
  lemma ManyAddsSucceed(n: nat)
    ensures |AddedAll([], TestIds(n))| == n
    ensures WellOrdered(AddedAll([], TestIds(n)))
  {
    TestIdsDistinct(n);
    AddedAllDistinct([], TestIds(n));
  }

  /** Adding participants 1, 2, 3 to an empty list numbers them 1, 2, 3. */
  lemma AddThree()
    ensures AddedAll([], ["participant-1", "participant-2", "participant-3"])
         == [Preference("participant-1", 1), Preference("participant-2", 2), Preference("participant-3", 3)]
  {
    var p1 := [Preference("participant-1", 1)];
    AddedNew([], "participant-1");
    AddedNew(p1, "participant-2");
    var p2 := p1 + [Preference("participant-2", 2)];
    AddedNew(p2, "participant-3");
    assert ["participant-1", "participant-2", "participant-3"][1..] == ["participant-2", "participant-3"];
    assert ["participant-2", "participant-3"][1..] == ["participant-3"];
  }

  /** Renumbering a two-entry list numbers its entries 1 and 2. */
  lemma RenumberedTwo(x: Preference, y: Preference)
    ensures Renumbered([x, y]) == [x.(order := 1), y.(order := 2)]
  {
  }

  /** Filtering out the middle one of three participants. */
  lemma FilterMiddle(a: Preference, b: Preference, c: Preference)
    requires a.participantId != b.participantId && c.participantId != b.participantId
    ensures Filter([a, b, c], KeepOthers(b.participantId)) == [a, c]
  {
    var keep := KeepOthers(b.participantId);
    assert [a, b, c] == [a] + ([b] + [c]);
    FilterAppend([a], [b] + [c], keep);
    FilterAppend([b], [c], keep);
    assert Filter([a], keep) == [a] && Filter([b], keep) == [] && Filter([c], keep) == [c];
  }

  /** Adding participants 1, 2, 3 and removing 2 leaves [1 at order 1, 3 at order 2]. */
  lemma RemoveMiddleRenumbers()
    ensures Removed(AddedAll([], ["participant-1", "participant-2", "participant-3"]), "participant-2")
         == [Preference("participant-1", 1), Preference("participant-3", 2)]
  {
    AddThree();
    var a, b, c := Preference("participant-1", 1), Preference("participant-2", 2), Preference("participant-3", 3);
    FilterMiddle(a, b, c);
    RenumberedTwo(a, c);
  }

  /** The preferences store: the list, the fixed deadline and the submitted flag. */
  class PreferencesStore {
    var preferences: seq<Preference>
    var deadline: string
    var isSubmitted: bool

    constructor ()
      ensures preferences == [] && WellOrdered(preferences)
      ensures deadline == "2025-02-24T18:00:00Z" && !isSubmitted
    {
      preferences := [];
      deadline := "2025-02-24T18:00:00Z";
      isSubmitted := false;
    }

    /** Appends `{id, order: n + 1}` unless the id is already listed; the result says which. */
    method AddPreference(participantId: string) returns (added: bool)
      modifies this`preferences
      ensures added <==> !(exists i :: 0 <= i < |old(preferences)| && old(preferences)[i].participantId == participantId)
      ensures added ==> preferences == old(preferences) + [Preference(participantId, |old(preferences)| + 1)]
      ensures !added ==> preferences == old(preferences)
      ensures WellOrdered(old(preferences)) ==> WellOrdered(preferences)
    {
      ListedIff(preferences, participantId);
      if Listed(preferences, participantId) {
        return false;
      }
      if WellOrdered(preferences) {
        AddedWellOrdered(preferences, participantId);
      }
      preferences := Added(preferences, participantId);
      return true;
    }

    /** Drops the entries for `id` and renumbers the rest 1..n in their old order. */
    method RemovePreference(participantId: string)
      modifies this`preferences
      ensures preferences == Removed(old(preferences), participantId)
      ensures WellOrdered(old(preferences)) ==>
        WellOrdered(preferences) && Ids(preferences) == Without(Ids(old(preferences)), participantId)
    {
      if WellOrdered(preferences) {
        RemovedWellOrdered(preferences, participantId);
      }
      preferences := Removed(preferences, participantId);
    }

    /** Replaces the list by `newOrder`, numbered 1..n in its own order. */
    method ReorderPreferences(newOrder: seq<Preference>)
      modifies this`preferences
      ensures Ids(preferences) == Ids(newOrder)
      ensures forall i :: 0 <= i < |preferences| ==> preferences[i].order == i + 1
      ensures NoDup(Ids(newOrder)) ==> WellOrdered(preferences)
    {
      preferences := Renumbered(newOrder);
    }

    /** `isInPreferences(id)`: some entry carries the id. */
    function IsInPreferences(participantId: string): (r: bool)
      reads this
      ensures r <==> exists i :: 0 <= i < |preferences| && preferences[i].participantId == participantId
    {
      ListedIff(preferences, participantId);
      Listed(preferences, participantId)
    }

    /** `canAddMore()`: the list has no size limit. */
    function CanAddMore(): (r: bool)
      reads this
      ensures r
    {
      true
    }

    method SubmitPreferences()
      modifies this`isSubmitted
      ensures isSubmitted
    {
      isSubmitted := true;
    }

    method UnsubmitPreferences()
      modifies this`isSubmitted
      ensures !isSubmitted
    {
      isSubmitted := false;
    }
  }
}
