/**
 * The track numbering behind the web layout's track section.
 *
 * The layout receives the engine's list of track identifiers, in which
 * recorded tracks carry a uid and placeholder tracks are named "Dummy_<n>".
 * map_tracks lets the recorded tracks take the places of the placeholders,
 * keeps any excess placeholders, and numbers the result from 1;
 * update_track_section emits one section per numbered track, newest first.
 * The HTML of a section is abstracted to the one thing it depends on, its
 * track number.
 */
module TrackLayout {

  import opened Wrappers

  /** track.startswith("Dummy_") */
  predicate IsDummy(track: string) {
    && |track| >= 6
    && track[0] == 'D' && track[1] == 'u' && track[2] == 'm'
    && track[3] == 'm' && track[4] == 'y' && track[5] == '_'
  }

  // ---------------------------------------------------------------------
  // Splitting the input
  // ---------------------------------------------------------------------

  /** [track for track in track_list if not track.startswith("Dummy_")] */
  function UidList(trackList: seq<string>): (r: seq<string>)
    ensures |r| <= |trackList|
  {
    if |trackList| == 0 then []
    else (if IsDummy(trackList[0]) then [] else [trackList[0]]) + UidList(trackList[1..])
  }

  /** [track for track in track_list if track.startswith("Dummy_")] */
  function DummyList(trackList: seq<string>): (r: seq<string>)
    ensures |r| <= |trackList|
  {
    if |trackList| == 0 then []
    else (if IsDummy(trackList[0]) then [trackList[0]] else []) + DummyList(trackList[1..])
  }

  /** The first list holds only uids, the second only placeholders. */
  lemma {:induction false} SplitClassifies(trackList: seq<string>)
    ensures forall i :: 0 <= i < |UidList(trackList)| ==> !IsDummy(UidList(trackList)[i])
    ensures forall i :: 0 <= i < |DummyList(trackList)| ==> IsDummy(DummyList(trackList)[i])
  {
    if |trackList| > 0 {
      SplitClassifies(trackList[1..]);
    }
  }

  /** The two filters partition the input: together they hold each entry exactly as often as the input does. */
  lemma {:induction false} SplitIsPartition(trackList: seq<string>)
    ensures multiset(UidList(trackList)) + multiset(DummyList(trackList)) == multiset(trackList)
    ensures |UidList(trackList)| + |DummyList(trackList)| == |trackList|
  {
    if |trackList| > 0 {
      var track, rest := trackList[0], trackList[1..];
      SplitIsPartition(rest);
      if IsDummy(track) {
        PartitionStep(trackList, track, rest, DummyList(rest), UidList(rest));
      } else {
        PartitionStep(trackList, track, rest, UidList(rest), DummyList(rest));
      }
    }
  }

  /** Putting x in front of one part of a partition of rest partitions [x] + rest. */
  lemma PartitionStep<T>(whole: seq<T>, x: T, rest: seq<T>, grown: seq<T>, other: seq<T>)
    requires |whole| > 0 && x == whole[0] && rest == whole[1..]
    requires multiset(grown) + multiset(other) == multiset(rest)
    requires |grown| + |other| == |rest|
    ensures multiset([x] + grown) + multiset(other) == multiset(whole)
    ensures multiset(other) + multiset([x] + grown) == multiset(whole)
    ensures |[x] + grown| + |other| == |whole|
  {
    assert whole == [x] + rest;
    calc {
      multiset([x] + grown) + multiset(other);
      multiset{x} + multiset(grown) + multiset(other);
      multiset{x} + multiset(rest);
      multiset(whole);
    }
  }

  /** An entry is a uid of the output iff it is a non-placeholder entry of the input. */
  lemma {:induction false} UidListMembers(trackList: seq<string>, x: string)
    ensures x in UidList(trackList) <==> x in trackList && !IsDummy(x)
  {
    if |trackList| > 0 {
      UidListMembers(trackList[1..], x);
      assert trackList == [trackList[0]] + trackList[1..];
    }
  }

  lemma {:induction false} DummyListMembers(trackList: seq<string>, x: string)
    ensures x in DummyList(trackList) <==> x in trackList && IsDummy(x)
  {
    if |trackList| > 0 {
      DummyListMembers(trackList[1..], x);
      assert trackList == [trackList[0]] + trackList[1..];
    }
  }

  /** Filtering keeps input order: the uids of a concatenation are those of each part, in turn. */
  lemma {:induction false} UidListAppend(a: seq<string>, b: seq<string>)
    ensures UidList(a + b) == UidList(a) + UidList(b)
  {
    if |a| == 0 {
      assert a + b == b;
    } else {
      var head := if IsDummy(a[0]) then [] else [a[0]];
      UidListAppend(a[1..], b);
      assert (a + b)[0] == a[0];
      assert (a + b)[1..] == a[1..] + b;
      calc {
        UidList(a + b);
        head + UidList(a[1..] + b);
        head + (UidList(a[1..]) + UidList(b));
        (head + UidList(a[1..])) + UidList(b);
      }
    }
  }

  /** The placeholder filter keeps input order too. */
  lemma {:induction false} DummyListAppend(a: seq<string>, b: seq<string>)
    ensures DummyList(a + b) == DummyList(a) + DummyList(b)
  {
    if |a| == 0 {
      assert a + b == b;
    } else {
      var head := if IsDummy(a[0]) then [a[0]] else [];
      DummyListAppend(a[1..], b);
      DummyListStep(a, b);
      assert head + (DummyList(a[1..]) + DummyList(b)) == (head + DummyList(a[1..])) + DummyList(b);
    }
  }

  /** The first entry of a + b is kept or dropped as the first entry of a is. */
  lemma DummyListStep(a: seq<string>, b: seq<string>)
    requires |a| > 0
    ensures DummyList(a + b) == (if IsDummy(a[0]) then [a[0]] else []) + DummyList(a[1..] + b)
  {
    assert (a + b)[0] == a[0];
    assert (a + b)[1..] == a[1..] + b;
  }

  // ---------------------------------------------------------------------
  // The updated list
  // ---------------------------------------------------------------------

  function Max(a: nat, b: nat): nat {
    if a >= b then a else b
  }

  /** The uids take the places of the first placeholders; excess placeholders stay behind them. */
  function UpdatedTracks(trackList: seq<string>): (r: seq<string>)
    ensures |r| == Max(|UidList(trackList)|, |DummyList(trackList)|)
    ensures r[..|UidList(trackList)|] == UidList(trackList)
    ensures forall i :: |UidList(trackList)| <= i < |r| ==> IsDummy(r[i])
  {
    var uidList := UidList(trackList);
    var dummyList := DummyList(trackList);
    SplitClassifies(trackList);
    if |dummyList| > |uidList| then uidList + dummyList[|uidList|..] else uidList
  }

  /** Every uid of the input survives, and no placeholder is listed before a uid. */
  lemma UpdatedTracksKeepsUids(trackList: seq<string>)
    ensures forall x :: x in trackList && !IsDummy(x) ==> x in UpdatedTracks(trackList)
    ensures var updated := UpdatedTracks(trackList);
      forall i, j :: 0 <= i < j < |updated| && IsDummy(updated[i]) ==> IsDummy(updated[j])
    ensures forall x :: x in UpdatedTracks(trackList) ==> x in trackList
  {
    var uidList := UidList(trackList);
    var dummyList := DummyList(trackList);
    var updated := UpdatedTracks(trackList);
    SplitClassifies(trackList);
    forall x | x in trackList && !IsDummy(x)
      ensures x in updated
    {
      UidListMembers(trackList, x);
      assert updated[..|uidList|] == uidList;
      assert x in updated[..|uidList|];
    }
    forall x | x in updated
      ensures x in trackList
    {
      UidListMembers(trackList, x);
      DummyListMembers(trackList, x);
      if x !in uidList {
        var i :| 0 <= i < |updated| && updated[i] == x;
        assert x == dummyList[i];
      }
    }
  }

  // ---------------------------------------------------------------------
  // track_dict: a Python dict, i.e. an insertion-ordered map
  // ---------------------------------------------------------------------

  /** A dict as its items in insertion order. */
  type Dict = seq<(string, nat)>

  function Keys(d: Dict): (r: seq<string>)
    ensures |r| == |d| && forall i :: 0 <= i < |d| ==> r[i] == d[i].0
  {
    if |d| == 0 then [] else [d[0].0] + Keys(d[1..])
  }

  /** d[key], or None where Python raises KeyError. */
  function Lookup(d: Dict, key: string): Option<nat> {
    if |d| == 0 then None
    else if d[0].0 == key then Some(d[0].1)
    else Lookup(d[1..], key)
  }

  /** d[key] = value: an existing key keeps its place and takes the new value, a new key goes last. */
  function Assign(d: Dict, key: string, value: nat): Dict {
    if |d| == 0 then [(key, value)]
    else if d[0].0 == key then [(key, value)] + d[1..]
    else [d[0]] + Assign(d[1..], key, value)
  }

  /** The assignment reads back and leaves every other key alone. */
  lemma {:induction false} AssignLookup(d: Dict, key: string, value: nat)
    ensures Lookup(Assign(d, key, value), key) == Some(value)
    ensures forall other :: other != key ==> Lookup(Assign(d, key, value), other) == Lookup(d, other)
  {
    if |d| > 0 && d[0].0 != key {
      AssignLookup(d[1..], key, value);
    }
  }

  /** An existing key keeps its place; only a new key is appended. */
  lemma {:induction false} AssignKeys(d: Dict, key: string, value: nat)
    ensures key in Keys(d) ==> Keys(Assign(d, key, value)) == Keys(d)
    ensures key !in Keys(d) ==> Keys(Assign(d, key, value)) == Keys(d) + [key]
  {
    if |d| > 0 && d[0].0 != key {
      AssignKeys(d[1..], key, value);
      assert ([d[0]] + Assign(d[1..], key, value))[1..] == Assign(d[1..], key, value);
    } else if |d| > 0 {
      assert ([(key, value)] + d[1..])[1..] == d[1..];
    }
  }

  /** for index, track in enumerate(updated): track_dict[track] = index + 1 */
  function Numbering(updated: seq<string>): Dict {
    if |updated| == 0 then []
    else Assign(Numbering(updated[..|updated| - 1]), updated[|updated| - 1], |updated|)
  }

  predicate Distinct(s: seq<string>) {
    forall i, j :: 0 <= i < j < |s| ==> s[i] != s[j]
  }

  /** The position of the last occurrence of x in s. */
  function LastIndex(s: seq<string>, x: string): (r: nat)
    requires x in s
    ensures r < |s| && s[r] == x && forall j :: r < j < |s| ==> s[j] != x
  {
    if s[|s| - 1] == x then |s| - 1 else LastIndex(s[..|s| - 1], x)
  }

  /** Every entry is numbered by its last position, counting from 1; nothing else has a number. */
  lemma {:induction false} NumberingLookup(updated: seq<string>, x: string)
    ensures Lookup(Numbering(updated), x) == if x in updated then Some(LastIndex(updated, x) + 1) else None
  {
    if |updated| > 0 {
      var prefix := updated[..|updated| - 1];
      var last := updated[|updated| - 1];
      NumberingLookup(prefix, x);
      AssignLookup(Numbering(prefix), last, |updated|);
      assert updated == prefix + [last];
      if x != last && x in updated {
        assert x in prefix;
      }
    }
  }

  /** The keys are the entries, each once. */
  lemma {:induction false} NumberingKeys(updated: seq<string>)
    ensures Distinct(Keys(Numbering(updated)))
    ensures forall x :: x in Keys(Numbering(updated)) <==> x in updated
  {
    if |updated| > 0 {
      var prefix := updated[..|updated| - 1];
      var last := updated[|updated| - 1];
      NumberingKeys(prefix);
      AssignKeys(Numbering(prefix), last, |updated|);
      assert updated == prefix + [last];
      var keys := Keys(Numbering(prefix));
      if last !in keys {
        DistinctAppend(keys, last);
      }
    }
  }

  lemma DistinctAppend(s: seq<string>, x: string)
    requires Distinct(s) && x !in s
    ensures Distinct(s + [x])
  {
  }

  /** The entries paired with their positions, counting from 1. */
  function Enumerated(s: seq<string>): (r: Dict)
    ensures |r| == |s| && forall k :: 0 <= k < |s| ==> r[k] == (s[k], k + 1)
  {
    seq(|s|, k requires 0 <= k < |s| => (s[k], k + 1))
  }

  /** With distinct entries, the k-th entry maps to k + 1, so the values are exactly 1..n. */
  lemma {:induction false} NumberingDistinct(updated: seq<string>)
    requires Distinct(updated)
    ensures Numbering(updated) == Enumerated(updated)
  {
    if |updated| > 0 {
      var n := |updated|;
      var prefix := updated[..n - 1];
      var last := updated[n - 1];
      DistinctSplit(updated);
      NumberingDistinct(prefix);
      var items := Numbering(prefix);
      assert Keys(items) == prefix;
      AppendNewKey(items, last, n);
      EnumeratedSnoc(prefix, last);
      assert updated == prefix + [last];
    }
  }

  lemma DistinctSplit(s: seq<string>)
    requires Distinct(s) && |s| > 0
    ensures Distinct(s[..|s| - 1]) && s[|s| - 1] !in s[..|s| - 1]
  {
  }

  lemma EnumeratedSnoc(s: seq<string>, x: string)
    ensures Enumerated(s + [x]) == Enumerated(s) + [(x, |s| + 1)]
  {
    assert forall k :: 0 <= k < |s| ==> (s + [x])[k] == s[k];
  }

  lemma {:induction false} AppendNewKey(d: Dict, key: string, value: nat)
    requires key !in Keys(d)
    ensures Assign(d, key, value) == d + [(key, value)]
  {
    if |d| > 0 {
      assert Keys(d) == [d[0].0] + Keys(d[1..]);
      AppendNewKey(d[1..], key, value);
      assert d == [d[0]] + d[1..];
    }
  }

  /** map_tracks: the numbering and the updated list. */
  function MapTracks(trackList: seq<string>): (Dict, seq<string>) {
    var updated := UpdatedTracks(trackList);
    (Numbering(updated), updated)
  }

  /** The example in map_tracks' documentation. */
  lemma DocstringExample()
    ensures MapTracks(["Dummy_1", "Dummy_2", "Dummy_3", "2389hdiujasd", "9821hkjdasd"])
      == ([("2389hdiujasd", 1), ("9821hkjdasd", 2), ("Dummy_3", 3)], ["2389hdiujasd", "9821hkjdasd", "Dummy_3"])
  {
    var u1, u2 := "2389hdiujasd", "9821hkjdasd";
    var d1, d2, d3 := "Dummy_1", "Dummy_2", "Dummy_3";
    ExampleFilters(u1, u2, d1, d2, d3);
    var updated := [u1, u2, d3];
    assert UpdatedTracks([d1, d2, d3, u1, u2]) == updated;
    assert u1[0] != u2[0];
    assert Distinct(updated);
    NumberingDistinct(updated);
    assert Numbering(updated) == [(u1, 1), (u2, 2), (d3, 3)];
  }

  /** The two filters on three placeholders followed by two uids. */
  lemma ExampleFilters(u1: string, u2: string, d1: string, d2: string, d3: string)
    requires !IsDummy(u1) && !IsDummy(u2) && IsDummy(d1) && IsDummy(d2) && IsDummy(d3)
    ensures UidList([d1, d2, d3, u1, u2]) == [u1, u2]
    ensures DummyList([d1, d2, d3, u1, u2]) == [d1, d2, d3]
  {
    var input := [d1, d2, d3, u1, u2];
    assert input[1..] == [d2, d3, u1, u2];
    assert input[1..][1..] == [d3, u1, u2];
    assert input[1..][1..][1..] == [u1, u2];
    assert input[1..][1..][1..][1..] == [u2];
    assert UidList([u2]) == [u2];
    assert UidList([u1, u2]) == [u1, u2];
    assert UidList([d3, u1, u2]) == [u1, u2];
    assert UidList([d2, d3, u1, u2]) == [u1, u2];
    assert DummyList([u2]) == [];
    assert DummyList([u1, u2]) == [];
    assert DummyList([d3, u1, u2]) == [d3];
    assert DummyList([d2, d3, u1, u2]) == [d2, d3];
  }

  // ---------------------------------------------------------------------
  // update_track_section
  // ---------------------------------------------------------------------

  /** One track section; its markup depends only on the track number. */
  datatype Section = Section(number: nat)

  /** One section per dict item, in item order (the append loop). */
  function Sections(items: Dict): (r: seq<Section>)
    ensures |r| == |items|
  {
    if |items| == 0 then [] else Sections(items[..|items| - 1]) + [Section(items[|items| - 1].1)]
  }

  function Reversed<T>(s: seq<T>): (r: seq<T>)
    ensures |r| == |s|
  {
    if |s| == 0 then [] else [s[|s| - 1]] + Reversed(s[..|s| - 1])
  }

  lemma {:induction false} ReversedIndex<T>(s: seq<T>)
    ensures forall i :: 0 <= i < |s| ==> Reversed(s)[i] == s[|s| - 1 - i]
  {
    if |s| > 0 {
      ReversedIndex(s[..|s| - 1]);
    }
  }

  lemma {:induction false} SectionsIndex(items: Dict)
    ensures forall i :: 0 <= i < |items| ==> Sections(items)[i] == Section(items[i].1)
  {
    if |items| > 0 {
      SectionsIndex(items[..|items| - 1]);
    }
  }

  /** update_track_section: the sections newest first, and map_tracks' updated list. */
  function UpdateTrackSection(trackList: seq<string>): (seq<Section>, seq<string>) {
    var (trackDict, updated) := MapTracks(trackList);
    (Reversed(Sections(trackDict)), updated)
  }

  /** One section per numbered track, in reverse item order, and the updated list unchanged. */
  lemma SectionOrder(trackList: seq<string>)
    ensures var (sections, updated) := UpdateTrackSection(trackList);
      var trackDict := Numbering(updated);
      && updated == UpdatedTracks(trackList)
      && |sections| == |trackDict|
      && forall i :: 0 <= i < |sections| ==> sections[i] == Section(trackDict[|trackDict| - 1 - i].1)
  {
    var trackDict := Numbering(UpdatedTracks(trackList));
    ReversedIndex(Sections(trackDict));
    SectionsIndex(trackDict);
  }

  /** With distinct entries the i-th section shows track number n - i: the newest track is on top. */
  lemma NewestFirst(trackList: seq<string>)
    requires Distinct(UpdatedTracks(trackList))
    ensures var (sections, updated) := UpdateTrackSection(trackList);
      && |sections| == |updated|
      && forall i :: 0 <= i < |sections| ==> sections[i].number == |updated| - i
  {
    var updated := UpdatedTracks(trackList);
    SectionOrder(trackList);
    NumberingDistinct(updated);
  }
}
