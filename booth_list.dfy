/** The list view: the "Amplify Impact" booth (id AI01) is shown apart, the
    other booths are grouped by lower-cased neighbourhood into collapsible
    sections, and the first section opens while none is open. */
module BoothList {
  import opened Base
  import opened Text
  import opened Records

  const AmplifyImpactId: string := "AI01"

  /** `booths.find(b => b.boothId === "AI01")`. */
  function AmplifyImpactBooth(booths: seq<Place>): Option<Place> {
    Find(booths, (b: Place) => b.boothId == AmplifyImpactId)
  }

  /** `booths.filter(b => b.boothId !== "AI01")`. */
  function FilteredBooths(booths: seq<Place>): seq<Place> {
    Filter(booths, (b: Place) => b.boothId != AmplifyImpactId)
  }

  /** The AI01 booth is split out: the rest keep their order and lose exactly the
      booths with that id, and the shown AI01 booth is the first one in the input. */
  lemma AmplifyImpactSplit(booths: seq<Place>)
    ensures Subseq(FilteredBooths(booths), booths)
    ensures forall b :: b in FilteredBooths(booths) <==> b in booths && b.boothId != AmplifyImpactId
    ensures AmplifyImpactBooth(booths).None? <==> forall b :: b in booths ==> b.boothId != AmplifyImpactId
    ensures AmplifyImpactBooth(booths).Some? ==>
              exists i :: 0 <= i < |booths| && booths[i] == AmplifyImpactBooth(booths).value
                          && booths[i].boothId == AmplifyImpactId
                          && forall j :: 0 <= j < i ==> booths[j].boothId != AmplifyImpactId
  {
    var p := (b: Place) => b.boothId != AmplifyImpactId;
    FilterIsSubseq(booths, p);
    forall b ensures b in FilteredBooths(booths) <==> b in booths && b.boothId != AmplifyImpactId {
      FilterMembership(booths, p, b);
    }
  }

  /** `booth.neighbourhood?.toLowerCase() || "other"`: never the empty string. */
  function GroupKey(b: Place): (r: string)
    ensures r != ""
    ensures b.neighbourhood.Some? && b.neighbourhood.value != "" ==> r == ToLower(b.neighbourhood.value)
    ensures b.neighbourhood.None? || b.neighbourhood.value == "" ==> r == "other"
  {
    if b.neighbourhood.Some? && ToLower(b.neighbourhood.value) != "" then ToLower(b.neighbourhood.value)
    else "other"
  }

  /** The group keys in the order the `reduce` first creates them. */
  function GroupKeys(bs: seq<Place>): seq<string>
    decreases |bs|
  {
    if bs == [] then []
    else
      var ks := GroupKeys(bs[..|bs| - 1]);
      var k := GroupKey(bs[|bs| - 1]);
      if k in ks then ks else ks + [k]
  }

  /** The group keys are distinct, and they are exactly the keys of the booths. */
  lemma {:induction false} GroupKeysSpec(bs: seq<Place>)
    ensures forall i, j :: 0 <= i < j < |GroupKeys(bs)| ==> GroupKeys(bs)[i] != GroupKeys(bs)[j]
    ensures forall b :: b in bs ==> GroupKey(b) in GroupKeys(bs)
    ensures forall k :: k in GroupKeys(bs) ==> exists b :: b in bs && GroupKey(b) == k
    decreases |bs|
  {
    if bs != [] {
      var front := bs[..|bs| - 1];
      GroupKeysSpec(front);
      assert bs == front + [bs[|bs| - 1]];
    }
  }

  /** The booths of group `k`, in input order. */
  function Members(bs: seq<Place>, k: string): seq<Place> {
    Filter(bs, (b: Place) => GroupKey(b) == k)
  }

  /** Appending one booth appends it to its own group and to no other. */
  lemma MembersSnoc(bs: seq<Place>, b: Place, k: string)
    ensures Members(bs + [b], k) == Members(bs, k) + (if GroupKey(b) == k then [b] else [])
  {
    FilterAppend(bs, [b], (x: Place) => GroupKey(x) == k);
  }

  /** A key no booth has has no members. */
  lemma MembersOfAbsentKey(bs: seq<Place>, k: string)
    requires k !in GroupKeys(bs)
    ensures Members(bs, k) == []
  {
    GroupKeysSpec(bs);
    FilterNone(bs, (x: Place) => GroupKey(x) == k);
  }

  /** `keys` and `acc` are what the `reduce` has built after the booths `bs`. */
  ghost predicate Grouped(bs: seq<Place>, keys: seq<string>, acc: map<string, seq<Place>>) {
    && keys == GroupKeys(bs)
    && acc.Keys == set k | k in keys
    && forall k :: k in acc ==> acc[k] == Members(bs, k)
  }

  /** One step of the `reduce`: create the booth's key if it is new, then push the booth. */
  lemma {:induction false} StepKeys(bs: seq<Place>, b: Place, keys: seq<string>, acc: map<string, seq<Place>>, keys1: seq<string>)
    requires Grouped(bs, keys, acc)
    requires keys1 == if GroupKey(b) in acc then keys else keys + [GroupKey(b)]
    ensures keys1 == GroupKeys(bs + [b])
  {
    GroupKeysSnoc(bs, b);
  }

  lemma StepDomain(keys: seq<string>, acc: map<string, seq<Place>>, k: string,
                   keys1: seq<string>, acc2: map<string, seq<Place>>)
    requires acc.Keys == set k | k in keys
    requires keys1 == if k in acc then keys else keys + [k]
    requires acc2.Keys == acc.Keys + {k}
    ensures acc2.Keys == set k | k in keys1
  {
  }

  lemma {:induction false} StepValues(bs: seq<Place>, b: Place, keys: seq<string>, acc: map<string, seq<Place>>,
                   acc2: map<string, seq<Place>>)
    requires Grouped(bs, keys, acc)
    requires var k := GroupKey(b);
             var acc1 := if k in acc then acc else acc[k := []];
             acc2 == acc1[k := acc1[k] + [b]]
    ensures forall k :: k in acc2 ==> acc2[k] == Members(bs + [b], k)
  {
    var k := GroupKey(b);
    if k !in acc {
      MembersOfAbsentKey(bs, k);
    }
    forall k' | k' in acc2 ensures acc2[k'] == Members(bs + [b], k') {
      MembersSnoc(bs, b, k');
    }
  }

  lemma GroupKeysSnoc(bs: seq<Place>, b: Place)
    ensures GroupKeys(bs + [b]) ==
            if GroupKey(b) in GroupKeys(bs) then GroupKeys(bs) else GroupKeys(bs) + [GroupKey(b)]
  {
    assert (bs + [b])[..|bs + [b]| - 1] == bs;
  }

  /** The `reduce` that pushes each booth onto the array of its key, followed by
      `Object.entries`: one entry per key in creation order, holding that key's booths in
      input order. Shuffling the entries afterwards is not modelled. */
  method GroupByNeighbourhood(booths: seq<Place>) returns (groups: seq<(string, seq<Place>)>)
    ensures |groups| == |GroupKeys(booths)|
    ensures forall i :: 0 <= i < |groups| ==>
              groups[i] == (GroupKeys(booths)[i], Members(booths, GroupKeys(booths)[i]))
  {
    var keys: seq<string> := [];
    var acc: map<string, seq<Place>> := map[];
    var i := 0;
    while i < |booths|
      invariant 0 <= i <= |booths|
      invariant Grouped(booths[..i], keys, acc)
    {
      var b := booths[i];
      var k := GroupKey(b);
      ghost var (keys0, acc0) := (keys, acc);
      if k !in acc {
        acc := acc[k := []];
        keys := keys + [k];
      }
      acc := acc[k := acc[k] + [b]];
      StepKeys(booths[..i], b, keys0, acc0, keys);
      StepDomain(keys0, acc0, k, keys, acc);
      StepValues(booths[..i], b, keys0, acc0, acc);
      assert booths[..i + 1] == booths[..i] + [b];
      i := i + 1;
    }
    assert booths[..i] == booths;
    assert forall j :: 0 <= j < |keys| ==> keys[j] in acc;
    groups := seq(|keys|, j requires 0 <= j < |keys| => (keys[j], acc[keys[j]]));
    forall j | 0 <= j < |groups|
      ensures groups[j] == (GroupKeys(booths)[j], Members(booths, GroupKeys(booths)[j]))
    {
      assert groups[j] == (keys[j], acc[keys[j]]);
    }
  }

  /** Every booth lies in exactly one group: the one of its own key. */
  lemma EachBoothInOneGroup(bs: seq<Place>, b: Place)
    requires b in bs
    ensures GroupKey(b) in GroupKeys(bs)
    ensures forall k :: b in Members(bs, k) <==> k == GroupKey(b)
  {
    GroupKeysSpec(bs);
    forall k ensures b in Members(bs, k) <==> k == GroupKey(b) {
      FilterMembership(bs, (x: Place) => GroupKey(x) == k, b);
    }
  }

  /** Total size of the groups of keys `ks`. */
  function SumMembers(bs: seq<Place>, ks: seq<string>): nat
    decreases |ks|
  {
    if ks == [] then 0 else SumMembers(bs, ks[..|ks| - 1]) + |Members(bs, ks[|ks| - 1])|
  }

  lemma {:induction false} SumMembersSnoc(bs: seq<Place>, b: Place, ks: seq<string>)
    requires forall i, j :: 0 <= i < j < |ks| ==> ks[i] != ks[j]
    ensures SumMembers(bs + [b], ks) == SumMembers(bs, ks) + if GroupKey(b) in ks then 1 else 0
    decreases |ks|
  {
    if ks != [] {
      var front := ks[..|ks| - 1];
      var last := ks[|ks| - 1];
      SumMembersSnoc(bs, b, front);
      MembersSnoc(bs, b, last);
      assert ks == front + [last];
      assert last !in front by {
        forall i | 0 <= i < |front| ensures front[i] != last {
          assert ks[i] == front[i];
        }
      }
    }
  }

  /** The group sizes add up to the number of booths grouped. */
  lemma {:induction false} GroupSizesSum(bs: seq<Place>)
    ensures SumMembers(bs, GroupKeys(bs)) == |bs|
    decreases |bs|
  {
    if bs != [] {
      var front := bs[..|bs| - 1];
      var b := bs[|bs| - 1];
      assert bs == front + [b];
      var ks := GroupKeys(front);
      GroupKeysSpec(front);
      GroupSizesSum(front);
      SumMembersSnoc(front, b, ks);
      var k := GroupKey(b);
      if k !in ks {
        MembersOfAbsentKey(front, k);
        MembersSnoc(front, b, k);
        assert (ks + [k])[..|ks + [k]| - 1] == ks;
      }
    }
  }

  /** `toggleSection`'s updater `prev => ({ ...prev, [key]: !prev[key] })`: the key's
      section flips (a missing key counts as closed) and every other key is unchanged. */
  function Toggled(prev: map<string, bool>, key: string): (r: map<string, bool>)
    ensures key in r && r[key] == !(key in prev && prev[key])
    ensures forall k :: k != key ==> (k in r <==> k in prev)
    ensures forall k :: k != key && k in prev ==> r[k] == prev[k]
  {
    prev[key := !(key in prev && prev[key])]
  }

  class BoothListState {
    var openSections: map<string, bool>

    /** `openSections[key]` read as a condition. */
    predicate IsOpen(key: string)
      reads this
    {
      key in openSections && openSections[key]
    }

    constructor ()
      ensures openSections == map[]
    {
      openSections := map[];
    }

    method ToggleSection(key: string)
      modifies this`openSections
      ensures openSections == Toggled(old(openSections), key)
      ensures IsOpen(key) == !old(IsOpen(key))
    {
      openSections := Toggled(openSections, key);
    }

    /** The effect that opens the first shown group while no section key is set at all. */
    method OpenFirstSection(grouped: seq<(string, seq<Place>)>)
      modifies this`openSections
      ensures |grouped| > 0 && |old(openSections)| == 0 ==> openSections == map[grouped[0].0 := true]
      ensures !(|grouped| > 0 && |old(openSections)| == 0) ==> openSections == old(openSections)
    {
      if |grouped| > 0 && |openSections| == 0 {
        openSections := map[grouped[0].0 := true];
      }
    }
  }
}
