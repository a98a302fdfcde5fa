/** The top bar: the search box with its clear button, and the filter pills,
    which are shown with the selected ones first. */
module TopBar {
  import opened Base

  datatype Pill = Pill(code: string, name: string)

  /** The four filter pills, in their declared order. */
  const FilterPills: seq<Pill> := [
    Pill("topic", "Topic Journeys"),
    Pill("sector", "Sector Journeys"),
    Pill("nb", "Neighbourhoods"),
    Pill("microTheatre", "Micro-theater")
  ]

  /** `selectedFilters.includes(p.code)`. */
  predicate IsSelected(p: Pill, selected: seq<string>) {
    p.code in selected
  }

  /** The comparator of `sortedPills`: negative when only `a` is selected, positive when
      only `b` is, zero when both or neither are. */
  function Compare(a: Pill, b: Pill, selected: seq<string>): (r: int)
    ensures r < 0 <==> IsSelected(a, selected) && !IsSelected(b, selected)
    ensures r > 0 <==> !IsSelected(a, selected) && IsSelected(b, selected)
    ensures r == 0 <==> (IsSelected(a, selected) <==> IsSelected(b, selected))
  {
    var aSel := IsSelected(a, selected);
    var bSel := IsSelected(b, selected);
    if aSel && !bSel then -1
    else if !aSel && bSel then 1
    else 0
  }

  /** The comparator is consistent in the sense ECMAScript's `sort` requires: it is
      antisymmetric, and it orders pills by one key (selected before unselected), so it
      is transitive both in `<` and in `==`. */
  lemma CompareIsConsistent(a: Pill, b: Pill, c: Pill, selected: seq<string>)
    ensures Compare(a, b, selected) == -Compare(b, a, selected)
    ensures Compare(a, b, selected) < 0 && Compare(b, c, selected) < 0 ==> Compare(a, c, selected) < 0
    ensures Compare(a, b, selected) == 0 && Compare(b, c, selected) == 0 ==> Compare(a, c, selected) == 0
    ensures Compare(a, a, selected) == 0
  {
  }

  /** Inserts `x` before the first pill it does not sort after, so that `x` stays
      ahead of pills that compare equal to it. */
  function Insert(x: Pill, t: seq<Pill>, selected: seq<string>): (r: seq<Pill>)
    ensures |r| == |t| + 1
  {
    if t == [] then [x]
    else if Compare(x, t[0], selected) <= 0 then [x] + t
    else [t[0]] + Insert(x, t[1..], selected)
  }

  /** A stable sort of `s` by `Compare`. With a consistent comparator a stable sort has
      exactly one possible result, so this is the order `Array.prototype.sort` produces. */
  function Sort(s: seq<Pill>, selected: seq<string>): (r: seq<Pill>)
    ensures |r| == |s|
  {
    if s == [] then [] else Insert(s[0], Sort(s[1..], selected), selected)
  }

  /** `[...FILTER_PILLS].sort(...)`. */
  function SortedPills(selected: seq<string>): seq<Pill> {
    Sort(FilterPills, selected)
  }

  function SelectedPills(s: seq<Pill>, selected: seq<string>): seq<Pill> {
    Filter(s, (p: Pill) => IsSelected(p, selected))
  }

  function UnselectedPills(s: seq<Pill>, selected: seq<string>): seq<Pill> {
    Filter(s, (p: Pill) => !IsSelected(p, selected))
  }

  /** An unselected pill passes over a run of selected pills. */
  lemma {:induction false} InsertPastSelected(x: Pill, a: seq<Pill>, b: seq<Pill>, selected: seq<string>)
    requires !IsSelected(x, selected)
    requires forall p :: p in a ==> IsSelected(p, selected)
    ensures Insert(x, a + b, selected) == a + Insert(x, b, selected)
  {
    if a != [] {
      InsertPastSelected(x, a[1..], b, selected);
      assert (a + b)[0] == a[0];
      assert (a + b)[1..] == a[1..] + b;
    } else {
      assert a + b == b;
    }
  }

  /** Inserting into a partitioned sequence: a selected pill goes to the front, an
      unselected one to the front of the unselected part. */
  lemma InsertIntoPartition(x: Pill, a: seq<Pill>, b: seq<Pill>, selected: seq<string>)
    requires forall p :: p in a ==> IsSelected(p, selected)
    requires forall p :: p in b ==> !IsSelected(p, selected)
    ensures IsSelected(x, selected) ==> Insert(x, a + b, selected) == [x] + (a + b)
    ensures !IsSelected(x, selected) ==> Insert(x, a + b, selected) == a + ([x] + b)
  {
    if IsSelected(x, selected) {
      if a + b != [] {
        assert (a + b)[0] in a + b;
      }
    } else {
      InsertPastSelected(x, a, b, selected);
      if b != [] {
        assert b[0] in b;
      }
    }
  }

  /** One step of the two filters. */
  lemma PartsCons(s: seq<Pill>, selected: seq<string>)
    requires s != []
    ensures SelectedPills(s, selected) ==
            (if IsSelected(s[0], selected) then [s[0]] else []) + SelectedPills(s[1..], selected)
    ensures UnselectedPills(s, selected) ==
            (if IsSelected(s[0], selected) then [] else [s[0]]) + UnselectedPills(s[1..], selected)
  {
  }

  /** The sort is the stable partition: the selected pills in input order, then the
      unselected ones in input order. */
  lemma {:induction false} SortIsPartition(s: seq<Pill>, selected: seq<string>)
    ensures Sort(s, selected) == SelectedPills(s, selected) + UnselectedPills(s, selected)
  {
    if s != [] {
      SortIsPartition(s[1..], selected);
      var a := SelectedPills(s[1..], selected);
      var b := UnselectedPills(s[1..], selected);
      PartsCons(s, selected);
      InsertIntoPartition(s[0], a, b, selected);
      if IsSelected(s[0], selected) {
        assert [] + b == b;
      } else {
        assert a == [] + a;
      }
    }
  }

  /** In a selected part followed by an unselected part, no selected pill follows an
      unselected one. */
  lemma PartitionOrdered(a: seq<Pill>, b: seq<Pill>, selected: seq<string>)
    requires forall p :: p in a ==> IsSelected(p, selected)
    requires forall p :: p in b ==> !IsSelected(p, selected)
    ensures forall i, j :: 0 <= i < j < |a + b| && !IsSelected((a + b)[i], selected)
              ==> !IsSelected((a + b)[j], selected)
  {
    var r := a + b;
    assert forall k :: 0 <= k < |a| ==> r[k] == a[k];
    forall i, j | 0 <= i < j < |r| && !IsSelected(r[i], selected)
      ensures !IsSelected(r[j], selected)
    {
      assert r[j] == b[j - |a|];
    }
  }

  /** Filtering the partition by either test gives back that part. */
  lemma PartitionFilters(s: seq<Pill>, selected: seq<string>)
    ensures var r := SelectedPills(s, selected) + UnselectedPills(s, selected);
            SelectedPills(r, selected) == SelectedPills(s, selected)
            && UnselectedPills(r, selected) == UnselectedPills(s, selected)
  {
    var a := SelectedPills(s, selected);
    var b := UnselectedPills(s, selected);
    var sel := (p: Pill) => IsSelected(p, selected);
    var unsel := (p: Pill) => !IsSelected(p, selected);
    FilterAppend(a, b, sel);
    FilterAppend(a, b, unsel);
    FilterAll(a, sel);
    FilterNone(b, sel);
    FilterNone(a, unsel);
    FilterAll(b, unsel);
    assert a + [] == a;
    assert [] + b == b;
  }

  /** What the source promises of `sortedPills`: it is a permutation of the pills, every
      selected pill comes before every unselected one, and each of the two groups keeps
      its original order. */
  lemma SortSpec(s: seq<Pill>, selected: seq<string>)
    ensures multiset(Sort(s, selected)) == multiset(s)
    ensures forall i, j :: 0 <= i < j < |Sort(s, selected)| && !IsSelected(Sort(s, selected)[i], selected)
              ==> !IsSelected(Sort(s, selected)[j], selected)
    ensures SelectedPills(Sort(s, selected), selected) == SelectedPills(s, selected)
    ensures UnselectedPills(Sort(s, selected), selected) == UnselectedPills(s, selected)
  {
    SortIsPartition(s, selected);
    FilterSplitsMultiset(s, (p: Pill) => IsSelected(p, selected), (p: Pill) => !IsSelected(p, selected));
    PartitionOrdered(SelectedPills(s, selected), UnselectedPills(s, selected), selected);
    PartitionFilters(s, selected);
  }

  /** With no filter selected, the pills keep their declared order. */
  lemma {:induction false} SortNothingSelected(s: seq<Pill>)
    ensures Sort(s, []) == s
  {
    SortIsPartition(s, []);
    FilterNone(s, (p: Pill) => IsSelected(p, []));
    FilterAll(s, (p: Pill) => !IsSelected(p, []));
  }

  /** How a pill is drawn: `dark` is the filled style, `check` the check mark, and
      `divider` the bar drawn in front of the micro-theatre pill. */
  datatype PillLook = PillLook(dark: bool, check: bool, divider: bool)

  /** A check mark is only ever drawn on a dark pill. The micro-theatre pill is always
      dark and never checked, whatever is selected; for every other pill, dark, checked
      and selected coincide. */
  function Look(p: Pill, selected: seq<string>): (r: PillLook)
    ensures r.check ==> r.dark
    ensures p.code == "microTheatre" ==> r.dark && !r.check && r.divider
    ensures p.code != "microTheatre" ==>
              !r.divider && (r.check <==> r.dark) && (r.dark <==> IsSelected(p, selected))
  {
    var isMicro := p.code == "microTheatre";
    var isSel := IsSelected(p, selected);
    PillLook(isMicro || isSel, !isMicro && isSel, isMicro)
  }

  /** In the sorted bar every pill in front of a checked pill is drawn dark: the checked
      pills and the pills before them form one dark run at the start. */
  lemma CheckedPillsLeadDark(selected: seq<string>)
    ensures forall i, j :: 0 <= i < j < |SortedPills(selected)| && Look(SortedPills(selected)[j], selected).check
              ==> Look(SortedPills(selected)[i], selected).dark
  {
    var r := SortedPills(selected);
    SortSpec(FilterPills, selected);
    forall i, j | 0 <= i < j < |r| && Look(r[j], selected).check
      ensures Look(r[i], selected).dark
    {
      assert IsSelected(r[j], selected);
      assert IsSelected(r[i], selected);
    }
  }

  /** The clear button is shown exactly while the query is not empty. */
  predicate ClearButtonShown(searchQuery: string) {
    |searchQuery| > 0
  }
}
