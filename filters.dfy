/** The filter panel's editor state: the list of active filter types and the
    map from filter type to selected option codes, edited by the panel's
    buttons and cleaned of empty selections when the panel is closed. */
module Filters {
  import opened Base

  type Selections = map<string, seq<string>>

  /** `selections[type] || []`. */
  function SelectedValues(sel: Selections, t: string): seq<string> {
    if t in sel then sel[t] else []
  }

  predicate HasSelection(sel: Selections, t: string) {
    |SelectedValues(sel, t)| > 0
  }

  /** `activeTypes.filter(type => (selections[type] || []).length > 0)`. */
  function CleanTypes(types: seq<string>, sel: Selections): seq<string> {
    Filter(types, t => HasSelection(sel, t))
  }

  /** What `handleClose` keeps: exactly the active types with a non-empty selection,
      in their order, adding none. */
  lemma CleanTypesSpec(types: seq<string>, sel: Selections)
    ensures Subseq(CleanTypes(types, sel), types)
    ensures |CleanTypes(types, sel)| <= |types|
    ensures forall t :: t in CleanTypes(types, sel) <==> t in types && t in sel && |sel[t]| > 0
  {
    FilterIsSubseq(types, t => HasSelection(sel, t));
    forall t ensures t in CleanTypes(types, sel) <==> t in types && t in sel && |sel[t]| > 0 {
      FilterMembership(types, t => HasSelection(sel, t), t);
    }
  }

  /** The cleaned selection map: the cleaned types, each with its unchanged selection. */
  function CleanSelections(types: seq<string>, sel: Selections): (r: Selections)
    ensures r.Keys == set t | t in CleanTypes(types, sel)
    ensures forall t :: t in r ==> t in sel && r[t] == sel[t] && |r[t]| > 0
  {
    CleanTypesSpec(types, sel);
    map t | t in CleanTypes(types, sel) :: sel[t]
  }

  /** Closing twice cleans nothing the second time. */
  lemma CleanIdempotent(types: seq<string>, sel: Selections)
    ensures CleanTypes(CleanTypes(types, sel), CleanSelections(types, sel)) == CleanTypes(types, sel)
    ensures CleanSelections(CleanTypes(types, sel), CleanSelections(types, sel)) == CleanSelections(types, sel)
  {
    var ts := CleanTypes(types, sel);
    var m := CleanSelections(types, sel);
    assert forall t :: t in ts ==> HasSelection(m, t);
    FilterAll(ts, t => HasSelection(m, t));
  }

  /** The `cleanedTypes.forEach(type => { cleanedSelections[type] = selections[type]; })`
      loop: the result has exactly the given types as keys, each with its value in `sel`. */
  method CollectSelections(cleanedTypes: seq<string>, sel: Selections) returns (cleaned: Selections)
    requires forall t :: t in cleanedTypes ==> t in sel
    ensures cleaned.Keys == set t | t in cleanedTypes
    ensures forall t :: t in cleaned ==> cleaned[t] == sel[t]
  {
    cleaned := map[];
    var i := 0;
    while i < |cleanedTypes|
      invariant 0 <= i <= |cleanedTypes|
      invariant cleaned.Keys == set t | t in cleanedTypes[..i]
      invariant forall t :: t in cleaned ==> t in sel && cleaned[t] == sel[t]
    {
      var t := cleanedTypes[i];
      cleaned := cleaned[t := sel[t]];
      assert cleanedTypes[..i + 1] == cleanedTypes[..i] + [t];
      i := i + 1;
    }
    assert cleanedTypes[..i] == cleanedTypes;
  }

  class FilterEditor {
    var activeTypes: seq<string>
    var selections: Selections
    /** The arguments of the last `onApply` call, if any. */
    var lastApplied: Option<(seq<string>, Selections)>
    /** How many times `onClose` has been called. */
    var closeRequests: nat

    /** At most one filter type is active. */
    predicate AtMostOneActive()
      reads this
    {
      |activeTypes| <= 1
    }

    constructor (propsActiveTypes: seq<string>, propsSelections: Selections)
      ensures activeTypes == propsActiveTypes && selections == propsSelections
      ensures lastApplied == None && closeRequests == 0
    {
      activeTypes := propsActiveTypes;
      selections := propsSelections;
      lastApplied := None;
      closeRequests := 0;
    }

    /** The two effects that copy new props into the state. */
    method ReceiveProps(propsActiveTypes: seq<string>, propsSelections: Selections)
      modifies this`activeTypes, this`selections
      ensures activeTypes == propsActiveTypes && selections == propsSelections
    {
      activeTypes := propsActiveTypes;
      selections := propsSelections;
    }

    /** Clicking a filter type: clicking the active one deactivates everything and drops
        its selection; clicking another makes it the only active type, keeping only its
        own earlier selection. */
    method ToggleType(code: string)
      modifies this`activeTypes, this`selections
      ensures AtMostOneActive()
      ensures code in old(activeTypes) ==> activeTypes == [] && selections == old(selections) - {code}
      ensures code !in old(activeTypes) ==>
                activeTypes == [code] && selections == map[code := SelectedValues(old(selections), code)]
    {
      var isActive := code in activeTypes;
      if isActive {
        var next := selections;
        next := next - {code};
        selections := next;
        activeTypes := [];
      } else {
        selections := map[code := if code in selections then selections[code] else []];
        activeTypes := [code];
      }
    }

    /** Clicking an option: it becomes the only selection, of the only active type. */
    method ToggleSelection(sectionCode: string, value: string)
      modifies this`activeTypes, this`selections
      ensures AtMostOneActive()
      ensures selections == map[sectionCode := [value]] && activeTypes == [sectionCode]
    {
      selections := map[sectionCode := [value]];
      activeTypes := [sectionCode];
    }

    /** "Clear filters": empty state, applied as such. */
    method ClearAll()
      modifies this`activeTypes, this`selections, this`lastApplied
      ensures AtMostOneActive()
      ensures activeTypes == [] && selections == map[]
      ensures lastApplied == Some(([], map[]))
    {
      activeTypes := [];
      selections := map[];
      lastApplied := Some(([], map[]));
    }

    /** Closing the panel: drop the types without a selection, apply the cleaned state
        and close. */
    method HandleClose()
      modifies this`activeTypes, this`selections, this`lastApplied, this`closeRequests
      ensures activeTypes == CleanTypes(old(activeTypes), old(selections))
      ensures selections == CleanSelections(old(activeTypes), old(selections))
      ensures old(AtMostOneActive()) ==> AtMostOneActive()
      ensures lastApplied == Some((activeTypes, selections))
      ensures closeRequests == old(closeRequests) + 1
    {
      var cleanedTypes := CleanTypes(activeTypes, selections);
      CleanTypesSpec(activeTypes, selections);
      var cleanedSelections := CollectSelections(cleanedTypes, selections);
      assert cleanedSelections == CleanSelections(activeTypes, selections);
      activeTypes := cleanedTypes;
      selections := cleanedSelections;
      lastApplied := Some((cleanedTypes, cleanedSelections));
      closeRequests := closeRequests + 1;
    }
  }
}
