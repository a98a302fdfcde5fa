/** The micro-theatre detail sheet: its sheet state, the agenda accordion and
    the parsing of each talk's `speakers` field into name/email/image triples. */
module TheatreSheet {
  import opened Base
  import opened Text
  import opened Sheet

  /** State on a resize (and whenever the theatre prop changes): closed without a
      theatre, expanded on a desktop-width window, collapsed otherwise. */
  function ResizeTarget(hasTheatre: bool, desktop: bool): (r: SheetState)
    ensures r == Closed <==> !hasTheatre
    ensures r == Expanded <==> hasTheatre && desktop
    ensures r == Collapsed <==> hasTheatre && !desktop
  {
    if !hasTheatre then Closed else if desktop then Expanded else Collapsed
  }

  /** The height requested: "auto" on desktop, otherwise the shared target height. */
  datatype Height = Auto | Px(px: real)

  function TheatreHeight(desktop: bool, s: SheetState, collapsedPx: real, expandedPx: real, fallbackPx: real): (r: Height)
    ensures desktop <==> r == Auto
    ensures !desktop ==> r == Px(TargetHeight(s, collapsedPx, expandedPx, fallbackPx))
    ensures !desktop && collapsedPx > 0.0 && fallbackPx > 0.0 && expandedPx >= 0.0 ==>
              (r == Px(0.0) <==> s == Closed)
    ensures !desktop && s == Expanded && fallbackPx > 0.0 && expandedPx >= 0.0 ==> r.px > 0.0
  {
    if desktop then Auto else Px(TargetHeight(s, collapsedPx, expandedPx, fallbackPx))
  }

  /** The accordion updater `prev => prev === index ? null : index`: clicking the open
      item closes it, clicking any other item opens that one alone. */
  function AccordionToggle(prev: Option<nat>, index: nat): (r: Option<nat>)
    ensures r == Some(index) <==> prev != Some(index)
    ensures r == None <==> prev == Some(index)
  {
    if prev == Some(index) then None else Some(index)
  }

  class TheatreInfoSheet {
    var sheetState: SheetState
    var openIndex: Option<nat>
    var touchStartY: real
    /** How many `setTimeout(onClose, 400)` calls the sheet has made. */
    var closeRequests: nat

    constructor ()
      ensures sheetState == Closed && openIndex == None
      ensures touchStartY == 0.0 && closeRequests == 0
    {
      sheetState := Closed;
      openIndex := None;
      touchStartY := 0.0;
      closeRequests := 0;
    }

    method HandleResize(hasTheatre: bool, desktop: bool)
      modifies this`sheetState
      ensures sheetState == ResizeTarget(hasTheatre, desktop)
    {
      if !hasTheatre {
        sheetState := Closed;
        return;
      }
      if desktop {
        sheetState := Expanded;
      } else {
        sheetState := Collapsed;
      }
    }

    /** `onDragEnd`: ignored on desktop; on mobile the drag transition, scheduling
        `onClose` when it closes the sheet. */
    method OnDragEnd(desktop: bool, dy: real)
      modifies this`sheetState, this`closeRequests
      ensures desktop ==> sheetState == old(sheetState) && closeRequests == old(closeRequests)
      ensures !desktop ==> sheetState == DragTarget(old(sheetState), dy)
      ensures !desktop ==> closeRequests == old(closeRequests) + if DragCloses(old(sheetState), dy) then 1 else 0
    {
      if desktop {
        return;
      }
      if dy < -DragThreshold {
        sheetState := Expanded;
        return;
      }
      if dy > DragThreshold {
        if sheetState == Expanded {
          sheetState := Collapsed;
        } else if sheetState == Collapsed {
          sheetState := Closed;
          closeRequests := closeRequests + 1;
        }
      }
    }

    method HandleWheel(scrollTop: Option<real>, deltaY: real)
      modifies this`sheetState
      ensures sheetState == PullDownTarget(old(sheetState), scrollTop, WheelPulls(deltaY))
    {
      if sheetState == Expanded && scrollTop == Some(0.0) && deltaY < 0.0 {
        sheetState := Collapsed;
      }
    }

    method HandleTouchStart(clientY: real)
      modifies this`touchStartY
      ensures touchStartY == clientY
    {
      touchStartY := clientY;
    }

    method HandleTouchMove(clientY: real, scrollTop: Option<real>)
      modifies this`sheetState
      ensures sheetState == PullDownTarget(old(sheetState), scrollTop, TouchPulls(touchStartY, clientY))
    {
      var diff := clientY - touchStartY;
      if sheetState == Expanded && scrollTop == Some(0.0) && diff > DragThreshold {
        sheetState := Collapsed;
      }
    }

    /** The close button: close the sheet and schedule `onClose`. */
    method CloseButton()
      modifies this`sheetState, this`closeRequests
      ensures sheetState == Closed && closeRequests == old(closeRequests) + 1
    {
      sheetState := Closed;
      closeRequests := closeRequests + 1;
    }

    /** Clicking the header of agenda item `index`. */
    method ClickItem(index: nat)
      modifies this`openIndex
      ensures openIndex == AccordionToggle(old(openIndex), index)
    {
      openIndex := AccordionToggle(openIndex, index);
    }
  }

  /** The shape of an agenda item's `speakers` field in agenda.json. */
  datatype JsonField = Missing | JsonString(text: string) | NotAString

  /** One entry of `speakerEntries`. */
  datatype Speaker = Speaker(name: string, email: string, img: string)

  /** `item.speakers.split(",").map(s => s.trim())` when `speakers` is a non-empty
      string (the only case the source parses), otherwise no pieces. */
  function SpeakerPieces(speakers: JsonField): seq<string> {
    if speakers.JsonString? && speakers.text != "" then CommaList(Some(speakers.text)) else []
  }

  /** A non-empty string always yields at least one piece. */
  lemma SpeakerPiecesOfString(text: string)
    requires text != ""
    ensures |SpeakerPieces(JsonString(text))| == Count(text, ',') + 1
  {
    CommaListShape(Some(text));
  }

  /** `raw[i] || ""`. */
  function PieceOr(raw: seq<string>, i: nat): string {
    if i < |raw| then raw[i] else ""
  }

  /** The entry built from the group of pieces starting at 3k. */
  function SpeakerAt(raw: seq<string>, k: nat): Speaker
    requires 3 * k < |raw|
  {
    Speaker(raw[3 * k], PieceOr(raw, 3 * k + 1), PieceOr(raw, 3 * k + 2))
  }

  /** The `for (let i = 0; i < raw.length; i += 3)` loop: one entry per started group
      of three pieces (so ceil(n/3) entries for n pieces), entry k taking pieces 3k,
      3k+1 and 3k+2, with "" for missing ones. */
  method GroupSpeakers(raw: seq<string>) returns (entries: seq<Speaker>)
    ensures 3 * |entries| - 2 <= |raw| <= 3 * |entries|
    ensures forall k :: 0 <= k < |entries| ==> entries[k] == SpeakerAt(raw, k)
  {
    entries := [];
    var i := 0;
    while i < |raw|
      invariant i == 3 * |entries| <= |raw| + 2
      invariant forall k :: 0 <= k < |entries| ==> entries[k] == SpeakerAt(raw, k)
    {
      entries := entries + [SpeakerAt(raw, |entries|)];
      i := i + 3;
    }
  }

  /** Parsing an agenda item's speakers: absent, empty or non-string `speakers` give no
      entries; a non-empty string gives the grouped trimmed comma pieces, at least one. */
  method ParseSpeakers(speakers: JsonField) returns (entries: seq<Speaker>)
    ensures var raw := SpeakerPieces(speakers);
      && 3 * |entries| - 2 <= |raw| <= 3 * |entries|
      && forall k :: 0 <= k < |entries| ==> entries[k] == SpeakerAt(raw, k)
    ensures !(speakers.JsonString? && speakers.text != "") ==> entries == []
    ensures speakers.JsonString? && speakers.text != "" ==> |entries| >= 1
  {
    entries := [];
    if speakers.JsonString? && speakers.text != "" {
      var raw := CommaList(Some(speakers.text));
      SpeakerPiecesOfString(speakers.text);
      entries := GroupSpeakers(raw);
    }
  }
}
