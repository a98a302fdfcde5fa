/** The booth detail sheet: its sheet state (opened from the selected location
    and where it was selected), the contact/e-mail pairing and the choice of
    neighbourhood icon extension. */
module BoothSheet {
  import opened Base
  import opened Text
  import opened Records
  import opened Sheet

  /** State set whenever `location` or `origin` changes: closed without a location,
      expanded when the booth was picked from the list, collapsed when picked on the map. */
  function InitialState(location: Option<Place>, origin: Origin): (r: SheetState)
    ensures r == Closed <==> location.None?
    ensures r == Expanded <==> location.Some? && origin == FromList
    ensures r == Collapsed <==> location.Some? && origin == FromMap
  {
    if location.None? then Closed
    else match origin
      case FromList => Expanded
      case FromMap => Collapsed
  }

  class BoothInfoSheet {
    var sheetState: SheetState
    var touchStartY: real
    /** How many `setTimeout(onClose, 400)` calls the sheet has made. */
    var closeRequests: nat

    constructor ()
      ensures sheetState == Closed && touchStartY == 0.0 && closeRequests == 0
    {
      sheetState := Closed;
      touchStartY := 0.0;
      closeRequests := 0;
    }

    /** The effect on `[location, origin]`. */
    method SyncWithProps(location: Option<Place>, origin: Origin)
      modifies this`sheetState
      ensures sheetState == InitialState(location, origin)
    {
      var next;
      if location.None? {
        next := Closed;
      } else if origin == FromList {
        next := Expanded;
      } else {
        next := Collapsed;
      }
      sheetState := next;
    }

    /** `onDragEnd`: unlike the theatre sheet there is no desktop guard. */
    method OnDragEnd(dy: real)
      modifies this`sheetState, this`closeRequests
      ensures sheetState == DragTarget(old(sheetState), dy)
      ensures closeRequests == old(closeRequests) + if DragCloses(old(sheetState), dy) then 1 else 0
    {
      if dy < -DragThreshold {
        sheetState := Expanded;
        return;
      }
      if dy > DragThreshold {
        if sheetState == Expanded {
          sheetState := Collapsed;
        } else if sheetState == Collapsed {
          sheetState := Closed;
          closeRequests := closeRequests + 1;
        }
      }
    }

    method HandleWheel(scrollTop: Option<real>, deltaY: real)
      modifies this`sheetState
      ensures sheetState == PullDownTarget(old(sheetState), scrollTop, WheelPulls(deltaY))
    {
      if sheetState == Expanded && scrollTop == Some(0.0) && deltaY < 0.0 {
        sheetState := Collapsed;
      }
    }

    method HandleTouchStart(clientY: real)
      modifies this`touchStartY
      ensures touchStartY == clientY
    {
      touchStartY := clientY;
    }

    method HandleTouchMove(clientY: real, scrollTop: Option<real>)
      modifies this`sheetState
      ensures sheetState == PullDownTarget(old(sheetState), scrollTop, TouchPulls(touchStartY, clientY))
    {
      var diff := clientY - touchStartY;
      if sheetState == Expanded && scrollTop == Some(0.0) && diff > DragThreshold {
        sheetState := Collapsed;
      }
    }

    /** The close button: close the sheet and schedule `onClose`. */
    method CloseButton()
      modifies this`sheetState, this`closeRequests
      ensures sheetState == Closed && closeRequests == old(closeRequests) + 1
    {
      sheetState := Closed;
      closeRequests := closeRequests + 1;
    }
  }

  datatype ContactPair = ContactPair(contact: string, email: string)

  /** `contacts.map((c, i) => ({ contact: c, email: emails[i] || "" }))`: one pair per
      contact, in order, each with the e-mail at the same index or "" when there is none. */
  function ZipContacts(contacts: seq<string>, emails: seq<string>): (r: seq<ContactPair>)
    ensures |r| == |contacts|
    ensures forall i :: 0 <= i < |r| ==> r[i].contact == contacts[i]
    ensures forall i :: 0 <= i < |r| ==> r[i].email == if i < |emails| then emails[i] else ""
  {
    if contacts == [] then []
    else [ContactPair(contacts[0], if emails == [] then "" else emails[0])]
         + ZipContacts(contacts[1..], if emails == [] then [] else emails[1..])
  }

  function Contacts(r: seq<ContactPair>): seq<string> {
    seq(|r|, i requires 0 <= i < |r| => r[i].contact)
  }

  function Emails(r: seq<ContactPair>): seq<string> {
    seq(|r|, i requires 0 <= i < |r| => r[i].email)
  }

  /** Unzipping the pairs gives back the contacts and the e-mails truncated to as many
      contacts, padded with "": surplus e-mails are dropped. */
  lemma ZipContactsUnzip(contacts: seq<string>, emails: seq<string>)
    ensures Contacts(ZipContacts(contacts, emails)) == contacts
    ensures |emails| >= |contacts| ==> Emails(ZipContacts(contacts, emails)) == emails[..|contacts|]
    ensures |emails| < |contacts| ==>
              Emails(ZipContacts(contacts, emails)) == emails + seq(|contacts| - |emails|, _ => "")
  {
  }

  /** The pairs shown for a location, from its raw `contacts` and `emails` strings. */
  function ContactEmailPairs(location: Place): (r: seq<ContactPair>)
    ensures |r| == |CommaList(location.contacts)|
    ensures location.contacts.None? ==> r == []
  {
    ZipContacts(CommaList(location.contacts), CommaList(location.emails))
  }

  /** The neighbourhood icon is a PNG exactly for the "ai" neighbourhood in any letter
      case, an SVG otherwise, including when there is no neighbourhood. */
  function IconExtension(neighbourhood: Option<string>): (r: string)
    ensures r == "png" || r == "svg"
    ensures r == "png" <==> && neighbourhood.Some? && |neighbourhood.value| == 2
                            && neighbourhood.value[0] in "aA" && neighbourhood.value[1] in "iI"
  {
    match neighbourhood
    case None => "svg"
    case Some(key) =>
      LowerIsAi(key);
      if ToLower(key) == "ai" then "png" else "svg"
  }

  /** The strings whose ASCII lower case is "ai". */
  lemma LowerIsAi(s: string)
    ensures ToLower(s) == "ai" <==> |s| == 2 && s[0] in "aA" && s[1] in "iI"
  {
    if |s| == 2 {
      var l := ToLower(s);
      assert l[0] == LowerChar(s[0]) && l[1] == LowerChar(s[1]);
      assert l == "ai" <==> l[0] == 'a' && l[1] == 'i';
    }
  }
}
