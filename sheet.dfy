/** The bottom-sheet state machine shared by the booth and theatre sheets:
    three states, a 50 px drag threshold, a pull-down gesture that collapses
    an expanded sheet scrolled to the top, and the height each state animates to. */
module Sheet {
  import opened Base

  datatype SheetState = Closed | Collapsed | Expanded

  /** `DRAG_THRESHOLD`, in pixels. */
  const DragThreshold: real := 50.0

  /** How far open a state is: closed 0, collapsed 1, expanded 2. */
  function Rank(s: SheetState): (r: nat)
    ensures r <= 2
    ensures r == 0 <==> s == Closed
  {
    match s
    case Closed => 0
    case Collapsed => 1
    case Expanded => 2
  }

  /** State after a drag ends with vertical offset `dy` (negative is upwards):
      a long upward drag expands, a long downward drag closes the sheet by one step,
      a short drag changes nothing. */
  function DragTarget(s: SheetState, dy: real): (r: SheetState)
    ensures dy < -DragThreshold ==> r == Expanded
    ensures dy > DragThreshold ==> Rank(r) == if s == Closed then 0 else Rank(s) - 1
    ensures -DragThreshold <= dy <= DragThreshold ==> r == s
  {
    if dy < -DragThreshold then Expanded
    else if dy > DragThreshold then
      match s
      case Expanded => Collapsed
      case Collapsed => Closed
      case Closed => Closed
    else s
  }

  /** Whether ending that drag schedules `onClose`: exactly when it takes an open sheet to closed. */
  function DragCloses(s: SheetState, dy: real): (r: bool)
    ensures r <==> s != Closed && DragTarget(s, dy) == Closed
  {
    dy > DragThreshold && s == Collapsed
  }

  /** `scrollRef.current?.scrollTop === 0`; None is a missing scroll container. */
  predicate AtScrollTop(scrollTop: Option<real>) {
    scrollTop == Some(0.0)
  }

  /** State after a wheel or touch pull-down: only an expanded sheet scrolled to the top
      collapses, and nothing ever opens. */
  function PullDownTarget(s: SheetState, scrollTop: Option<real>, pulling: bool): (r: SheetState)
    ensures r != s ==> s == Expanded && r == Collapsed && AtScrollTop(scrollTop) && pulling
    ensures s == Expanded && AtScrollTop(scrollTop) && pulling ==> r == Collapsed
    ensures Rank(r) <= Rank(s)
  {
    if s == Expanded && AtScrollTop(scrollTop) && pulling then Collapsed else s
  }

  /** The wheel gesture pulls down when it scrolls up (`e.deltaY < 0`). */
  predicate WheelPulls(deltaY: real) {
    deltaY < 0.0
  }

  /** The touch gesture pulls down when the finger has moved down more than the threshold. */
  predicate TouchPulls(startY: real, clientY: real) {
    clientY - startY > DragThreshold
  }

  /** The height animated to: 0 when closed, `collapsedPx` when collapsed, and when
      expanded the measured `expandedPx`, or `fallbackPx` while that is still 0. */
  function TargetHeight(s: SheetState, collapsedPx: real, expandedPx: real, fallbackPx: real): (r: real)
    ensures s == Closed ==> r == 0.0
    ensures s == Collapsed ==> r == collapsedPx
    ensures s == Expanded ==> r == (if expandedPx != 0.0 then expandedPx else fallbackPx)
    ensures collapsedPx > 0.0 && fallbackPx > 0.0 && expandedPx >= 0.0 ==> (r == 0.0 <==> s == Closed)
  {
    if s == Closed then 0.0
    else if s == Collapsed then collapsedPx
    else if expandedPx != 0.0 then expandedPx
    else fallbackPx
  }

  /** The state after a sequence of drags, each ending with the given offset. */
  function DragRun(s: SheetState, dys: seq<real>): SheetState
    decreases |dys|
  {
    if dys == [] then s else DragRun(DragTarget(s, dys[0]), dys[1..])
  }

  /** Each long downward drag closes the sheet by one step until it is closed:
      from expanded, two such drags close it. */
  lemma {:induction false} DownwardDragsClose(s: SheetState, dys: seq<real>)
    requires forall i :: 0 <= i < |dys| ==> dys[i] > DragThreshold
    ensures Rank(DragRun(s, dys)) == if |dys| >= Rank(s) then 0 else Rank(s) - |dys|
    decreases |dys|
  {
    if dys != [] {
      DownwardDragsClose(DragTarget(s, dys[0]), dys[1..]);
    }
  }

  /** Whatever came before, a run of drags whose last one is a long upward drag ends expanded. */
  lemma {:induction false} UpwardDragLastExpands(s: SheetState, dys: seq<real>)
    requires dys != [] && dys[|dys| - 1] < -DragThreshold
    ensures DragRun(s, dys) == Expanded
    decreases |dys|
  {
    if |dys| > 1 {
      UpwardDragLastExpands(DragTarget(s, dys[0]), dys[1..]);
    }
  }

  /** One pull-down gesture: where the scroll position was and whether it pulled. */
  datatype Pull = Pull(scrollTop: Option<real>, pulling: bool)

  predicate Collapses(p: Pull) {
    AtScrollTop(p.scrollTop) && p.pulling
  }

  function PullRun(s: SheetState, ps: seq<Pull>): SheetState
    decreases |ps|
  {
    if ps == [] then s else PullRun(PullDownTarget(s, ps[0].scrollTop, ps[0].pulling), ps[1..])
  }

  /** Pull-down gestures alone either leave the sheet as it was or, when it was expanded
      and some gesture pulled at the scroll top, leave it collapsed. */
  lemma {:induction false} PullRunOutcome(s: SheetState, ps: seq<Pull>)
    ensures PullRun(s, ps) == if s == Expanded && (exists i :: 0 <= i < |ps| && Collapses(ps[i])) then Collapsed else s
    decreases |ps|
  {
    if ps != [] {
      var s' := PullDownTarget(s, ps[0].scrollTop, ps[0].pulling);
      PullRunOutcome(s', ps[1..]);
      if s == Expanded && !Collapses(ps[0]) {
        if exists i :: 0 <= i < |ps| && Collapses(ps[i]) {
          var i :| 0 <= i < |ps| && Collapses(ps[i]);
          assert Collapses(ps[1..][i - 1]);
        }
      }
      if s != Expanded {
        assert s' == s;
      }
    }
  }
}
