/**
 * QrCodeViewModel: holds the current QrCodeUIState and replaces it on
 * each of three events. The state flow is modelled as a plain mutable field.
 */
module ViewModel {
  import opened Geometry
  import opened UiState

  /** The three operations of the view model. */
  datatype Event =
    | QrCodeDetected(result: string)
    | TargetPositioned(rect: Box)
    | FlashToggled

  /** The state after one event. */
  function Apply(s: QrCodeUIState, e: Event): QrCodeUIState
  {
    match e
    case QrCodeDetected(result) => WithDetectedQrCode(s, result)
    case TargetPositioned(rect) => WithTargetRect(s, rect)
    case FlashToggled => WithFlashToggled(s)
  }

  /** The state after a sequence of events, applied first to last. */
  function Replay(s: QrCodeUIState, events: seq<Event>): QrCodeUIState
  {
    if events == [] then s
    else Apply(Replay(s, events[..|events| - 1]), events[|events| - 1])
  }

  /** Whether two events are calls of the same operation. */
  predicate SameOperation(e1: Event, e2: Event)
  {
    (e1.QrCodeDetected? && e2.QrCodeDetected?)
    || (e1.TargetPositioned? && e2.TargetPositioned?)
    || (e1.FlashToggled? && e2.FlashToggled?)
  }

  /** How many of the events toggle the flash. */
  function ToggleCount(events: seq<Event>): nat
  {
    if events == [] then 0
    else ToggleCount(events[..|events| - 1]) + (if events[|events| - 1].FlashToggled? then 1 else 0)
  }

  /** Replaying one sequence after another is replaying their concatenation. */
  lemma {:induction false} ReplayAppend(s: QrCodeUIState, a: seq<Event>, b: seq<Event>)
    ensures Replay(s, a + b) == Replay(Replay(s, a), b)
  {
    if b == [] {
      assert a + b == a;
    } else {
      var b' := b[..|b| - 1];
      assert (a + b)[..|a + b| - 1] == a + b';
      assert (a + b)[|a + b| - 1] == b[|b| - 1];
      ReplayAppend(s, a, b');
    }
  }

  /** No operation touches `loading` or `lensFacing`. */
  lemma {:induction false} ReplayKeepsLoadingAndLens(s: QrCodeUIState, events: seq<Event>)
    ensures Replay(s, events).loading == s.loading
    ensures Replay(s, events).lensFacing == s.lensFacing
  {
    if events != [] {
      ReplayKeepsLoadingAndLens(s, events[..|events| - 1]);
    }
  }

  /** Every state reachable from the default is not loading and faces the back lens. */
  lemma ReachableNeverLoadsAndFacesBack(events: seq<Event>)
    ensures !Replay(DefaultUIState(), events).loading
    ensures Replay(DefaultUIState(), events).lensFacing == LensFacingBack
  {
    ReplayKeepsLoadingAndLens(DefaultUIState(), events);
  }

  /** The flash is on exactly when it started on and was toggled an even number of times, or the reverse. */
  lemma {:induction false} FlashFollowsToggleParity(s: QrCodeUIState, events: seq<Event>)
    ensures Replay(s, events).flashEnabled == (s.flashEnabled != (ToggleCount(events) % 2 == 1))
  {
    if events != [] {
      FlashFollowsToggleParity(s, events[..|events| - 1]);
    }
  }

  /** Toggling the flash twice restores the original state. */
  lemma ToggleTwiceRestores(s: QrCodeUIState)
    ensures Apply(Apply(s, FlashToggled), FlashToggled) == s
  {
  }

  /** Reporting the same text again changes nothing. */
  lemma DetectionIdempotent(s: QrCodeUIState, result: string)
    ensures Apply(Apply(s, QrCodeDetected(result)), QrCodeDetected(result)) == Apply(s, QrCodeDetected(result))
  {
  }

  /** After a detection, the text stays until the next detection, whatever else happens. */
  lemma {:induction false} LastDetectionWins(s: QrCodeUIState, result: string, later: seq<Event>)
    requires forall i :: 0 <= i < |later| ==> !later[i].QrCodeDetected?
    ensures Replay(s, [QrCodeDetected(result)] + later).detectedQrCode == result
  {
    if later == [] {
      assert [QrCodeDetected(result)] + later == [QrCodeDetected(result)];
      assert [QrCodeDetected(result)][..0] == [];
    } else {
      var front := later[..|later| - 1];
      assert ([QrCodeDetected(result)] + later)[..|later|] == [QrCodeDetected(result)] + front;
      LastDetectionWins(s, result, front);
    }
  }

  /** Different operations write different fields, so their order does not matter. */
  lemma DifferentOperationsCommute(s: QrCodeUIState, e1: Event, e2: Event)
    requires !SameOperation(e1, e2)
    ensures Apply(Apply(s, e1), e2) == Apply(Apply(s, e2), e1)
  {
  }

  /** One more event on a reachable state gives a reachable state, still not loading and facing back. */
  lemma ReplayStep(history: seq<Event>, s: QrCodeUIState, e: Event)
    requires s == Replay(DefaultUIState(), history)
    ensures Replay(DefaultUIState(), history + [e]) == Apply(s, e)
    ensures !Apply(s, e).loading && Apply(s, e).lensFacing == LensFacingBack
  {
    ReplayAppend(DefaultUIState(), history, [e]);
    assert [e][..0] == [];
    ReachableNeverLoadsAndFacesBack(history + [e]);
  }

  class QrCodeViewModel {
    /** The value held by `_qrCodeUIState`. */
    var uiState: QrCodeUIState
    /** The operations called so far. */
    ghost var history: seq<Event>

    /** The state is the default one with the history applied. */
    ghost predicate Valid()
      reads this
    {
      uiState == Replay(DefaultUIState(), history)
    }

    constructor ()
      ensures Valid() && history == []
      ensures uiState == DefaultUIState()
    {
      uiState := DefaultUIState();
      history := [];
    }

    method OnQrCodeDetected(result: string)
      requires Valid()
      modifies this
      ensures Valid() && history == old(history) + [QrCodeDetected(result)]
      ensures uiState == WithDetectedQrCode(old(uiState), result)
      ensures !uiState.loading && uiState.lensFacing == LensFacingBack
    {
      ReplayStep(history, uiState, QrCodeDetected(result));
      uiState := uiState.(detectedQrCode := result);
      history := history + [QrCodeDetected(result)];
    }

    method OnTargetPositioned(rect: Box)
      requires Valid()
      modifies this
      ensures Valid() && history == old(history) + [TargetPositioned(rect)]
      ensures uiState == WithTargetRect(old(uiState), rect)
      ensures !uiState.loading && uiState.lensFacing == LensFacingBack
    {
      ReplayStep(history, uiState, TargetPositioned(rect));
      uiState := uiState.(targetRect := rect);
      history := history + [TargetPositioned(rect)];
    }

    method OnToggleFlash()
      requires Valid()
      modifies this
      ensures Valid() && history == old(history) + [FlashToggled]
      ensures uiState == WithFlashToggled(old(uiState))
      ensures !uiState.loading && uiState.lensFacing == LensFacingBack
    {
      ReplayStep(history, uiState, FlashToggled);
      uiState := uiState.(flashEnabled := !uiState.flashEnabled);
      history := history + [FlashToggled];
    }
  }
}
