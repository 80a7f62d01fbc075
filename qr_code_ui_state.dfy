/** QrCodeUIState: the immutable five-field record the screen is drawn from. */
module UiState {
  import opened Geometry

  /** CameraX `CameraSelector.LENS_FACING_BACK`. */
  const LensFacingBack: int := 1

  datatype QrCodeUIState = QrCodeUIState(
    loading: bool,
    detectedQrCode: string,
    targetRect: Box,
    lensFacing: int,
    flashEnabled: bool)

  /** `QrCodeUIState()`: every field at its declared default. */
  function DefaultUIState(): (s: QrCodeUIState)
    ensures !s.loading
    ensures s.detectedQrCode == ""
    ensures s.targetRect == ZeroBox
    ensures s.lensFacing == LensFacingBack
    ensures !s.flashEnabled
  {
    QrCodeUIState(false, "", ZeroBox, LensFacingBack, false)
  }

  /** `copy(detectedQrCode = result)`: the text changes, every other field is kept. */
  function WithDetectedQrCode(s: QrCodeUIState, result: string): (t: QrCodeUIState)
    ensures t.detectedQrCode == result
    ensures t.loading == s.loading && t.targetRect == s.targetRect
    ensures t.lensFacing == s.lensFacing && t.flashEnabled == s.flashEnabled
  {
    s.(detectedQrCode := result)
  }

  /** `copy(targetRect = rect)`: the target changes, every other field is kept. */
  function WithTargetRect(s: QrCodeUIState, rect: Box): (t: QrCodeUIState)
    ensures t.targetRect == rect
    ensures t.loading == s.loading && t.detectedQrCode == s.detectedQrCode
    ensures t.lensFacing == s.lensFacing && t.flashEnabled == s.flashEnabled
  {
    s.(targetRect := rect)
  }

  /** `copy(flashEnabled = !flashEnabled)`: the flag flips, every other field is kept. */
  function WithFlashToggled(s: QrCodeUIState): (t: QrCodeUIState)
    ensures t.flashEnabled == !s.flashEnabled
    ensures t.loading == s.loading && t.detectedQrCode == s.detectedQrCode
    ensures t.targetRect == s.targetRect && t.lensFacing == s.lensFacing
  {
    s.(flashEnabled := !s.flashEnabled)
  }
}
