# QR code scanner: scan window, UI state and result panel

A Dafny model of the logic under an Android QR code scanner. Camera frames go to a barcode decoder. Each decoded code's bounding box is carried from frame pixels into preview pixels. A value is reported only when its box lies inside the on-screen scan window. The screen then offers open, search, share and copy actions for the reported text.

Three pieces are modelled:

- **QrCodeAnalyzer** (`scan_region.dfy`, `qr_code_analyzer.dfy`). For each frame it computes the cover-fit scale, the larger of the preview/frame height and width ratios. From the scale it derives the centring margins. It maps each bounding box into preview space: every edge is scaled, then the box is offset by the negative margins. It reports the raw value of each barcode that has a bounding box, whose mapped box the target contains, and whose raw value is non-null, in list order. It closes the frame exactly once on every path. The analyzer is a class. `scaleFactor` is a field overwritten per frame. The preview size is a pair of constants read at construction. The mapped box is a mutable `RectF` object whose edges are assigned and then offset in place. The frame (`ImageProxy`) is an object that counts its `close()` calls. The barcode loop is proved against the specification function `ScannedValues`, and the properties of the filter are lemmas about that function.
- **QrCodeUIState / QrCodeViewModel** (`qr_code_ui_state.dfy`, `qr_code_view_model.dfy`). The state is an immutable five-field record with declared defaults. The view model is a class holding one state field. Each of its three operations replaces exactly one field through a record copy. A ghost history ties the held state to the default state with all operations so far replayed. The lemmas about `Replay` give the reachable-state facts.
- **QrCodeScreen decisions** (`qr_code_screen.dfy`). These cover the `isUrl` prefix test, whether the result panel shows, and the action row. They also cover what each button and a tap on the text launch, the share title, the web-search address, the flash icon, and the `Float.toInt` truncation of the target rectangle handed to the analyzer.

`geometry.dfy` holds the platform rectangles: `Rect` with integer edges, `Box` for the edges of a `RectF` or a Compose `Rect`, and the mutable `RectF` class. It also holds `RectF.contains` (an empty container contains nothing), `offset`, and Kotlin's `Float.toInt`. Kotlin `Float` is modelled as `real`.

Two choices about the code's edge cases and state:

- `analyze` has no guard for a zero-sized frame, so `Analyze` requires frame width and height > 0. A 0×0 preview is allowed and gives scale 0.
- `analyze` keeps the scale in a mutable field and mutates a `RectF`. The model keeps both, and `Analyze`'s postcondition ties the field to `ScaleFactor`. So two frames of the same size always leave the same scale.

## Model

| member | source | states |
|---|---|---|
| Geometry.RectF.FromRect | app/src/main/java/com/likhit/qrcodescanner/presentation/qr_code_scanner/QrCodeAnalyzer.kt:84 | `toRectF()` gives a RectF with the same four edges as the integer Rect |
| Geometry.RectF.Offset | app/src/main/java/com/likhit/qrcodescanner/presentation/qr_code_scanner/QrCodeAnalyzer.kt:57 | `offset(dx, dy)` moves left and right by dx and top and bottom by dy, in place |
| Geometry.ContainsItself | app/src/main/java/com/likhit/qrcodescanner/presentation/qr_code_scanner/QrCodeAnalyzer.kt:58 | a target equal to a non-empty mapped box contains it |
| Geometry.ShrunkContainerRejects | app/src/main/java/com/likhit/qrcodescanner/presentation/qr_code_scanner/QrCodeAnalyzer.kt:58 | moving any one edge of the target inward by any positive amount rejects every box that touches that edge |
| Geometry.EmptyContainsNothing | app/src/main/java/com/likhit/qrcodescanner/presentation/qr_code_scanner/QrCodeAnalyzer.kt:58 | an empty target rectangle contains no box |
| Geometry.ShiftedInverse | app/src/main/java/com/likhit/qrcodescanner/presentation/qr_code_scanner/QrCodeAnalyzer.kt:57 | offsetting by (dx, dy) and then by (-dx, -dy) restores the box |
| Geometry.Contains | app/src/main/java/com/likhit/qrcodescanner/presentation/qr_code_scanner/QrCodeAnalyzer.kt:58 | `RectF.contains`: a container that contains anything is non-empty, and every point of the contained box lies inside the container |
| Geometry.ContainsFromPoints | app/src/main/java/com/likhit/qrcodescanner/presentation/qr_code_scanner/QrCodeAnalyzer.kt:58 | conversely, a non-empty rectangle contains every well-ordered box whose points all lie inside it |
| Analyzer.QrCodeAnalyzer.TransformX | app/src/main/java/com/likhit/qrcodescanner/presentation/qr_code_scanner/QrCodeAnalyzer.kt:76 | `transformX` scales a horizontal coordinate: dividing by a non-zero scale recovers it, and a non-negative coordinate stays non-negative under a non-negative scale |
| Analyzer.QrCodeAnalyzer.TransformY | app/src/main/java/com/likhit/qrcodescanner/presentation/qr_code_scanner/QrCodeAnalyzer.kt:77 | `transformY` scales a vertical coordinate: dividing by a non-zero scale recovers it, and a non-negative coordinate stays non-negative under a non-negative scale |
| Analyzer.Frame.Close | app/src/main/java/com/likhit/qrcodescanner/presentation/qr_code_scanner/QrCodeAnalyzer.kt:69-72 | `image.close()` raises the frame's close count by exactly one |
| UiState.WithDetectedQrCode | app/src/main/java/com/likhit/qrcodescanner/presentation/qr_code_scanner/QrCodeViewModel.kt:17-24 | `copy(detectedQrCode = result)` sets the text and keeps loading, targetRect, lensFacing and flashEnabled |
| UiState.WithTargetRect | app/src/main/java/com/likhit/qrcodescanner/presentation/qr_code_scanner/QrCodeViewModel.kt:26-32 | `copy(targetRect = rect)` sets the target and keeps loading, detectedQrCode, lensFacing and flashEnabled |
| UiState.WithFlashToggled | app/src/main/java/com/likhit/qrcodescanner/presentation/qr_code_scanner/QrCodeViewModel.kt:34-40 | `copy(flashEnabled = !flashEnabled)` negates the flag and keeps loading, detectedQrCode, targetRect and lensFacing |
| Screen.IsUrl | app/src/main/java/com/likhit/qrcodescanner/presentation/qr_code_scanner/QrCodeScreen.kt:295-296 | `isUrl` holds iff the text has "http://" or "https://" as a prefix |
| Geometry.FloatToInt | app/src/main/java/com/likhit/qrcodescanner/presentation/qr_code_scanner/QrCodeScreen.kt:137-142 | `Float.toInt()` lies in the 32-bit range. Within range it is the integer next to x toward zero, less than one away. Outside the range it saturates at the nearer bound |
| Geometry.FloatToIntTowardZero | app/src/main/java/com/likhit/qrcodescanner/presentation/qr_code_scanner/QrCodeScreen.kt:137-142 | truncation never flips the sign (a value may become 0) and never grows the magnitude. A whole number in range is unchanged |
| ScanRegion.ScaleFactor | app/src/main/java/com/likhit/qrcodescanner/presentation/qr_code_scanner/QrCodeAnalyzer.kt:38-41 | the scale is at least previewHeight/frameHeight and at least previewWidth/frameWidth, and equals one of the two |
| ScanRegion.CoverFit | app/src/main/java/com/likhit/qrcodescanner/presentation/qr_code_scanner/QrCodeAnalyzer.kt:38-45 | for a frame > 0 and a preview >= 0, the scaled frame covers the preview on both axes, so scale, marginX and marginY are all >= 0 |
| ScanRegion.OneMarginVanishes | app/src/main/java/com/likhit/qrcodescanner/presentation/qr_code_scanner/QrCodeAnalyzer.kt:38-45 | at least one of marginX and marginY is exactly 0 |
| ScanRegion.MapBoxKeepsEdgeOrder | app/src/main/java/com/likhit/qrcodescanner/presentation/qr_code_scanner/QrCodeAnalyzer.kt:76-89 | with scale >= 0, left <= right and top <= bottom still hold after scaling and offsetting |
| ScanRegion.MapBoxInverse | app/src/main/java/com/likhit/qrcodescanner/presentation/qr_code_scanner/QrCodeAnalyzer.kt:76-89 | with scale > 0 the mapping loses nothing: adding back the margins and dividing by the scale recovers the frame-space edges |
| ScanRegion.PortraitFrameExample | app/src/main/java/com/likhit/qrcodescanner/presentation/qr_code_scanner/QrCodeAnalyzer.kt:38-57 | a 480×640 frame under a 1080×1920 preview gives scale 3, marginX 180 and marginY 0, and the box (100,100,200,200) maps to (120,300,420,600) |
| ScanRegion.ScannedValuesAppend | app/src/main/java/com/likhit/qrcodescanner/presentation/qr_code_scanner/QrCodeAnalyzer.kt:54-62 | barcodes are visited in list order: scanning a + b reports a's values, then b's |
| ScanRegion.ScannedValuesLength | app/src/main/java/com/likhit/qrcodescanner/presentation/qr_code_scanner/QrCodeAnalyzer.kt:54-62 | one callback per qualifying barcode, so never more callbacks than barcodes |
| ScanRegion.ScannedValuesSound | app/src/main/java/com/likhit/qrcodescanner/presentation/qr_code_scanner/QrCodeAnalyzer.kt:56-59 | every reported value is the raw value of a barcode that has a box, whose mapped box is inside the target, and that has a raw value |
| ScanRegion.ScannedValuesComplete | app/src/main/java/com/likhit/qrcodescanner/presentation/qr_code_scanner/QrCodeAnalyzer.kt:54-62 | each qualifying barcode's value is reported, at the position given by the number of qualifying barcodes before it |
| ScanRegion.EmptyTargetReportsNothing | app/src/main/java/com/likhit/qrcodescanner/presentation/qr_code_scanner/QrCodeAnalyzer.kt:58 | with an empty target, such as the zero rectangle, no value is ever reported |
| Analyzer.QrCodeAnalyzer.constructor | app/src/main/java/com/likhit/qrcodescanner/presentation/qr_code_scanner/QrCodeAnalyzer.kt:18-26 | the target and the preview size are fixed at construction, and the scale starts at 0 |
| Analyzer.QrCodeAnalyzer.Transform | app/src/main/java/com/likhit/qrcodescanner/presentation/qr_code_scanner/QrCodeAnalyzer.kt:76-91 | a fresh RectF whose every edge is the box's edge times the current scale factor |
| Analyzer.QrCodeAnalyzer.ScanBarcodes | app/src/main/java/com/likhit/qrcodescanner/presentation/qr_code_scanner/QrCodeAnalyzer.kt:54-62 | the `forEach` loop reports exactly `ScannedValues` of the decoded list under the current scale and margins |
| Analyzer.QrCodeAnalyzer.Analyze | app/src/main/java/com/likhit/qrcodescanner/presentation/qr_code_scanner/QrCodeAnalyzer.kt:34-74 | the frame is closed exactly once. Without an image nothing is reported and the scale is untouched. With one, the scale becomes `ScaleFactor` of the frame, the scaled frame covers the preview, and the reports are `ScannedValues` under that frame's projection, or none when decoding failed |
| UiState.DefaultUIState | app/src/main/java/com/likhit/qrcodescanner/presentation/qr_code_scanner/QrCodeUIState.kt:6-12 | defaults: not loading, empty detected text, zero target rectangle, back lens, flash off |
| ViewModel.QrCodeViewModel.constructor | app/src/main/java/com/likhit/qrcodescanner/presentation/qr_code_scanner/QrCodeViewModel.kt:14 | the held state starts as the default record |
| ViewModel.QrCodeViewModel.OnQrCodeDetected | app/src/main/java/com/likhit/qrcodescanner/presentation/qr_code_scanner/QrCodeViewModel.kt:17-24 | sets detectedQrCode and keeps every other field. The state stays reachable, not loading and on the back lens |
| ViewModel.QrCodeViewModel.OnTargetPositioned | app/src/main/java/com/likhit/qrcodescanner/presentation/qr_code_scanner/QrCodeViewModel.kt:26-32 | sets targetRect and keeps every other field. The state stays reachable, not loading and on the back lens |
| ViewModel.QrCodeViewModel.OnToggleFlash | app/src/main/java/com/likhit/qrcodescanner/presentation/qr_code_scanner/QrCodeViewModel.kt:34-40 | negates flashEnabled and keeps every other field. The state stays reachable, not loading and on the back lens |
| ViewModel.ReplayAppend | app/src/main/java/com/likhit/qrcodescanner/presentation/qr_code_scanner/QrCodeViewModel.kt:17-40 | applying operations one after another composes: replaying a + b is replaying b after a |
| ViewModel.ReplayKeepsLoadingAndLens | app/src/main/java/com/likhit/qrcodescanner/presentation/qr_code_scanner/QrCodeViewModel.kt:13-41 | no sequence of operations changes `loading` or `lensFacing` |
| ViewModel.ReachableNeverLoadsAndFacesBack | app/src/main/java/com/likhit/qrcodescanner/presentation/qr_code_scanner/QrCodeViewModel.kt:13-41 | every state reachable from the default is not loading and faces the back lens |
| ViewModel.FlashFollowsToggleParity | app/src/main/java/com/likhit/qrcodescanner/presentation/qr_code_scanner/QrCodeViewModel.kt:34-40 | after any sequence of operations, the flash differs from its start value exactly when it was toggled an odd number of times |
| ViewModel.ToggleTwiceRestores | app/src/main/java/com/likhit/qrcodescanner/presentation/qr_code_scanner/QrCodeViewModel.kt:34-40 | toggling the flash twice gives back the original state |
| ViewModel.DetectionIdempotent | app/src/main/java/com/likhit/qrcodescanner/presentation/qr_code_scanner/QrCodeViewModel.kt:17-24 | reporting the same text twice is the same as reporting it once |
| ViewModel.LastDetectionWins | app/src/main/java/com/likhit/qrcodescanner/presentation/qr_code_scanner/QrCodeViewModel.kt:17-24 | after a detection, the detected text stays until the next detection, whatever target or flash operations follow |
| ViewModel.DifferentOperationsCommute | app/src/main/java/com/likhit/qrcodescanner/presentation/qr_code_scanner/QrCodeViewModel.kt:17-40 | two calls of different operations give the same state in either order |
| ViewModel.ReplayStep | app/src/main/java/com/likhit/qrcodescanner/presentation/qr_code_scanner/QrCodeViewModel.kt:17-40 | one operation on a reachable state gives the reachable state for the longer history, still not loading and on the back lens |
| Screen.SchemePrefixedIsUrl | app/src/main/java/com/likhit/qrcodescanner/presentation/qr_code_scanner/QrCodeScreen.kt:295-296 | every text starting with "http://" or "https://" is a link |
| Screen.UrlHasSchemePrefix | app/src/main/java/com/likhit/qrcodescanner/presentation/qr_code_scanner/QrCodeScreen.kt:295-296 | a link is "http://" or "https://" followed by the rest of the text |
| Screen.IsUrlCaseSensitive | app/src/main/java/com/likhit/qrcodescanner/presentation/qr_code_scanner/QrCodeScreen.kt:295-296 | the prefix test is case-sensitive: "HTTP://…", "Https://…", a bare host, "" and "http:/" are plain text |
| Screen.Panel | app/src/main/java/com/likhit/qrcodescanner/presentation/qr_code_scanner/QrCodeScreen.kt:293-336 | the result panel shows iff the detected text is non-empty. It shows that text, link-styled iff it is a URL, over the action row |
| Screen.ActionRow | app/src/main/java/com/likhit/qrcodescanner/presentation/qr_code_scanner/QrCodeScreen.kt:336-423 | three buttons ending in share and copy. Open-link is present iff the text is a URL, web search iff it is not |
| Screen.ExactlyOneOfOpenAndSearch | app/src/main/java/com/likhit/qrcodescanner/presentation/qr_code_scanner/QrCodeScreen.kt:336-381 | whenever the panel shows, exactly one of open-link and web search is offered |
| Screen.DefaultStateHasNoPanel | app/src/main/java/com/likhit/qrcodescanner/presentation/qr_code_scanner/QrCodeScreen.kt:293 | before any detection, no result panel is shown |
| Screen.ShareTitle | app/src/main/java/com/likhit/qrcodescanner/presentation/qr_code_scanner/QrCodeScreen.kt:392-395 | the share chooser is titled "Sharing link" iff the text is a URL, and "Sharing Text" otherwise |
| Screen.SearchUri | app/src/main/java/com/likhit/qrcodescanner/presentation/qr_code_scanner/QrCodeScreen.kt:361-366 | the search address is "https://www.google.com/search?q=" followed by the encoded text, and nothing else |
| Screen.SearchUriInjective | app/src/main/java/com/likhit/qrcodescanner/presentation/qr_code_scanner/QrCodeScreen.kt:361-366 | two texts give the same search address only when they encode the same |
| Screen.OnAction | app/src/main/java/com/likhit/qrcodescanner/presentation/qr_code_scanner/QrCodeScreen.kt:336-423 | open-link views the text through an "Open with" chooser. Search views the search address with no chooser. Share sends the text unchanged as text/plain under the share title. Copy puts the text unchanged on the clipboard |
| Screen.OnResultTap | app/src/main/java/com/likhit/qrcodescanner/presentation/qr_code_scanner/QrCodeScreen.kt:317-327 | tapping the text does something iff it is a URL, and then views that very text |
| Screen.TapMatchesOpenLink | app/src/main/java/com/likhit/qrcodescanner/presentation/qr_code_scanner/QrCodeScreen.kt:317-357 | for a link, tapping the text does the same as the row's first button |
| Screen.FlashIconFor | app/src/main/java/com/likhit/qrcodescanner/presentation/qr_code_scanner/QrCodeScreen.kt:285-287 | the icon is FlashOn iff the flash is enabled |
| Screen.ToggleChangesIcon | app/src/main/java/com/likhit/qrcodescanner/presentation/qr_code_scanner/QrCodeScreen.kt:275-287 | toggling the flash always changes the icon |
| Screen.AnalyzerTarget | app/src/main/java/com/likhit/qrcodescanner/presentation/qr_code_scanner/QrCodeScreen.kt:137-142 | the analyzer's target has every edge in the 32-bit Int range |
| Screen.AnalyzerTargetWithinOnePixel | app/src/main/java/com/likhit/qrcodescanner/presentation/qr_code_scanner/QrCodeScreen.kt:137-142 | for a target with non-negative edges inside Int range, each truncated edge is at most the original and less than one pixel below it |
| Screen.DefaultTargetIsEmpty | app/src/main/java/com/likhit/qrcodescanner/presentation/qr_code_scanner/QrCodeScreen.kt:127-142 | an analyzer built from the default UI target gets the empty rectangle (0,0,0,0), which by `EmptyTargetReportsNothing` lets nothing through |

## Left out

- Barcode decoding (ML Kit client, `InputImage.fromMediaImage`, `scanner.process`) is a foreign library. Its result for a frame is the `DecodeOutcome` parameter of `Analyze`: a list of (optional box, optional raw value), or a failure.
- The asynchronous completion listener and the executors are threading. Decoding followed by the callbacks is one sequential step. The callback calls are the sequence `Analyze` returns.
- The error log on a failed decode (`Log.e`) and the debug logs are diagnostics only. They are not modelled.
- Float rounding: scale, margins and mapped edges are exact reals. NaN and infinities are not modelled. That is why zero frame dimensions are excluded by precondition instead of producing a non-finite scale.
- Geometry.FloatToInt: the NaN-to-zero case of `Float.toInt()` is not modelled, because reals have no NaN.
- CameraX setup, the camera lifecycle, torch control, permission requests and the permission screens are platform plumbing with no logic to model.
- Compose layout and drawing, the cut-out overlay, focus handling, `Uri.parse`, intents and the clipboard are not modelled. Their effects are the `Effect` values of `OnAction` and `OnResultTap`. `Uri.encode` is the uninterpreted function parameter `encode`.
- `MutableStateFlow` observation and concurrent updates: the held state is a plain field, updated one operation at a time.
- The screen's `remember`/`derivedStateOf`/`LaunchedEffect` scheduling, which decides when the analyzer is built and so which target and preview size it captures, is not modelled. `DefaultTargetIsEmpty` and `EmptyTargetReportsNothing` state what happens if it captures the default target.
- The commented-out ZXing analyzer is dead code.
