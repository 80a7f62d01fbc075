/**
 * The decisions QrCodeScreen takes from the UI state: whether the result
 * panel shows, whether the text is a link, which buttons the action row
 * holds and what each one launches, the flash icon, and the integer
 * target rectangle handed to the analyzer. Layout and drawing are not
 * modelled; `Uri.encode` is a parameter.
 */
module Screen {
  import opened Options
  import opened Geometry
  import opened UiState

  const HttpPrefix: string := "http://"
  const HttpsPrefix: string := "https://"
  const SearchPrefix: string := "https://www.google.com/search?q="
  const OpenWithTitle: string := "Open with"
  const ShareLinkTitle: string := "Sharing link"
  const ShareTextTitle: string := "Sharing Text"
  const PlainText: string := "text/plain"

  /** Kotlin's `String.startsWith(prefix)`: a case-sensitive prefix test. */
  predicate StartsWith(s: string, prefix: string)
  {
    |prefix| <= |s| && s[..|prefix|] == prefix
  }

  /** The `isUrl` flag of the result panel. */
  predicate IsUrl(text: string)
    ensures IsUrl(text) <==> HttpPrefix <= text || HttpsPrefix <= text
  {
    StartsWith(text, HttpPrefix) || StartsWith(text, HttpsPrefix)
  }

  /** Any text that begins with one of the two schemes is a link. */
  lemma SchemePrefixedIsUrl(rest: string)
    ensures IsUrl(HttpPrefix + rest)
    ensures IsUrl(HttpsPrefix + rest)
  {
    assert (HttpPrefix + rest)[..|HttpPrefix|] == HttpPrefix;
    assert (HttpsPrefix + rest)[..|HttpsPrefix|] == HttpsPrefix;
  }

  /** A link is one of the two schemes followed by the rest of the text. */
  lemma UrlHasSchemePrefix(text: string)
    requires IsUrl(text)
    ensures text == HttpPrefix + text[|HttpPrefix|..] || text == HttpsPrefix + text[|HttpsPrefix|..]
  {
    if StartsWith(text, HttpPrefix) {
      assert text == text[..|HttpPrefix|] + text[|HttpPrefix|..];
    } else {
      assert text == text[..|HttpsPrefix|] + text[|HttpsPrefix|..];
    }
  }

  /** The test is on the exact characters: upper-case schemes and bare hosts are plain text. */
  lemma IsUrlCaseSensitive()
    ensures !IsUrl("HTTP://example.com") && !IsUrl("Https://example.com")
    ensures !IsUrl("www.example.com") && !IsUrl("") && !IsUrl("http:/")
  {
    assert "HTTP://example.com"[..7] != HttpPrefix by { assert "HTTP://example.com"[0] == 'H'; }
    assert "HTTP://example.com"[..8] != HttpsPrefix by { assert "HTTP://example.com"[0] == 'H'; }
    assert "Https://example.com"[..7] != HttpPrefix by { assert "Https://example.com"[0] == 'H'; }
    assert "Https://example.com"[..8] != HttpsPrefix by { assert "Https://example.com"[0] == 'H'; }
    assert "www.example.com"[..7] != HttpPrefix by { assert "www.example.com"[0] == 'w'; }
    assert "www.example.com"[..8] != HttpsPrefix by { assert "www.example.com"[0] == 'w'; }
  }

  /** The buttons of the action row. */
  datatype Action = OpenLink | WebSearch | Share | Copy

  /** What the result panel shows for a detected text. */
  datatype ResultPanel = ResultPanel(text: string, linkStyled: bool, actions: seq<Action>)

  /** The action row: open-link or web search first, then share and copy. */
  function ActionRow(text: string): (row: seq<Action>)
    ensures |row| == 3 && row[1] == Share && row[2] == Copy
    ensures OpenLink in row <==> IsUrl(text)
    ensures WebSearch in row <==> !IsUrl(text)
  {
    [if IsUrl(text) then OpenLink else WebSearch, Share, Copy]
  }

  /** The result panel appears only for a non-empty detected text. */
  function Panel(s: QrCodeUIState): (panel: Option<ResultPanel>)
    ensures panel.Some? <==> s.detectedQrCode != ""
    ensures panel.Some? ==> panel.value.text == s.detectedQrCode
    ensures panel.Some? ==> (panel.value.linkStyled <==> IsUrl(s.detectedQrCode))
    ensures panel.Some? ==> panel.value.actions == ActionRow(s.detectedQrCode)
  {
    if |s.detectedQrCode| > 0 then
      Some(ResultPanel(s.detectedQrCode, IsUrl(s.detectedQrCode), ActionRow(s.detectedQrCode)))
    else None
  }

  /** Exactly one of open-link and web search is offered whenever the panel shows. */
  lemma ExactlyOneOfOpenAndSearch(s: QrCodeUIState)
    requires Panel(s).Some?
    ensures (OpenLink in Panel(s).value.actions) != (WebSearch in Panel(s).value.actions)
  {
  }

  /** Nothing is offered before a code has been detected. */
  lemma DefaultStateHasNoPanel()
    ensures Panel(DefaultUIState()) == None
  {
  }

  /** What a tap or a button launches. */
  datatype Effect =
    | View(uri: string, chooserTitle: Option<string>)
    | SendText(text: string, mimeType: string, title: string)
    | SetClipboard(text: string)

  /** The title of the share chooser. */
  function ShareTitle(text: string): (title: string)
    ensures title == ShareLinkTitle <==> IsUrl(text)
    ensures title == ShareTextTitle <==> !IsUrl(text)
  {
    if IsUrl(text) then ShareLinkTitle else ShareTextTitle
  }

  /** The page a web search opens: the fixed search prefix, then the encoded text. */
  function SearchUri(text: string, encode: string -> string): (uri: string)
    ensures |uri| == |SearchPrefix| + |encode(text)|
    ensures uri[..|SearchPrefix|] == SearchPrefix
    ensures uri[|SearchPrefix|..] == encode(text)
  {
    SearchPrefix + encode(text)
  }

  /** Different encoded texts give different search pages. */
  lemma SearchUriInjective(a: string, b: string, encode: string -> string)
    requires SearchUri(a, encode) == SearchUri(b, encode)
    ensures encode(a) == encode(b)
  {
    assert encode(a) == SearchUri(a, encode)[|SearchPrefix|..];
  }

  /** What pressing a button of the action row does for the detected text. */
  function OnAction(action: Action, text: string, encode: string -> string): (effect: Effect)
    ensures action == Share ==> effect == SendText(text, PlainText, ShareTitle(text))
    ensures action == Copy ==> effect == SetClipboard(text)
    ensures action == OpenLink ==> effect == View(text, Some(OpenWithTitle))
    ensures action == WebSearch ==>
      (effect.View? && effect.chooserTitle == None
       && SearchPrefix <= effect.uri && effect.uri[|SearchPrefix|..] == encode(text))
  {
    match action
    case OpenLink => View(text, Some(OpenWithTitle))
    case WebSearch => View(SearchUri(text, encode), None)
    case Share => SendText(text, PlainText, ShareTitle(text))
    case Copy => SetClipboard(text)
  }

  /** Tapping the result text opens a link and does nothing for plain text. */
  function OnResultTap(text: string): (effect: Option<Effect>)
    ensures effect.Some? <==> IsUrl(text)
    ensures effect.Some? ==> effect.value.View? && effect.value.uri == text
  {
    if IsUrl(text) then Some(View(text, Some(OpenWithTitle))) else None
  }

  /** A tap on a link does the same as its open-link button. */
  lemma TapMatchesOpenLink(text: string, encode: string -> string)
    requires IsUrl(text)
    ensures OnResultTap(text) == Some(OnAction(ActionRow(text)[0], text, encode))
  {
  }

  /** The flash button's icon. */
  datatype FlashIcon = FlashOn | FlashOff

  function FlashIconFor(flashEnabled: bool): (icon: FlashIcon)
    ensures icon == FlashOn <==> flashEnabled
  {
    if flashEnabled then FlashOn else FlashOff
  }

  /** Toggling the flash always changes the icon shown. */
  lemma ToggleChangesIcon(s: QrCodeUIState)
    ensures FlashIconFor(WithFlashToggled(s).flashEnabled) != FlashIconFor(s.flashEnabled)
  {
  }

  /** The target handed to the analyzer: each edge of the UI target truncated to `Int`. */
  function AnalyzerTarget(target: Box): (r: Rect)
    ensures IntMin <= r.left <= IntMax && IntMin <= r.top <= IntMax
    ensures IntMin <= r.right <= IntMax && IntMin <= r.bottom <= IntMax
  {
    Rect(FloatToInt(target.left), FloatToInt(target.top), FloatToInt(target.right), FloatToInt(target.bottom))
  }

  /**
   * For a target in the non-negative quadrant and inside the range of `Int`,
   * truncation moves each edge left or up by less than one pixel.
   */
  lemma AnalyzerTargetWithinOnePixel(target: Box)
    requires 0.0 <= target.left && 0.0 <= target.top && 0.0 <= target.right && 0.0 <= target.bottom
    requires target.right <= IntMax as real && target.bottom <= IntMax as real
    requires target.left <= IntMax as real && target.top <= IntMax as real
    ensures var b := ToBox(AnalyzerTarget(target));
      && b.left <= target.left < b.left + 1.0
      && b.top <= target.top < b.top + 1.0
      && b.right <= target.right < b.right + 1.0
      && b.bottom <= target.bottom < b.bottom + 1.0
  {
  }

  /** Before the UI reports a target, the analyzer's target is the empty zero rectangle. */
  lemma DefaultTargetIsEmpty()
    ensures AnalyzerTarget(DefaultUIState().targetRect) == Rect(0, 0, 0, 0)
    ensures IsEmpty(ToBox(AnalyzerTarget(DefaultUIState().targetRect)))
  {
  }
}
