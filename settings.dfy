/** The page's single mutable `state` record (script.js lines 11-48) as a
    value, and the input handlers' updates of it (script.js lines 506-667) as
    functions from the old record to the new one. */
module Settings {
  import opened Wrappers
  import opened JsText
  import Cards

  /** Per-suit colour and optional uploaded icon (a data URL). */
  datatype SuitStyle = SuitStyle(color: string, icon: Option<string>)

  /** The customisation record shared by every card slot. The font-size
      sliders and the centre inset are not part of the model (see README). */
  datatype State = State(
    fontFamily: string,
    frontCardColor: string,
    backCardColor: string,
    suits: map<string, SuitStyle>,
    faces: map<string, map<string, string>>,
    marginPx: int,
    radiusPx: int,
    cardWidthMm: real,
    cardDpi: int,
    view: string)

  const Front: string := "front"
  const Back: string := "back"

  /** The record as the page starts. */
  const Initial: State := State(
    "system-ui, -apple-system, BlinkMacSystemFont, 'Segoe UI', sans-serif",
    "#ffffff",
    "#0044aa",
    map[
      "hearts" := SuitStyle("#d32f2f", None),
      "diamonds" := SuitStyle("#e53935", None),
      "clubs" := SuitStyle("#1a237e", None),
      "spades" := SuitStyle("#000000", None)
    ],
    map["hearts" := map[], "diamonds" := map[], "clubs" := map[], "spades" := map[], "joker" := map[]],
    0,
    0,
    63.0,
    72,
    Front)

  /** What the handlers keep true of the record: a positive card size and a
      view that is one of the two tabs. */
  predicate Wf(st: State) {
    && st.cardWidthMm > 0.0
    && st.cardDpi > 0
    && (st.view == Front || st.view == Back)
  }

  /** A JavaScript string used as a condition: only the empty string is false. */
  predicate Truthy(s: string) {
    s != []
  }

  /** The uploaded artwork stored for (suit, rank), if any: the lookup
      `faces[suit] && faces[suit][rank]`, where an empty entry counts as none. */
  function FaceArt(st: State, suit: string, rank: string): (art: Option<string>)
    ensures art.Some? <==> suit in st.faces && rank in st.faces[suit] && Truthy(st.faces[suit][rank])
    ensures art.Some? ==> art.value == st.faces[suit][rank]
  {
    if suit in st.faces && rank in st.faces[suit] && Truthy(st.faces[suit][rank])
    then Some(st.faces[suit][rank]) else None
  }

  /** The suit's uploaded icon, if one is set: `suitSettings && suitSettings.icon`. */
  function SuitIcon(st: State, suit: string): (icon: Option<string>)
    ensures icon.Some? <==> suit in st.suits && st.suits[suit].icon.Some? && Truthy(st.suits[suit].icon.value)
    ensures icon.Some? ==> icon == st.suits[suit].icon
  {
    if suit in st.suits && st.suits[suit].icon.Some? && Truthy(st.suits[suit].icon.value)
    then st.suits[suit].icon else None
  }

  lemma InitialWf()
    ensures Wf(Initial)
    ensures forall k :: 0 <= k < |Cards.Suits| ==> Cards.Suits[k].id in Initial.suits && Cards.Suits[k].id in Initial.faces
    ensures Cards.JokerSuit in Initial.faces
  {
  }

  /** The font handler: the trimmed free-text family when it is not empty,
      otherwise the preset chosen in the list. */
  function SetFont(st: State, custom: string, selected: string): (r: State)
    ensures r == st.(fontFamily := r.fontFamily)
    ensures r.fontFamily == selected || (r.fontFamily == Trim(custom) && Truthy(r.fontFamily))
    ensures Truthy(Trim(custom)) ==> r.fontFamily == Trim(custom)
  {
    var c := Trim(custom);
    if Truthy(c) then st.(fontFamily := c) else st.(fontFamily := selected)
  }

  /** The suit-colour handler. Writing the colour of a suit the record does not
      hold throws before anything changes, so the record is left as it was. */
  function SetSuitColor(st: State, suit: string, color: string): (r: State)
    ensures r == st.(suits := r.suits)
    ensures r.suits.Keys == st.suits.Keys
    ensures suit in st.suits ==> r.suits[suit] == SuitStyle(color, st.suits[suit].icon)
    ensures forall s :: s in st.suits && s != suit ==> r.suits[s] == st.suits[s]
  {
    if suit in st.suits then st.(suits := st.suits[suit := st.suits[suit].(color := color)]) else st
  }

  /** The suit-icon upload, once the file has been read as a data URL. */
  function SetSuitIcon(st: State, suit: string, data: string): (r: State)
    ensures r == st.(suits := r.suits)
    ensures r.suits.Keys == st.suits.Keys
    ensures suit in st.suits ==> r.suits[suit] == SuitStyle(st.suits[suit].color, Some(data))
    ensures suit in st.suits && Truthy(data) ==> SuitIcon(r, suit) == Some(data)
    ensures forall s :: s in st.suits && s != suit ==> r.suits[s] == st.suits[s]
    ensures suit !in st.suits ==> r == st
  {
    if suit in st.suits then st.(suits := st.suits[suit := st.suits[suit].(icon := Some(data))]) else st
  }

  /** The face-art upload: stores the data URL under (suit, rank), creating
      the suit's table when it is missing. */
  function SetFaceArt(st: State, suit: string, rank: string, data: string): (r: State)
    ensures r == st.(faces := r.faces)
    ensures FaceArt(r, suit, rank) == (if Truthy(data) then Some(data) else None)
    ensures forall s, k :: (s, k) != (suit, rank) ==> FaceArt(r, s, k) == FaceArt(st, s, k)
  {
    var table := if suit in st.faces then st.faces[suit] else map[];
    st.(faces := st.faces[suit := table[rank := data]])
  }

  /** `parseInt(text, 10) || 0`: the parsed integer, with NaN (and zero)
      falling back to 0. */
  function IntOrZero(text: string): (n: int)
    ensures n == ParseInt(text).GetOr(0)
  {
    match ParseInt(text)
    case Some(v) => if v != 0 then v else 0
    case None => 0
  }

  /** The face-frame margin handler. */
  function SetMargin(st: State, text: string): (r: State)
    ensures r == st.(marginPx := r.marginPx)
    ensures r.marginPx == ParseInt(text).GetOr(0)
  {
    st.(marginPx := IntOrZero(text))
  }

  /** The face-frame radius handler. */
  function SetRadius(st: State, text: string): (r: State)
    ensures r == st.(radiusPx := r.radiusPx)
    ensures r.radiusPx == ParseInt(text).GetOr(0)
  {
    st.(radiusPx := IntOrZero(text))
  }

  /** Whether a parsed card width or resolution is accepted: a number (not
      NaN) greater than zero. */
  predicate AcceptedWidth(parsed: Option<real>) {
    parsed.Some? && parsed.value > 0.0
  }

  predicate AcceptedDpi(text: string) {
    ParseInt(text).Some? && ParseInt(text).value > 0
  }

  /** The resolution check on option texts: the decimal text of n (with any
      non-digit text after it) is accepted exactly when n > 0; a negated
      number and a text with no digits after the white space are rejected. */
  lemma DpiAcceptance(n: nat, tail: string, text: string)
    requires tail == [] || !IsDigit(tail[0])
    ensures AcceptedDpi(DecimalString(n) + tail) <==> n > 0
    ensures !AcceptedDpi("-" + DecimalString(n) + tail)
    ensures DigitRun(Unsigned(TrimStart(text))) == 0 ==> !AcceptedDpi(text)
  {
    ParseIntDecimal(n, tail);
    ParseIntNegated(DecimalString(n), tail);
    DecimalStringValue(n);
  }

  /** The card-width handler, given `parseFloat` of the field (None for NaN). */
  function SetCardWidth(st: State, parsed: Option<real>): (r: State)
    ensures r == st.(cardWidthMm := r.cardWidthMm)
    ensures r != st ==> AcceptedWidth(parsed) && r.cardWidthMm == parsed.value
    ensures AcceptedWidth(parsed) ==> r.cardWidthMm == parsed.value
    ensures Wf(st) ==> Wf(r)
  {
    if AcceptedWidth(parsed) then st.(cardWidthMm := parsed.value) else st
  }

  /** The resolution handler, given the selected option's text. */
  function SetCardDpi(st: State, text: string): (r: State)
    ensures r == st.(cardDpi := r.cardDpi)
    ensures r != st ==> AcceptedDpi(text) && Some(r.cardDpi) == ParseInt(text)
    ensures AcceptedDpi(text) ==> Some(r.cardDpi) == ParseInt(text)
    ensures Wf(st) ==> Wf(r)
  {
    if AcceptedDpi(text) then st.(cardDpi := ParseInt(text).value) else st
  }

  /** The view-tab handler, given the tab's `data-view` (None when absent):
      only "back" selects the back; anything else selects the front. */
  function SetView(st: State, tab: Option<string>): (r: State)
    ensures r == st.(view := r.view)
    ensures r.view == Front || r.view == Back
    ensures r.view == Back <==> tab == Some(Back)
  {
    st.(view := if tab == Some(Back) then Back else Front)
  }

  /** One user input, as delivered to its event handler. */
  datatype Input =
    | FontChanged(custom: string, selected: string)
    | FrontColorInput(color: string)
    | BackColorInput(color: string)
    | SuitColorInput(suit: string, color: string)
    | SuitIconLoaded(suit: string, data: string)
    | FaceArtLoaded(suit: string, rank: string, data: string)
    | MarginInput(text: string)
    | RadiusInput(text: string)
    | CardWidthInput(parsed: Option<real>)
    | CardDpiChange(text: string)
    | ViewTabClick(tab: Option<string>)

  /** The record after the handler for `input` has run. */
  function Handle(st: State, input: Input): (r: State)
    ensures Wf(st) ==> Wf(r)
    ensures !Rerenders(st, input) ==> r == st
  {
    match input
    case FontChanged(custom, selected) => SetFont(st, custom, selected)
    case FrontColorInput(c) => st.(frontCardColor := c)
    case BackColorInput(c) => st.(backCardColor := c)
    case SuitColorInput(suit, c) => SetSuitColor(st, suit, c)
    case SuitIconLoaded(suit, data) => SetSuitIcon(st, suit, data)
    case FaceArtLoaded(suit, rank, data) => SetFaceArt(st, suit, rank, data)
    case MarginInput(text) => SetMargin(st, text)
    case RadiusInput(text) => SetRadius(st, text)
    case CardWidthInput(parsed) => SetCardWidth(st, parsed)
    case CardDpiChange(text) => SetCardDpi(st, text)
    case ViewTabClick(tab) => SetView(st, tab)
  }

  /** Whether the handler goes on to re-render the sheet. It does not when a
      width or resolution is rejected, nor when writing a suit's colour or
      icon throws because the record has no such suit. */
  predicate Rerenders(st: State, input: Input) {
    match input
    case SuitColorInput(suit, _) => suit in st.suits
    case SuitIconLoaded(suit, _) => suit in st.suits
    case CardWidthInput(parsed) => AcceptedWidth(parsed)
    case CardDpiChange(text) => AcceptedDpi(text)
    case _ => true
  }
}
