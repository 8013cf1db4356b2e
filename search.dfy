/**
  `handle_search` (app.py:355-477): the callback that decides, from the
  input that fired, whether to fetch trending videos or run a keyword
  search, and turns the provider's answer into the page content, the
  results header and the text the search box shows next.

  Environment variables and the HTTP call are parameters: `apiKey` and
  `region` are what `os.getenv` returns, and `outcome` is what the single
  request issued comes back with.
 */
module Search {
  import opened Wrappers
  import opened Json
  import opened Text
  import opened Cards

  /** The input `ctx.triggered[0]` names; `Initial` is the first call, where no input fired. */
  datatype Trigger = Initial | SearchButton | EnterSubmit | VoiceOutput | HomeButton

  /**
    What the request comes back with: a requests exception (connection
    failure, timeout, an error status from `raise_for_status`, or a body
    `resp.json()` cannot decode), or the decoded body.
   */
  datatype Outcome = RequestError(detail: string) | Delivered(data: Json)

  /** Why the trending path failed: the request, or a body whose shape made the code raise. */
  datatype Cause = RequestCause(detail: string) | PayloadCause

  /** The single informational tile shown instead of video cards. */
  datatype Message =
    | NotConfigured
    | NoTrending
    | TrendingError(cause: Cause)
    | Welcome
    | NoResults
    | ConnectionError(detail: string)
    | UnexpectedError

  function Wording(m: Message): string {
    match m
    case NotConfigured => "YouTube API key is not configured"
    case NoTrending => "No trending videos found."
    case TrendingError(RequestCause(d)) => "Error fetching trending videos: " + d
    case TrendingError(PayloadCause) => "Error fetching trending videos"
    case Welcome => "Search YouTube without the noise"
    case NoResults => "No results found for your search"
    case ConnectionError(d) => "Error connecting to YouTube API: " + d
    case UnexpectedError => "An unexpected error occurred"
  }

  /** The header above the results: "" (none), "Trending", "Trending Videos", "Results for: q", "Results for: q • n videos". */
  datatype Header =
    | NoHeader
    | TrendingTitle
    | TrendingVideos
    | ResultsFor(query: string)
    | ResultsCount(query: string, count: nat)

  datatype Content = Grid(cards: seq<Card>) | Notice(message: Message)

  /** The callback's three outputs. */
  datatype View = View(content: Content, header: Header, visible: string)

  /** The request issued to the provider, with its timeout in seconds. */
  datatype Request = Request(kind: Kind, url: string, timeout: nat)

  /** What the callback does before any network traffic: answer at once, or issue one request. */
  datatype Step = Show(view: View) | Fetch(request: Request, query: string)

  const TrendingEndpoint := "https://www.googleapis.com/youtube/v3/videos"
  const SearchEndpoint := "https://www.googleapis.com/youtube/v3/search"
  const DefaultRegion := "IN"

  function TrendingUrl(region: string, key: string): string {
    TrendingEndpoint + "?part=snippet&chart=mostPopular&maxResults=20&regionCode=" + region + "&key=" + key
  }

  function SearchUrl(query: string, key: string): string {
    SearchEndpoint + "?part=snippet&q=" + Quote(query) + "&type=video&maxResults=20&key=" + key
  }

  /** `not api_key` is false: the key is set and non-empty. */
  predicate Configured(apiKey: Option<string>) {
    apiKey.Some? && apiKey.value != ""
  }

  /** `search_value or ""`. */
  function OrEmpty(s: Option<string>): string {
    if s.Some? then s.value else ""
  }

  /** `x and str(x).strip()` is truthy. */
  predicate HasText(s: Option<string>) {
    s.Some? && Strip(s.value) != ""
  }

  /**
    The query: the stripped voice transcript when it has text, else the
    stripped typed text when it has text, else none. A query is never
    empty and never starts or ends with whitespace.
   */
  function ResolveQuery(voice: Option<string>, typed: Option<string>): (q: Option<string>)
    ensures q.None? <==> !HasText(voice) && !HasText(typed)
    ensures HasText(voice) ==> q == Some(Strip(voice.value))
    ensures !HasText(voice) && HasText(typed) ==> q == Some(Strip(typed.value))
    ensures q.Some? ==> q.value != ""
  {
    if HasText(voice) then Some(Strip(voice.value))
    else if HasText(typed) then Some(Strip(typed.value))
    else None
  }

  /** Dispatch on the trigger and the inputs, up to the request (app.py:359-367, 405-432). */
  function Plan(trigger: Trigger, voice: Option<string>, typed: Option<string>,
                apiKey: Option<string>, region: Option<string>): Step
  {
    if trigger == HomeButton then
      if !Configured(apiKey) then Show(View(Notice(NotConfigured), NoHeader, ""))
      else
        var regionCode := if region.Some? then region.value else DefaultRegion;
        Fetch(Request(Trending, TrendingUrl(regionCode, apiKey.value), 12), "")
    else
      match ResolveQuery(voice, typed)
      case None => Show(View(Notice(Welcome), NoHeader, OrEmpty(typed)))
      case Some(q) =>
        if !Configured(apiKey) then Show(View(Notice(NotConfigured), NoHeader, OrEmpty(typed)))
        else Fetch(Request(Search, SearchUrl(q, apiKey.value), 15), q)
  }

  /** The trending path after the request (app.py:368-403); it always clears the box. */
  function FinishTrending(outcome: Outcome): View {
    match outcome
    case RequestError(d) => View(Notice(TrendingError(RequestCause(d))), NoHeader, "")
    case Delivered(data) =>
      match Get(data, "items", JArr([]))
      case None => View(Notice(TrendingError(PayloadCause)), NoHeader, "")
      case Some(items) =>
        if !Truthy(items) then View(Notice(NoTrending), TrendingTitle, "")
        else
          match CardsFrom(items, Trending)
          case None => View(Notice(TrendingError(PayloadCause)), NoHeader, "")
          case Some(cards) => View(Grid(cards), TrendingVideos, "")
  }

  /**
    The search path after the request (app.py:434-477): results and "no
    results" echo the query, failures keep what the box held.
   */
  function FinishSearch(query: string, typed: Option<string>, outcome: Outcome): View {
    match outcome
    case RequestError(d) => View(Notice(ConnectionError(d)), NoHeader, OrEmpty(typed))
    case Delivered(data) =>
      match Get(data, "items", JArr([]))
      case None => View(Notice(UnexpectedError), NoHeader, OrEmpty(typed))
      case Some(items) =>
        if !Truthy(items) then View(Notice(NoResults), ResultsFor(query), query)
        else
          match CardsFrom(items, Search)
          case None => View(Notice(UnexpectedError), NoHeader, OrEmpty(typed))
          case Some(cards) => View(Grid(cards), ResultsCount(query, |cards|), query)
  }

  /** The callback's outputs for given inputs and provider outcome. */
  function Respond(trigger: Trigger, voice: Option<string>, typed: Option<string>,
                   apiKey: Option<string>, region: Option<string>, outcome: Outcome): View
  {
    match Plan(trigger, voice, typed, apiKey, region)
    case Show(v) => v
    case Fetch(request, q) =>
      if request.kind == Trending then FinishTrending(outcome) else FinishSearch(q, typed, outcome)
  }

  /**
    `handle_search` step by step; `sent` is the request it issues, if any.
   */
  method HandleSearch(trigger: Trigger, voice: Option<string>, typed: Option<string>,
                      apiKey: Option<string>, region: Option<string>, outcome: Outcome)
    returns (view: View, sent: Option<Request>)
    ensures view == Respond(trigger, voice, typed, apiKey, region, outcome)
    ensures sent.Some? <==> Plan(trigger, voice, typed, apiKey, region).Fetch?
    ensures sent.Some? ==> sent.value == Plan(trigger, voice, typed, apiKey, region).request
  {
    if trigger == HomeButton {
      if !Configured(apiKey) {
        return View(Notice(NotConfigured), NoHeader, ""), None;
      }
      var regionCode := if region.Some? then region.value else DefaultRegion;
      sent := Some(Request(Trending, TrendingUrl(regionCode, apiKey.value), 12));
      view := ShowTrending(outcome);
      RespondToHome(voice, typed, apiKey, region, outcome);
      return;
    }

    var query := "";
    if HasText(voice) {
      query := Strip(voice.value);
    } else if HasText(typed) {
      query := Strip(typed.value);
    } else {
      return View(Notice(Welcome), NoHeader, OrEmpty(typed)), None;
    }

    if !Configured(apiKey) {
      return View(Notice(NotConfigured), NoHeader, OrEmpty(typed)), None;
    }
    assert query == ResolveQuery(voice, typed).value;
    sent := Some(Request(Search, SearchUrl(query, apiKey.value), 15));
    view := ShowResults(query, typed, outcome);
    RespondToQuery(trigger, voice, typed, apiKey, region, outcome);
  }

  /** The trending `try` block (app.py:368-403), with its card loop. */
  method ShowTrending(outcome: Outcome) returns (view: View)
    ensures view == FinishTrending(outcome)
  {
    if outcome.RequestError? {
      return View(Notice(TrendingError(RequestCause(outcome.detail))), NoHeader, "");
    }
    var items := Get(outcome.data, "items", JArr([]));
    if items.None? {
      return View(Notice(TrendingError(PayloadCause)), NoHeader, "");
    }
    if !Truthy(items.value) {
      return View(Notice(NoTrending), TrendingTitle, "");
    }
    if !items.value.JArr? {
      return View(Notice(TrendingError(PayloadCause)), NoHeader, "");
    }
    var cols, failed := BuildCards(items.value.elems, Trending);
    if failed {
      return View(Notice(TrendingError(PayloadCause)), NoHeader, "");
    }
    view := View(Grid(cols), TrendingVideos, "");
  }

  /** The search `try` block (app.py:434-477), with its card loop. */
  method ShowResults(query: string, typed: Option<string>, outcome: Outcome) returns (view: View)
    ensures view == FinishSearch(query, typed, outcome)
  {
    if outcome.RequestError? {
      return View(Notice(ConnectionError(outcome.detail)), NoHeader, OrEmpty(typed));
    }
    var items := Get(outcome.data, "items", JArr([]));
    if items.None? {
      return View(Notice(UnexpectedError), NoHeader, OrEmpty(typed));
    }
    if !Truthy(items.value) {
      return View(Notice(NoResults), ResultsFor(query), query);
    }
    if !items.value.JArr? {
      return View(Notice(UnexpectedError), NoHeader, OrEmpty(typed));
    }
    var cols, failed := BuildCards(items.value.elems, Search);
    if failed {
      return View(Notice(UnexpectedError), NoHeader, OrEmpty(typed));
    }
    view := View(Grid(cols), ResultsCount(query, |cols|), query);
  }

  // ---- Properties of the callback ----

  /** Home with a key: the outputs are those of the trending path. */
  lemma RespondToHome(voice: Option<string>, typed: Option<string>,
                      apiKey: Option<string>, region: Option<string>, outcome: Outcome)
    requires Configured(apiKey)
    ensures Respond(HomeButton, voice, typed, apiKey, region, outcome) == FinishTrending(outcome)
  {
  }

  /** With a query and a key, the outputs are those of the search path for that query. */
  lemma RespondToQuery(trigger: Trigger, voice: Option<string>, typed: Option<string>,
                       apiKey: Option<string>, region: Option<string>, outcome: Outcome)
    requires trigger != HomeButton && Configured(apiKey) && ResolveQuery(voice, typed).Some?
    ensures Plan(trigger, voice, typed, apiKey, region)
         == Fetch(Request(Search, SearchUrl(ResolveQuery(voice, typed).value, apiKey.value), 15), ResolveQuery(voice, typed).value)
    ensures Respond(trigger, voice, typed, apiKey, region, outcome)
         == FinishSearch(ResolveQuery(voice, typed).value, typed, outcome)
  {
  }

  /** Home without an API key: one "not configured" tile, no header, and an emptied box. */
  lemma HomeWithoutKey(voice: Option<string>, typed: Option<string>, apiKey: Option<string>,
                       region: Option<string>, outcome: Outcome)
    requires !Configured(apiKey)
    ensures Respond(HomeButton, voice, typed, apiKey, region, outcome) == View(Notice(NotConfigured), NoHeader, "")
    ensures Wording(Respond(HomeButton, voice, typed, apiKey, region, outcome).content.message)
         == "YouTube API key is not configured"
  {
  }

  /**
    Home always clears the search box -- no key, no items, success or any
    failure -- never runs a keyword search, and ignores the voice and typed
    text entirely.
   */
  lemma HomeClearsBox(voice: Option<string>, typed: Option<string>, voice': Option<string>, typed': Option<string>,
                      apiKey: Option<string>, region: Option<string>, outcome: Outcome)
    ensures Respond(HomeButton, voice, typed, apiKey, region, outcome).visible == ""
    ensures Plan(HomeButton, voice, typed, apiKey, region).Fetch? ==>
              Plan(HomeButton, voice, typed, apiKey, region).request.kind == Trending
    ensures Respond(HomeButton, voice, typed, apiKey, region, outcome)
         == Respond(HomeButton, voice', typed', apiKey, region, outcome)
  {
  }

  /** The trending request asks for 20 most-popular videos of the region, "IN" when none is configured. */
  lemma TrendingRequest(voice: Option<string>, typed: Option<string>, apiKey: Option<string>, region: Option<string>)
    requires Configured(apiKey)
    ensures Plan(HomeButton, voice, typed, apiKey, region)
         == Fetch(Request(Trending, TrendingUrl(if region.None? then "IN" else region.value, apiKey.value), 12), "")
  {
  }

  /**
    With no voice text and no typed text (both absent or whitespace), the
    welcome tile is shown without a header, the box keeps what it held,
    and no request is made -- whatever the key and provider would say.
   */
  lemma BlankInputWelcome(trigger: Trigger, voice: Option<string>, typed: Option<string>,
                          apiKey: Option<string>, region: Option<string>, outcome: Outcome)
    requires trigger != HomeButton
    requires voice.None? || IsBlank(voice.value)
    requires typed.None? || IsBlank(typed.value)
    ensures Plan(trigger, voice, typed, apiKey, region).Show?
    ensures Respond(trigger, voice, typed, apiKey, region, outcome) == View(Notice(Welcome), NoHeader, OrEmpty(typed))
  {
    if voice.Some? { StripEmptyIffBlank(voice.value); }
    if typed.Some? { StripEmptyIffBlank(typed.value); }
  }

  /**
    With a key configured, voice text, once stripped, wins over typed text: the
    search is made for the stripped transcript, quoted into the URL, with a 15
    second timeout.
   */
  lemma VoiceWins(trigger: Trigger, voice: Option<string>, typed: Option<string>,
                  apiKey: Option<string>, region: Option<string>)
    requires trigger != HomeButton && Configured(apiKey)
    requires voice.Some? && !IsBlank(voice.value)
    ensures Plan(trigger, voice, typed, apiKey, region)
         == Fetch(Request(Search, SearchUrl(Strip(voice.value), apiKey.value), 15), Strip(voice.value))
  {
    StripEmptyIffBlank(voice.value);
  }

  /**
    A search whose provider returns a non-empty list of items shows one
    card per item in the order received, a header counting exactly that
    many videos, and echoes the resolved query in the box.
   */
  lemma SearchKeepsOrderAndCount(trigger: Trigger, voice: Option<string>, typed: Option<string>,
                                 apiKey: Option<string>, region: Option<string>,
                                 fields: map<string, Json>, items: seq<Json>)
    requires trigger != HomeButton && Configured(apiKey) && ResolveQuery(voice, typed).Some?
    requires "items" in fields && fields["items"] == JArr(items) && items != []
    requires forall k :: 0 <= k < |items| ==> Renderable(items[k], Search)
    ensures var v := Respond(trigger, voice, typed, apiKey, region, Delivered(JObj(fields)));
      && v.content.Grid?
      && |v.content.cards| == |items|
      && (forall k :: 0 <= k < |items| ==> CardOf(items[k], Search) == Some(v.content.cards[k]))
      && v.header == ResultsCount(ResolveQuery(voice, typed).value, |items|)
      && v.visible == ResolveQuery(voice, typed).value
  {
    RespondToQuery(trigger, voice, typed, apiKey, region, Delivered(JObj(fields)));
    AllRenderable(items, Search);
    ResultsGrid(Search, ResolveQuery(voice, typed).value, typed, fields, items);
  }

  lemma AllRenderable(items: seq<Json>, kind: Kind)
    requires forall k :: 0 <= k < |items| ==> Renderable(items[k], kind)
    ensures MapItems(items, kind).Some?
  {
    forall k | 0 <= k < |items| ensures CardOf(items[k], kind).Some? {
      CardOfDefinedIff(items[k], kind);
    }
  }

  /** A payload whose "items" list is non-empty and fully readable gives the grid of its cards. */
  lemma ResultsGrid(kind: Kind, query: string, typed: Option<string>, fields: map<string, Json>, items: seq<Json>)
    requires "items" in fields && fields["items"] == JArr(items) && items != []
    requires MapItems(items, kind).Some?
    ensures kind == Search ==>
      FinishSearch(query, typed, Delivered(JObj(fields))) == View(Grid(MapItems(items, kind).value), ResultsCount(query, |items|), query)
    ensures kind == Trending ==>
      FinishTrending(Delivered(JObj(fields))) == View(Grid(MapItems(items, kind).value), TrendingVideos, "")
  {
  }

  /**
    The trending path likewise shows, for a non-empty list of readable items,
    one card per item in order, under "Trending Videos", and clears the box.
   */
  lemma TrendingKeepsOrderAndCount(voice: Option<string>, typed: Option<string>,
                                   apiKey: Option<string>, region: Option<string>,
                                   fields: map<string, Json>, items: seq<Json>)
    requires Configured(apiKey)
    requires "items" in fields && fields["items"] == JArr(items) && items != []
    requires forall k :: 0 <= k < |items| ==> Renderable(items[k], Trending)
    ensures var v := Respond(HomeButton, voice, typed, apiKey, region, Delivered(JObj(fields)));
      && v.content.Grid?
      && |v.content.cards| == |items|
      && (forall k :: 0 <= k < |items| ==> CardOf(items[k], Trending) == Some(v.content.cards[k]))
      && v.header == TrendingVideos
      && v.visible == ""
  {
    RespondToHome(voice, typed, apiKey, region, Delivered(JObj(fields)));
    AllRenderable(items, Trending);
    ResultsGrid(Trending, "", typed, fields, items);
  }

  /**
    A search whose payload has no "items", or falsy ones, shows the single
    "no results" tile and echoes the resolved query, not the raw box text.
   */
  lemma EmptyResultsEchoQuery(trigger: Trigger, voice: Option<string>, typed: Option<string>,
                              apiKey: Option<string>, region: Option<string>, fields: map<string, Json>)
    requires trigger != HomeButton && Configured(apiKey) && ResolveQuery(voice, typed).Some?
    requires "items" !in fields || !Truthy(fields["items"])
    ensures var q := ResolveQuery(voice, typed).value;
      var v := Respond(trigger, voice, typed, apiKey, region, Delivered(JObj(fields)));
      v == View(Notice(NoResults), ResultsFor(q), q) && Wording(v.content.message) == "No results found for your search"
  {
    RespondToQuery(trigger, voice, typed, apiKey, region, Delivered(JObj(fields)));
    NoResultsView(ResolveQuery(voice, typed).value, typed, fields);
  }

  lemma NoResultsView(query: string, typed: Option<string>, fields: map<string, Json>)
    requires "items" !in fields || !Truthy(fields["items"])
    ensures FinishSearch(query, typed, Delivered(JObj(fields))) == View(Notice(NoResults), ResultsFor(query), query)
  {
  }

  /**
    On the search path a missing key, a failed request, a payload that is
    not a dict, or items the card loop cannot read (a truthy non-list, or an
    item whose `.get` raises) shows one tile without a header, and the box keeps
    `search_value or ""` rather than the resolved query.
   */
  lemma SearchFailureKeepsBox(trigger: Trigger, voice: Option<string>, typed: Option<string>,
                              apiKey: Option<string>, region: Option<string>, outcome: Outcome)
    requires trigger != HomeButton && ResolveQuery(voice, typed).Some?
    requires || !Configured(apiKey)
             || outcome.RequestError?
             || (outcome.Delivered? && Get(outcome.data, "items", JArr([])).None?)
             || (outcome.Delivered? && Get(outcome.data, "items", JArr([])).Some?
                 && Truthy(Get(outcome.data, "items", JArr([])).value)
                 && CardsFrom(Get(outcome.data, "items", JArr([])).value, Search).None?)
    ensures var v := Respond(trigger, voice, typed, apiKey, region, outcome);
      v.content.Notice? && v.header == NoHeader && v.visible == OrEmpty(typed)
    ensures Configured(apiKey) && outcome.RequestError? ==>
      Respond(trigger, voice, typed, apiKey, region, outcome).content == Notice(ConnectionError(outcome.detail))
  {
    if Configured(apiKey) {
      RespondToQuery(trigger, voice, typed, apiKey, region, outcome);
    }
  }

  /**
    Across every input: a grid is never empty and comes with a header
    that names it; a tile without a header always leaves the box as the
    path requires -- cleared on home, unchanged otherwise.
   */
  lemma ViewShape(trigger: Trigger, voice: Option<string>, typed: Option<string>,
                  apiKey: Option<string>, region: Option<string>, outcome: Outcome)
    ensures var v := Respond(trigger, voice, typed, apiKey, region, outcome);
      && (v.content.Grid? ==> |v.content.cards| > 0 && v.header != NoHeader)
      && (v.header.ResultsCount? ==> v.content.Grid? && v.header.count == |v.content.cards|)
      && (v.header == NoHeader ==> v.content.Notice? && v.visible == (if trigger == HomeButton then "" else OrEmpty(typed)))
  {
    if trigger == HomeButton {
      if Configured(apiKey) {
        RespondToHome(voice, typed, apiKey, region, outcome);
        FinishShape(Trending, "", typed, outcome);
      }
    } else if ResolveQuery(voice, typed).Some? && Configured(apiKey) {
      RespondToQuery(trigger, voice, typed, apiKey, region, outcome);
      FinishShape(Search, ResolveQuery(voice, typed).value, typed, outcome);
    }
  }

  lemma FinishShape(kind: Kind, query: string, typed: Option<string>, outcome: Outcome)
    ensures var v := if kind == Trending then FinishTrending(outcome) else FinishSearch(query, typed, outcome);
      && (v.content.Grid? ==> |v.content.cards| > 0 && v.header != NoHeader)
      && (v.header.ResultsCount? ==> v.content.Grid? && v.header.count == |v.content.cards|)
      && (v.header == NoHeader ==> v.content.Notice? && v.visible == (if kind == Trending then "" else OrEmpty(typed)))
  {
  }
}
