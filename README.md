# YouTube Focus: search routing and preference store, in Dafny

A model of the two pieces of the "YouTube Focus" Dash application that hold
real logic.

- **Search callback** (`handle_search` in app.py). The callback reacts to
  the home button, the search button, Enter in the search box, or a voice
  transcript. It decides whether to fetch trending videos or run a keyword
  search against the YouTube Data API. It then turns each result item into a
  video card (badge, thumbnail, title, channel, description, watch link). It
  returns three things: the page content, the results header, and the text
  the search box should now show.
- **Sign-in decision** (`update_auth_section` in app.py). The header shows
  the email and a sign-out button, or the Google sign-in button.
- **Preference store** (db_operations.py over the `users` table). There is
  one row per user id: dark-mode flag, search history as one `|`-joined
  text, and creation time. There is a lookup and a read-then-insert-or-update.

Modules, one per file:

- `Wrappers`: Option.
- `Json`: decoded JSON values, with Python truthiness, `dict.get` and `str()`.
- `Text`: `str.strip()` and `urllib.parse.quote`.
- `Cards`: the two card loops.
- `Search`: the callback.
- `Auth`: the sign-in decision.
- `History`: the `|` codec.
- `Preferences`: the table as a class `PreferenceStore` whose field
  `users: map<string, Row>` the methods reassign.

The model calls nothing outside itself:

- The API key and region are the values `os.getenv` returns. They are
  parameters.
- The HTTP request's result is a parameter `Outcome`: a requests exception
  with its text, or the decoded body. A failing `raise_for_status` and a
  body `resp.json()` cannot decode both count as the exception.
- The result of `json.loads` in the sign-in decision is a parameter.
- `datetime.now()` is a parameter.
- `Search.HandleSearch` also returns the request it would issue: URL and
  timeout.

The model follows the code where the code and the design it aims at
disagree:

- The search history is not bounded to ten entries.
- An update of a known user with no query fails instead of rewriting the
  unchanged values.

Both are logged under Findings, each with a corrected definition.

## Model

| member | source | states |
|---|---|---|
| `Text.Strip` | app.py:406-409 | the result is the part of the input between its leading and trailing whitespace (Python's whitespace set) and neither starts nor ends with whitespace |
| `Text.StripEmptyIffBlank` | app.py:406-410 | stripping leaves nothing exactly when the text is all whitespace |
| `Text.StripIdempotent` | app.py:407-409 | a stripped query is unchanged by a second strip |
| `Text.Quote` | app.py:431 | the quoted query holds only unreserved characters, `/` and `%`, so it cannot end the `q` parameter; it is never shorter than the input |
| `Text.QuoteKeepsSafeText` | app.py:431 | text made only of safe characters is passed through unchanged |
| `Cards.CardOf` | app.py:377-394 | a card carries the path's badge ("Trending"/"Video") and button label, and its link is exactly `https://www.youtube.com/watch?v=` followed by the id's text |
| `Cards.CardOfDefinedIff` | app.py:445-451 | reading an item raises exactly when it is not renderable: not a dict, a non-dict snippet or search id, truthy non-dict thumbnails, or a non-dict medium |
| `Cards.MissingFieldsDefault` | app.py:447-451 | missing title, channel, description and medium thumbnail url become "Untitled", "Unknown", "" and ""; present ones, the thumbnail url included, are shown unchanged |
| `Cards.WatchUrlOfMissingId` | app.py:378 | with no id, or on the search path an id dict without "videoId", the search link ends `v=` and the trending link `v=None` |
| `Cards.MapItems` | app.py:444-467 | one card per item, in received order and with the same count; it fails exactly when some item cannot be read |
| `Cards.CardsFrom` | app.py:445 | only a list of items yields cards, and then exactly the mapped list |
| `Cards.BuildCards` | app.py:376-398 | the card loop appends the cards of the items in order and stops at the first item that raises; its result agrees with `MapItems` |
| `Search.ResolveQuery` | app.py:405-422 | the stripped voice text wins when it has text, otherwise the stripped typed text; there is no query exactly when both are absent or blank; a query is never empty |
| `Search.HandleSearch` | app.py:355-477 | the callback's three outputs are those of `Respond`, and it issues a request exactly when `Plan` says so, the request `Plan` names |
| `Search.ShowTrending` | app.py:368-403 | the trending `try` block gives the view `FinishTrending` describes |
| `Search.ShowResults` | app.py:434-477 | the search `try` block gives the view `FinishSearch` describes |
| `Search.RespondToHome` | app.py:359-368 | home with a key leads to the trending path's outcome handling |
| `Search.RespondToQuery` | app.py:424-435 | with a query and a key, the search request is made for that query (quoted, 15 s timeout) and the outputs are the search path's |
| `Search.HomeWithoutKey` | app.py:359-363 | home without a key: one tile reading "YouTube API key is not configured", no header, empty box |
| `Search.HomeClearsBox` | app.py:359-403 | every outcome of home empties the box, never runs a keyword search, and does not depend on voice or typed text |
| `Search.TrendingRequest` | app.py:365-369 | the trending request uses the configured region or "IN", asks for 20 most popular videos, with a 12 s timeout |
| `Search.BlankInputWelcome` | app.py:405-422 | with voice and typed text both absent or blank: the welcome tile, no header, box text `search_value or ""`, no request |
| `Search.VoiceWins` | app.py:406-407 | with a key, non-blank voice text is searched for, stripped, even when text is typed |
| `Search.SearchKeepsOrderAndCount` | app.py:444-470 | a non-empty readable result list gives one card per item in order, a header "N videos" with N the item count, and the query echoed in the box |
| `Search.TrendingKeepsOrderAndCount` | app.py:376-400 | a non-empty list of readable trending items gives one card per item in order under "Trending Videos", and the box is emptied |
| `Search.ResultsGrid` | app.py:444-470 | a payload with a non-empty readable items list shows the grid of exactly the mapped cards |
| `Search.AllRenderable` | app.py:444-467 | when every item is renderable the card mapping succeeds |
| `Search.EmptyResultsEchoQuery` | app.py:437-442 | missing or falsy items give one tile reading "No results found for your search", a "Results for" header, and the resolved query in the box |
| `Search.NoResultsView` | app.py:438-442 | after the request, missing or falsy items give the no-results view for the query |
| `Search.SearchFailureKeepsBox` | app.py:424-477 | a missing key, a failed request, a payload that is not a dict, or items the card loop cannot read (truthy non-list, or an item whose `.get` raises) gives one tile, no header, and `search_value or ""` in the box; a failed request shows its text |
| `Search.ViewShape` | app.py:359-477 | for all inputs: a grid is never empty and has a header; a result count equals the number of cards; a headerless view is a tile and the box is emptied on home or unchanged otherwise |
| `Search.FinishShape` | app.py:368-477 | the same shape facts for each path after its request |
| `Auth.UpdateAuthSection` | app.py:328-342 | signed in exactly when the non-empty raw text parses to a dict with a truthy "email", which the badge shows |
| `Auth.NoUserSignInButton` | app.py:329-332 | The section is the sign-in button whenever the raw text is missing or empty or does not parse. |
| `History.Split` | db_operations.py:16 | splitting yields at least one piece, none holding `|` |
| `History.JoinSplit` | db_operations.py:16 | joining the pieces of a split gives the text back |
| `History.SplitJoin` | db_operations.py:32 | splitting a join of `|`-free pieces gives the pieces back |
| `History.EncodeDecode` | db_operations.py:16 | writing back a decoded history reproduces the stored text exactly |
| `History.DecodeEncode` | db_operations.py:32 | a `|`-free history other than `[""]` reads back as written; [] and "" correspond |
| `History.AppendText` | db_operations.py:32 | appending to the decoded history and joining adds `|` and the entry to the text (or gives the entry alone when the text was empty) |
| `History.AppendEntry` | db_operations.py:32 | a non-empty `|`-free entry appended that way reads back as exactly one more entry at the end |
| `Preferences.Lookup` | db_operations.py:5-19 | unknown user gives None; otherwise that user's flag, creation time, and history entries that hold no `|` and join back to the stored text (so they are its `|`-split), empty exactly when the text is empty |
| `Preferences.Upsert` | db_operations.py:22-45 | the call fails exactly for a known user without a query; otherwise the table gains the user's key, keeps every other row, and keeps a known user's creation time |
| `Preferences.PreferenceStore.constructor` | app.py:48-57 | a fresh database has an empty table |
| `Preferences.PreferenceStore.GetUserPreferences` | db_operations.py:5-19 | the lookup reads the table as `Lookup` says |
| `Preferences.PreferenceStore.ExecuteUpdate` | db_operations.py:36-40 | the UPDATE refuses a list parameter and otherwise rewrites only dark mode and history of the matching row |
| `Preferences.PreferenceStore.ExecuteInsert` | db_operations.py:42-45 | the INSERT adds one row, refused when the key exists |
| `Preferences.PreferenceStore.UpdateUserPreferences` | db_operations.py:22-48 | the table ends as `Upsert` says, and is unchanged when the call raises |
| `Preferences.InsertNewUser` | db_operations.py:41-45 | an unknown user gets exactly one new row: flag `dark_mode or False`, history `search_query or ''`, created now |
| `Preferences.GetAfterInsert` | db_operations.py:41-45 | reading back a new user with a `|`-free query gives the supplied flag (false if none), history [query] or [], and the creation time |
| `Preferences.DarkModeKeptUnlessSupplied` | db_operations.py:29 | a known user's flag is replaced only when a value is supplied |
| `Preferences.HistoryAppends` | db_operations.py:31-32 | a known user's text gains `|` and the query; a `|`-free query reads back as the old entries plus one, at the end |
| `Preferences.UpdateTouchesOnlyOneRow` | db_operations.py:36-40 | an update keeps the key set, the creation time and every other user's row |
| `Preferences.NoQueryUpdateRejected` | db_operations.py:33-40 | a known user updated without a query: the call fails and nothing is written |
| `Preferences.HistoryNotBounded` | db_operations.py:32 | a history of ten or more entries grows past ten |
| `Preferences.IntendedHistory` | db_operations.py:32 | the corrected history is the last ten entries (fewer only when fewer exist), ending with the new query |
| `Preferences.IntendedUpsert` | db_operations.py:26-40 | the corrected update never fails, keeps other rows and the creation time, applies the flag rule, and leaves the history as stored when there is no query |
| `Preferences.IntendedHistoryBounded` | db_operations.py:32 | under the corrected update the history reads back as exactly the ten most recent entries, the old ones followed by the query, so at most ten and ending with the query |
| `Preferences.IntendedHistoryReadsBack` | db_operations.py:32 | the corrected history survives the `|` round trip |
| `Preferences.DarkModeOnlyChangeLost` | db_operations.py:33-40 | a dark-mode-only change of a known user is lost as written and saved by the corrected update |

## Left out

- Page layout (`navbar`, `hero_section`, `main_content`, `footer`, `app.layout`), CSS classes and styles: markup with no behaviour.
- The embedded JavaScript: Firebase sign-in and sign-out, Web Speech capture, DOM observers. This is browser code.
- Firebase Admin initialisation, `load_dotenv` and `os.getenv`: process setup. The API key and region are parameters.
- `requests.get`, `raise_for_status` and `resp.json()`: network I/O. Their result is the `Outcome` parameter.
- `json.loads` in the sign-in decision: a library call. Its result is a parameter, None when it raises.
- Dash's `callback_context`: the input that fired is one `Trigger` value, because the code reads only `ctx.triggered[0]`.
- The SQLite connection, commit and close, the `CREATE TABLE` DDL and `datetime.now()`. The table is a map and the time a parameter. The connection left open when a statement raises is not modelled.
- Concurrent callers of the store (a lost update is possible). The model is sequential.
- `Json.PyStr`: a list or dict used as a video id is rendered as a fixed placeholder. Python would render its `repr`, which needs Unicode printability tables.
- `Json.Json`: JSON floats are not modelled. Numbers are integers.
- `Search.Wording`: the text of a Python exception (AttributeError, TypeError) is not modelled. A payload that makes the code raise carries no detail.
- `Search.HandleSearch`: voice output and search box values other than strings or None are not modelled.
- `Preferences.Upsert`: `dark_mode` values other than True, False and None are not modelled.

## Findings

| source | as written | input that shows it | evidently intended | confidence | as-written member | corrected member |
|---|---|---|---|---|---|---|
| db_operations.py:32 | `[search_query][-10:]` slices the one-element list, so the joined history grows without bound | a user whose stored history holds 10 entries, updated with query "x": 11 entries | keep the 10 most recent queries, `(history + [query])[-10:]` | high; not executed | `Preferences.HistoryNotBounded` | `Preferences.IntendedHistoryBounded` |
| db_operations.py:33-40 | with no query, the history parameter is the unjoined Python list, which sqlite3 refuses to bind, so the call raises | user "u" exists, `update_user_preferences("u", dark_mode=True)`: the flag is not saved | save the flag and keep the stored history text | high; not executed | `Preferences.NoQueryUpdateRejected` | `Preferences.IntendedUpsert` |
