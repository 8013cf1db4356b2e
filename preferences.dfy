/**
  The per-user preference store of db_operations.py over the `users` table
  (app.py:51-55): one row per user id holding the dark-mode flag, the
  search history as one `|`-joined text, and the creation time.

  The table is a map from user id to row; the connection, commit and close
  are not modelled, and `datetime.now()` is the parameter `now`, the text
  sqlite3 stores for it.
 */
module Preferences {
  import opened Wrappers
  import History

  /** A row of `users`, keyed by its user id. */
  datatype Row = Row(darkMode: bool, history: string, createdAt: string)

  /** The dict `get_user_preferences` returns. */
  datatype UserPreferences = UserPreferences(userId: string, darkMode: bool, searchHistory: seq<string>, createdAt: string)

  /** A value bound to a `?` of a statement: sqlite3 binds text, but refuses a Python list. */
  datatype Param = TextParam(text: string) | ListParam(entries: seq<string>)

  /** How a write ends: committed, refused while binding a parameter, or refused by the primary key. */
  datatype WriteResult = Committed | BindingRejected | KeyConflict

  /** `if search_query:` -- present and non-empty. */
  predicate HasQuery(query: Option<string>) {
    query.Some? && query.value != ""
  }

  /**
    `get_user_preferences` (db_operations.py:5-19): None for an unknown user;
    otherwise the row, with the history text decoded into entries that
    encode back to exactly the stored text.
   */
  function Lookup(users: map<string, Row>, userId: string): (p: Option<UserPreferences>)
    ensures p.None? <==> userId !in users
    ensures p.Some? ==>
      && p.value.userId == userId
      && p.value.darkMode == users[userId].darkMode
      && p.value.createdAt == users[userId].createdAt
      && History.Encode(p.value.searchHistory) == users[userId].history
      && History.Storable(p.value.searchHistory)
      && (users[userId].history == "" <==> p.value.searchHistory == [])
  {
    if userId in users then
      var row := users[userId];
      History.EncodeDecode(row.history);
      Some(UserPreferences(userId, row.darkMode, History.Decode(row.history), row.createdAt))
    else None
  }

  /**
    The table after `update_user_preferences` (db_operations.py:22-45), None
    when the call raises. An unknown user gets one new row; a known user gets
    its dark mode and history rewritten, unless no query is given, in which
    case the history parameter is a list and the statement is refused.
    No other row, and no user's creation time, ever changes.
   */
  function Upsert(users: map<string, Row>, userId: string, darkMode: Option<bool>,
                  query: Option<string>, now: string): (r: Option<map<string, Row>>)
    ensures r.None? <==> userId in users && !HasQuery(query)
    ensures r.Some? ==> r.value.Keys == users.Keys + {userId}
    ensures r.Some? ==> forall u :: u in users && u != userId ==> r.value[u] == users[u]
    ensures r.Some? && userId in users ==> r.value[userId].createdAt == users[userId].createdAt
  {
    if userId in users then
      var row := users[userId];
      if HasQuery(query) then
        var newDarkMode := if darkMode.Some? then darkMode.value else row.darkMode;
        var history := History.Encode(History.Decode(row.history) + [query.value]);
        Some(users[userId := row.(darkMode := newDarkMode, history := history)])
      else None
    else
      Some(users[userId := Row(darkMode == Some(true), if query.Some? then query.value else "", now)])
  }

  class PreferenceStore {
    var users: map<string, Row>

    /** `init_db` (app.py:48-57) on a fresh database: the empty table. */
    constructor ()
      ensures users == map[]
    {
      users := map[];
    }

    /** `get_user_preferences`: reads the table and changes nothing. */
    method GetUserPreferences(userId: string) returns (p: Option<UserPreferences>)
      ensures p == Lookup(users, userId)
    {
      if userId in users {
        var row := users[userId];
        p := Some(UserPreferences(userId, row.darkMode, History.Decode(row.history), row.createdAt));
      } else {
        p := None;
      }
    }

    /** `UPDATE users SET dark_mode=?, search_history=? WHERE user_id=?`. */
    method ExecuteUpdate(userId: string, darkMode: bool, history: Param) returns (result: WriteResult)
      modifies this
      ensures result == (if history.TextParam? then Committed else BindingRejected)
      ensures users == if history.TextParam? && userId in old(users)
                       then old(users)[userId := old(users)[userId].(darkMode := darkMode, history := history.text)]
                       else old(users)
    {
      if history.ListParam? {
        return BindingRejected;
      }
      if userId in users {
        users := users[userId := users[userId].(darkMode := darkMode, history := history.text)];
      }
      result := Committed;
    }

    /** `INSERT INTO users (user_id, dark_mode, search_history, created_at) VALUES (?, ?, ?, ?)`. */
    method ExecuteInsert(userId: string, darkMode: bool, history: string, createdAt: string) returns (result: WriteResult)
      modifies this
      ensures result == (if userId in old(users) then KeyConflict else Committed)
      ensures users == if userId in old(users) then old(users)
                       else old(users)[userId := Row(darkMode, history, createdAt)]
    {
      if userId in users {
        return KeyConflict;
      }
      users := users[userId := Row(darkMode, history, createdAt)];
      result := Committed;
    }

    /**
      `update_user_preferences`: read the row, then update it or insert one.
      The table ends as `Upsert` says, and is left untouched when the call raises.
     */
    method UpdateUserPreferences(userId: string, darkMode: Option<bool>, query: Option<string>, now: string)
      returns (result: WriteResult)
      modifies this
      ensures result == Committed <==> Upsert(old(users), userId, darkMode, query, now).Some?
      ensures result != Committed ==> result == BindingRejected && users == old(users)
      ensures result == Committed ==> users == Upsert(old(users), userId, darkMode, query, now).value
    {
      var user := GetUserPreferences(userId);
      if user.Some? {
        var newDarkMode := if darkMode.Some? then darkMode.value else user.value.darkMode;
        var history: Param;
        if HasQuery(query) {
          history := TextParam(History.Encode(user.value.searchHistory + [query.value]));
        } else {
          history := ListParam(user.value.searchHistory);
        }
        result := ExecuteUpdate(userId, newDarkMode, history);
      } else {
        result := ExecuteInsert(userId, darkMode == Some(true), if query.Some? then query.value else "", now);
      }
    }
  }

  // ---- Properties of the store as written ----

  /**
    An unknown user gets exactly one new row: dark mode `dark_mode or
    False`, history `search_query or ''`, created now.
   */
  lemma InsertNewUser(users: map<string, Row>, userId: string, darkMode: Option<bool>, query: Option<string>, now: string)
    requires userId !in users
    ensures Upsert(users, userId, darkMode, query, now)
         == Some(users[userId := Row(darkMode == Some(true), if HasQuery(query) then query.value else "", now)])
    ensures |Upsert(users, userId, darkMode, query, now).value| == |users| + 1
  {
    assert Upsert(users, userId, darkMode, query, now).value.Keys == users.Keys + {userId};
  }

  /**
    Reading back a new user's row gives the supplied dark mode (false when
    none), a history of just the query (empty when none) and the creation time,
    provided the query holds no `|` (one that does reads back as its pieces).
   */
  lemma GetAfterInsert(users: map<string, Row>, userId: string, darkMode: Option<bool>, query: Option<string>, now: string)
    requires userId !in users
    requires query.Some? ==> History.Sep !in query.value
    ensures Lookup(Upsert(users, userId, darkMode, query, now).value, userId)
         == Some(UserPreferences(userId, darkMode == Some(true), if HasQuery(query) then [query.value] else [], now))
  {
    if HasQuery(query) {
      History.SplitPlain(query.value);
    }
  }

  /** For a known user, the dark mode is replaced only when a value is supplied, otherwise kept. */
  lemma DarkModeKeptUnlessSupplied(users: map<string, Row>, userId: string, darkMode: Option<bool>, query: Option<string>, now: string)
    requires userId in users && HasQuery(query)
    ensures Upsert(users, userId, darkMode, query, now).value[userId].darkMode
         == if darkMode.Some? then darkMode.value else users[userId].darkMode
  {
  }

  /**
    For a known user with a query, the stored text gains `|` and the query
    (or becomes the query when it was empty); with no `|` in the query the
    history reads back as the old entries followed by the query -- one entry
    more, with no bound on the length.
   */
  lemma HistoryAppends(users: map<string, Row>, userId: string, darkMode: Option<bool>, query: Option<string>, now: string)
    requires userId in users && HasQuery(query)
    ensures var old_ := users[userId].history;
      Upsert(users, userId, darkMode, query, now).value[userId].history
        == if old_ == "" then query.value else old_ + [History.Sep] + query.value
    ensures History.Sep !in query.value ==>
      && History.Decode(Upsert(users, userId, darkMode, query, now).value[userId].history)
           == History.Decode(users[userId].history) + [query.value]
      && |History.Decode(Upsert(users, userId, darkMode, query, now).value[userId].history)|
           == |History.Decode(users[userId].history)| + 1
  {
    History.AppendText(users[userId].history, query.value);
    if History.Sep !in query.value {
      History.AppendEntry(users[userId].history, query.value);
    }
  }

  /** An update of a known user rewrites only that user's dark mode and history. */
  lemma UpdateTouchesOnlyOneRow(users: map<string, Row>, userId: string, darkMode: Option<bool>, query: Option<string>, now: string)
    requires userId in users && HasQuery(query)
    ensures var r := Upsert(users, userId, darkMode, query, now).value;
      && r.Keys == users.Keys
      && r[userId].createdAt == users[userId].createdAt
      && (forall u :: u in users && u != userId ==> r[u] == users[u])
  {
  }

  /**
    For a known user with no query, the unjoined list is bound as the history
    parameter: the call raises and nothing is written, even a supplied dark mode.
   */
  lemma NoQueryUpdateRejected(users: map<string, Row>, userId: string, darkMode: Option<bool>, query: Option<string>, now: string)
    requires userId in users && !HasQuery(query)
    ensures Upsert(users, userId, darkMode, query, now).None?
  {
  }

  /**
    The history is not bounded to ten entries: a user whose history already
    holds ten or more entries holds one more after the next query.
   */
  lemma HistoryNotBounded(users: map<string, Row>, userId: string, query: string, now: string)
    requires userId in users && |History.Decode(users[userId].history)| >= 10
    requires query != "" && History.Sep !in query
    ensures |History.Decode(Upsert(users, userId, None, Some(query), now).value[userId].history)| > 10
  {
    HistoryAppends(users, userId, None, Some(query), now);
  }

  // ---- The behaviour the code evidently intends ----

  const HistoryLimit := 10

  /** `(entries + [query])[-10:]`: the ten most recent queries, oldest dropped first. */
  function IntendedHistory(entries: seq<string>, query: string): (r: seq<string>)
    ensures |r| == if |entries| + 1 <= HistoryLimit then |entries| + 1 else HistoryLimit
    ensures r == (entries + [query])[|entries| + 1 - |r|..]
    ensures r[|r| - 1] == query
  {
    var all := entries + [query];
    if |all| <= HistoryLimit then all else all[|all| - HistoryLimit..]
  }

  /**
    The update as evidently intended: it never raises; the history keeps the
    ten most recent queries, and without a query it is left as stored while
    a supplied dark mode is still saved.
   */
  function IntendedUpsert(users: map<string, Row>, userId: string, darkMode: Option<bool>,
                          query: Option<string>, now: string): (r: map<string, Row>)
    ensures r.Keys == users.Keys + {userId}
    ensures forall u :: u in users && u != userId ==> r[u] == users[u]
    ensures userId in users ==>
      && r[userId].createdAt == users[userId].createdAt
      && r[userId].darkMode == (if darkMode.Some? then darkMode.value else users[userId].darkMode)
      && (!HasQuery(query) ==> r[userId].history == users[userId].history)
  {
    if userId in users then
      var row := users[userId];
      var newDarkMode := if darkMode.Some? then darkMode.value else row.darkMode;
      var history := if HasQuery(query)
                     then History.Encode(IntendedHistory(History.Decode(row.history), query.value))
                     else row.history;
      users[userId := row.(darkMode := newDarkMode, history := history)]
    else
      users[userId := Row(darkMode == Some(true), if HasQuery(query) then query.value else "", now)]
  }

  /**
    Under the intended update a history reads back as exactly the ten most
    recent entries (the earlier ones followed by the query), so it never
    holds more than ten and ends with the last query.
   */
  lemma IntendedHistoryBounded(users: map<string, Row>, userId: string, darkMode: Option<bool>, query: string, now: string)
    requires userId in users && query != "" && History.Sep !in query
    ensures var h := History.Decode(IntendedUpsert(users, userId, darkMode, Some(query), now)[userId].history);
      && h == IntendedHistory(History.Decode(users[userId].history), query)
      && |h| <= HistoryLimit && h[|h| - 1] == query
  {
    var row := users[userId];
    var entries := History.Decode(row.history);
    assert History.Storable(entries) by {
      if row.history != "" {
        assert entries == History.Split(row.history);
      }
    }
    IntendedHistoryReadsBack(entries, query);
    assert IntendedUpsert(users, userId, darkMode, Some(query), now)[userId].history
        == History.Encode(IntendedHistory(entries, query));
  }

  lemma IntendedHistoryReadsBack(entries: seq<string>, query: string)
    requires History.Storable(entries) && query != "" && History.Sep !in query
    ensures History.Decode(History.Encode(IntendedHistory(entries, query))) == IntendedHistory(entries, query)
  {
    var all := entries + [query];
    var kept := IntendedHistory(entries, query);
    forall k | 0 <= k < |kept| ensures History.Sep !in kept[k] {
      assert kept[k] == all[|all| - |kept| + k];
    }
    History.DecodeEncode(kept);
  }

  /** A dark-mode-only change of a known user: the code saves nothing, the intended update saves it. */
  lemma DarkModeOnlyChangeLost()
    ensures var users := map["u" := Row(false, "", "2024-01-01 00:00:00")];
      && Upsert(users, "u", Some(true), None, "2024-01-02 00:00:00").None?
      && IntendedUpsert(users, "u", Some(true), None, "2024-01-02 00:00:00")["u"].darkMode
  {
  }
}
