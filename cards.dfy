/**
  Turning the provider's result items into video cards, as the two card
  loops of `handle_search` do: the trending loop (app.py:376-398) and the
  search loop (app.py:444-467). A card keeps the values the code reads out
  of the item as they are; every `.get` on something that is not a dict
  raises in Python, and the whole result then becomes an error message.
 */
module Cards {
  import opened Wrappers
  import opened Json

  /** Which loop builds the card: the trending one or the keyword-search one. */
  datatype Kind = Trending | Search

  const WatchPrefix := "https://www.youtube.com/watch?v="

  function BadgeText(kind: Kind): string {
    match kind
    case Trending => "Trending"
    case Search => "Video"
  }

  function WatchLabel(kind: Kind): string {
    match kind
    case Trending => "Watch"
    case Search => "Watch Video"
  }

  datatype Card = Card(
    badge: string,
    thumbnail: Json,
    title: Json,
    channel: Json,
    description: Json,
    watchUrl: string,
    watchLabel: string)

  /**
    The video id: `item.get("id")` on the trending path, which is `None`
    when absent, and `item.get("id", {}).get("videoId", "")` on the search
    path.
   */
  function VideoId(item: Json, kind: Kind): Option<Json> {
    match kind
    case Trending => Get(item, "id", JNull)
    case Search =>
      var id :- Get(item, "id", EmptyObject);
      Get(id, "videoId", JStr(""))
  }

  /** `(snip.get("thumbnails", {}) or {}).get("medium", {}).get("url", "")`. */
  function Thumbnail(snippet: Json): Option<Json> {
    var thumbnails :- Get(snippet, "thumbnails", EmptyObject);
    var medium :- Get(if Truthy(thumbnails) then thumbnails else EmptyObject, "medium", EmptyObject);
    Get(medium, "url", JStr(""))
  }

  /** The snippet dict of an item, `{}` when absent. */
  function SnippetOf(item: Json): map<string, Json>
    requires item.JObj? && DictOrAbsent(item.fields, "snippet")
  {
    if "snippet" in item.fields then item.fields["snippet"].fields else map[]
  }

  /** One card per item; None when reading the item raises. */
  function CardOf(item: Json, kind: Kind): (c: Option<Card>)
    ensures c.Some? ==> c.value.badge == BadgeText(kind) && c.value.watchLabel == WatchLabel(kind)
    ensures c.Some? ==> VideoId(item, kind).Some? && c.value.watchUrl == WatchPrefix + PyStr(VideoId(item, kind).value)
  {
    var id :- VideoId(item, kind);
    var snippet :- Get(item, "snippet", EmptyObject);
    var thumbnail :- Thumbnail(snippet);
    var title :- Get(snippet, "title", JStr("Untitled"));
    var description :- Get(snippet, "description", JStr(""));
    var channel :- Get(snippet, "channelTitle", JStr("Unknown"));
    Some(Card(BadgeText(kind), thumbnail, title, channel, description, WatchPrefix + PyStr(id), WatchLabel(kind)))
  }

  /**
    The items a card can be built from: a dict whose snippet (and, on the
    search path, whose id) is absent or a dict, and whose thumbnails are
    falsy or a dict holding no non-dict "medium".
   */
  predicate Renderable(item: Json, kind: Kind) {
    && item.JObj?
    && (kind == Search ==> DictOrAbsent(item.fields, "id"))
    && DictOrAbsent(item.fields, "snippet")
    && var snippet := SnippetOf(item);
       ("thumbnails" in snippet && Truthy(snippet["thumbnails"]) ==>
          snippet["thumbnails"].JObj? && DictOrAbsent(snippet["thumbnails"].fields, "medium"))
  }

  /** Building a card fails exactly on the items that are not renderable. */
  lemma CardOfDefinedIff(item: Json, kind: Kind)
    ensures CardOf(item, kind).Some? <==> Renderable(item, kind)
  {
  }

  /**
    Missing fields take the fixed defaults -- title "Untitled", channel
    "Unknown", description "", thumbnail url "" -- and present ones are
    shown as they are.
   */
  lemma MissingFieldsDefault(item: Json, kind: Kind)
    requires Renderable(item, kind)
    ensures CardOf(item, kind).Some?
    ensures var c := CardOf(item, kind).value; var s := SnippetOf(item);
      && c.title == (if "title" in s then s["title"] else JStr("Untitled"))
      && c.channel == (if "channelTitle" in s then s["channelTitle"] else JStr("Unknown"))
      && c.description == (if "description" in s then s["description"] else JStr(""))
      && ((!("thumbnails" in s && Truthy(s["thumbnails"])) || "medium" !in s["thumbnails"].fields
           || "url" !in s["thumbnails"].fields["medium"].fields) ==> c.thumbnail == JStr(""))
      && (("thumbnails" in s && Truthy(s["thumbnails"]) && "medium" in s["thumbnails"].fields
           && "url" in s["thumbnails"].fields["medium"].fields) ==>
            c.thumbnail == s["thumbnails"].fields["medium"].fields["url"])
  {
    CardOfDefinedIff(item, kind);
  }

  /**
    The id each path links to: on the search path a missing id, or an id
    dict without "videoId", links to "" (app.py:446); on the trending path
    the id is read as it is, so a missing one links to the text "None"
    (app.py:378).
   */
  lemma WatchUrlOfMissingId(item: Json, kind: Kind)
    requires CardOf(item, kind).Some?
    requires || "id" !in item.fields
             || (kind == Search && "id" in item.fields && item.fields["id"].JObj? && "videoId" !in item.fields["id"].fields)
    ensures CardOf(item, kind).value.watchUrl == WatchPrefix + (if kind == Trending then "None" else "")
  {
  }

  /** One card per item, in the order received; None when any item is not renderable. */
  function MapItems(items: seq<Json>, kind: Kind): (r: Option<seq<Card>>)
    ensures r.Some? <==> forall k :: 0 <= k < |items| ==> CardOf(items[k], kind).Some?
    ensures r.Some? ==> |r.value| == |items|
    ensures r.Some? ==> forall k :: 0 <= k < |items| ==> CardOf(items[k], kind) == Some(r.value[k])
  {
    if items == [] then Some([])
    else
      var card :- CardOf(items[0], kind);
      var rest :- MapItems(items[1..], kind);
      assert forall k :: 1 <= k < |items| ==> items[k] == items[1..][k - 1];
      Some([card] + rest)
  }

  /**
    Iterating the "items" value: only a list yields items; iterating a
    non-empty dict or string yields str keys or characters, whose `.get`
    raises, and a number or `True` is not iterable.
   */
  function CardsFrom(items: Json, kind: Kind): (r: Option<seq<Card>>)
    ensures r.Some? ==> items.JArr? && r == MapItems(items.elems, kind)
    ensures items.JArr? ==> r == MapItems(items.elems, kind)
  {
    match items
    case JArr(elems) => MapItems(elems, kind)
    case _ => None
  }

  /**
    The card loop: appends one card per item, in order, and stops at the
    first item whose reading raises.
   */
  method BuildCards(items: seq<Json>, kind: Kind) returns (cols: seq<Card>, failed: bool)
    ensures failed <==> exists k :: 0 <= k < |items| && CardOf(items[k], kind).None?
    ensures !failed ==> |cols| == |items| && forall k :: 0 <= k < |items| ==> CardOf(items[k], kind) == Some(cols[k])
    ensures !failed ==> MapItems(items, kind) == Some(cols)
    ensures failed ==> MapItems(items, kind).None?
  {
    cols := [];
    failed := false;
    var i := 0;
    while i < |items| && !failed
      invariant 0 <= i <= |items|
      invariant !failed ==> |cols| == i && forall k :: 0 <= k < i ==> CardOf(items[k], kind) == Some(cols[k])
      invariant failed ==> i < |items| && CardOf(items[i], kind).None?
      decreases |items| - i, if failed then 0 else 1
    {
      var card := CardOf(items[i], kind);
      if card.None? {
        failed := true;
      } else {
        cols := cols + [card.value];
        i := i + 1;
      }
    }
    if !failed {
      assert MapItems(items, kind).value == cols;
    }
  }
}
