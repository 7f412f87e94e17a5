/**
 * The watchlist of static/js/script.js: the ordered list of `{id, watched}`
 * records kept in the `videos` storage slot, the cards that `renderVideos`
 * derives from it, and the event handlers that change it (add, toggle,
 * remove, import) or read it (export).
 */
module Watchlist {
  import opened Wrappers
  import opened VideoId

  /** One record of the list: `{ id, watched }`. */
  datatype Video = Video(id: string, watched: bool)

  /** What one card of the rendered list shows. */
  datatype Card = Card(thumbnail: string, link: string, buttonLabel: string, buttonClass: string)

  /** The alerts the handlers raise. */
  datatype Notice = InvalidLink | ImportSucceeded | InvalidFormat | ReadError

  /** The top-level shape of a parsed import file: an array, or anything else. */
  datatype JsonValue = JsonArray(elements: seq<Video>) | JsonNonArray

  const ThumbnailPrefix: string := "https://img.youtube.com/vi/"
  const ThumbnailSuffix: string := "/0.jpg"
  const LinkPrefix: string := "https://youtu.be/"
  const WatchedLabel: string := "Watched"
  const UnwatchedLabel: string := "Mark Watched"

  /** The text of each alert. */
  function Message(n: Notice): (text: string) {
    match n
    case InvalidLink => "Please enter a valid YouTube link."
    case ImportSucceeded => "Watchlist imported successfully!"
    case InvalidFormat => "Invalid file format."
    case ReadError => "Error reading file."
  }

  /** No two alerts read the same, so the user can tell each outcome apart. */
  lemma MessagesDistinct(a: Notice, b: Notice)
    requires a != b
    ensures Message(a) != Message(b)
  {
  }

  /** `getVideos`: the stored list, or the empty list when the slot is absent. */
  function Load(slot: Option<seq<Video>>): (videos: seq<Video>)
    ensures slot.None? ==> videos == []
    ensures slot.Some? ==> videos == slot.value
  {
    match slot
    case None => []
    case Some(videos) => videos
  }

  /**
   * The card `renderVideos` builds for one record: thumbnail and link are
   * fixed templates around the identifier, and the button reads "Watched"
   * when the record is watched and "Mark Watched" otherwise.
   */
  function CardFor(v: Video): (c: Card)
    ensures |c.thumbnail| == |ThumbnailPrefix| + |v.id| + |ThumbnailSuffix|
    ensures c.thumbnail[..|ThumbnailPrefix|] == ThumbnailPrefix
    ensures c.thumbnail[|ThumbnailPrefix|..|c.thumbnail| - |ThumbnailSuffix|] == v.id
    ensures c.thumbnail[|c.thumbnail| - |ThumbnailSuffix|..] == ThumbnailSuffix
    ensures |c.link| == |LinkPrefix| + |v.id|
    ensures c.link[..|LinkPrefix|] == LinkPrefix && c.link[|LinkPrefix|..] == v.id
    ensures c.buttonLabel == WatchedLabel <==> v.watched
    ensures c.buttonClass == "watch-btn watched" <==> v.watched
    ensures !v.watched ==> c.buttonLabel == UnwatchedLabel && c.buttonClass == "watch-btn"
  {
    Card(ThumbnailPrefix + v.id + ThumbnailSuffix,
         LinkPrefix + v.id,
         if v.watched then WatchedLabel else UnwatchedLabel,
         "watch-btn" + (if v.watched then " watched" else ""))
  }

  /** Two records get the same card only when they are the same record. */
  lemma CardForInjective(a: Video, b: Video)
    requires CardFor(a) == CardFor(b)
    ensures a == b
  {
  }

  /** The cards shown for `videos`: one per record, in list order. */
  ghost predicate RenderedFrom(cards: seq<Card>, videos: seq<Video>) {
    |cards| == |videos| && forall i :: 0 <= i < |videos| ==> cards[i] == CardFor(videos[i])
  }

  /** The `forEach` of `renderVideos`, which appends one card per record. */
  method RenderCards(videos: seq<Video>) returns (cards: seq<Card>)
    ensures RenderedFrom(cards, videos)
  {
    cards := [];
    var index := 0;
    while index < |videos|
      invariant 0 <= index <= |videos|
      invariant RenderedFrom(cards, videos[..index])
    {
      cards := cards + [CardFor(videos[index])];
      index := index + 1;
    }
    assert videos[..index] == videos;
  }

  /** The list after the watch button of card `index` is pressed. */
  function Toggled(videos: seq<Video>, index: nat): (r: seq<Video>)
    requires index < |videos|
    ensures |r| == |videos|
    ensures r[index].id == videos[index].id && r[index].watched == !videos[index].watched
    ensures forall j :: 0 <= j < |videos| && j != index ==> r[j] == videos[j]
  {
    videos[index := videos[index].(watched := !videos[index].watched)]
  }

  /** Pressing the same watch button twice gives back the list it started from. */
  lemma ToggledTwice(videos: seq<Video>, index: nat)
    requires index < |videos|
    ensures Toggled(Toggled(videos, index), index) == videos
  {
  }

  /** The list after `splice(index, 1)`. */
  function Removed(videos: seq<Video>, index: nat): (r: seq<Video>)
    requires index < |videos|
    ensures |r| == |videos| - 1
    ensures forall j :: 0 <= j < index ==> r[j] == videos[j]
    ensures forall j :: index <= j < |r| ==> r[j] == videos[j + 1]
    ensures multiset(r) + multiset{videos[index]} == multiset(videos)
  {
    assert videos == videos[..index] + [videos[index]] + videos[index + 1..];
    videos[..index] + videos[index + 1..]
  }

  /**
   * The page's watchlist state.  `stored` is the `videos` storage slot
   * (`None` when the key is absent), `shown` the array that the latest
   * `renderVideos` loaded and that its button handlers close over, and
   * `cards` the cards it produced.
   */
  class VideoList {
    var stored: Option<seq<Video>>
    var shown: seq<Video>
    var cards: seq<Card>

    /** After every handler the cards on the page and their handlers' array match storage. */
    ghost predicate Valid()
      reads this
    {
      shown == Load(stored) && RenderedFrom(cards, shown)
    }

    /** Page load: whatever the slot holds is rendered. */
    constructor (slot: Option<seq<Video>>)
      ensures Valid() && stored == slot
      ensures slot.None? ==> shown == []
    {
      stored := slot;
      shown := Load(slot);
      new;
      RenderVideos();
    }

    /** `getVideos`. */
    method GetVideos() returns (videos: seq<Video>)
      ensures videos == Load(stored)
    {
      videos := Load(stored);
    }

    /** `saveVideos`: overwrite the slot. */
    method SaveVideos(videos: seq<Video>)
      modifies this`stored
      ensures stored == Some(videos)
    {
      stored := Some(videos);
    }

    /** `renderVideos`: reload the list and rebuild every card. */
    method RenderVideos()
      modifies this`shown, this`cards
      ensures Valid()
    {
      shown := GetVideos();
      cards := RenderCards(shown);
    }

    /**
     * The add button: `trim` and `parse` stand for `String.prototype.trim`
     * and the `URL` constructor.  A truthy identifier is appended as an
     * unwatched record; anything else raises the invalid-link alert and
     * changes nothing.  The list is loaded afresh from the slot, so the
     * append applies to whatever is stored now.
     */
    method Add(input: string, trim: string -> string, parse: string -> Option<Url>)
        returns (notice: Option<Notice>)
      modifies this
      ensures var id := ExtractVideoId(parse(trim(input)));
        if Truthy(id) then
          notice == None && Valid() && stored == Some(old(Load(stored)) + [Video(id.value, false)])
        else
          notice == Some(InvalidLink) && unchanged(this)
    {
      var url := trim(input);
      var id := ExtractVideoId(parse(url));
      if Truthy(id) {
        var videos := GetVideos();
        videos := videos + [Video(id.value, false)];
        SaveVideos(videos);
        RenderVideos();
        notice := None;
      } else {
        notice := Some(InvalidLink);
      }
    }

    /**
     * The watch button of card `index`: flip that record in the array the
     * last render loaded and save that array, whatever the slot holds now.
     */
    method ToggleWatched(index: nat)
      requires index < |shown|
      modifies this
      ensures Valid()
      ensures stored == Some(Toggled(old(shown), index))
    {
      shown := shown[index := shown[index].(watched := !shown[index].watched)];
      SaveVideos(shown);
      RenderVideos();
    }

    /**
     * The remove button of card `index`: drop that record from the array the
     * last render loaded and save that array, whatever the slot holds now.
     */
    method Remove(index: nat)
      requires index < |shown|
      modifies this
      ensures Valid()
      ensures stored == Some(Removed(old(shown), index))
    {
      shown := shown[..index] + shown[index + 1..];
      SaveVideos(shown);
      RenderVideos();
    }

    /** The export button: the list that is written to `watchlist.json`. */
    method Export() returns (data: seq<Video>)
      ensures data == Load(stored)
    {
      data := GetVideos();
    }

    /**
     * The import reader's `onload`, given what `JSON.parse` made of the
     * file (`None` when it threw).  Only an array replaces the list.
     */
    method Import(parsed: Option<JsonValue>) returns (notice: Notice)
      modifies this
      ensures match parsed
        case Some(JsonArray(elements)) => notice == ImportSucceeded && Valid() && stored == Some(elements)
        case Some(JsonNonArray) => notice == InvalidFormat && unchanged(this)
        case None => notice == ReadError && unchanged(this)
    {
      match parsed {
        case None =>
          notice := ReadError;
        case Some(value) =>
          if value.JsonArray? {
            SaveVideos(value.elements);
            RenderVideos();
            notice := ImportSucceeded;
          } else {
            notice := InvalidFormat;
          }
      }
    }
  }

  /** Importing the file that export just produced leaves the list as it was. */
  method ExportThenImport(list: VideoList) returns (notice: Notice)
    modifies list
    ensures list.Valid() && notice == ImportSucceeded
    ensures Load(list.stored) == old(Load(list.stored))
  {
    var data := list.Export();
    notice := list.Import(Some(JsonArray(data)));
  }

  /**
   * Another writer of the `videos` slot (a second page of the same origin
   * calling `saveVideos`) is overwritten by the next watch-button press
   * here, which saves the array this page rendered last.
   */
  method ConcurrentWriteLost(list: VideoList, written: seq<Video>, index: nat)
    requires index < |list.shown|
    modifies list
    ensures list.Valid()
    ensures list.stored == Some(Toggled(old(list.shown), index))
  {
    list.SaveVideos(written);
    list.ToggleWatched(index);
  }
}
