/**
 * The bookmark repository: a persistent map from article id to the moment it
 * was bookmarked, toggled by reading the entry and then either removing it or
 * adding it, each write followed by one analytics call. The DAO and the
 * analytics sink are modelled as state plus one log of every call made to
 * them, in order; the clock is a parameter.
 */
module ArticleBookmarks {

  datatype Option<T> = None | Some(value: T)

  /** A stored row: the bookmarked article and when it was bookmarked. */
  datatype DbArticleBookmark = DbArticleBookmark(articleId: string, timestamp: int)

  /** One call made by the repository to the DAO or to analytics. */
  datatype Event =
    | GetById(articleId: string)
    | Add(bookmark: DbArticleBookmark)
    | Remove(articleId: string)
    | OnBookmark
    | OnRemoveBookmark

  /** The DAO contents and the log of calls so far. */
  datatype State = State(bookmarks: map<string, int>, events: seq<Event>)

  /** The id projection of a stored list (`list.map { it.articleId }`). */
  function ArticleIds(entries: seq<DbArticleBookmark>): (ids: seq<string>)
    ensures |ids| == |entries|
    ensures forall i :: 0 <= i < |entries| ==> ids[i] == entries[i].articleId
  {
    if entries == [] then [] else [entries[0].articleId] + ArticleIds(entries[1..])
  }

  /** `entries` lists the stored map: every row is stored with its timestamp,
      no id appears twice, and every stored id has a row. */
  ghost predicate Lists(entries: seq<DbArticleBookmark>, bookmarks: map<string, int>) {
    (forall i :: 0 <= i < |entries| ==>
       entries[i].articleId in bookmarks && bookmarks[entries[i].articleId] == entries[i].timestamp) &&
    (forall i, j :: 0 <= i < j < |entries| ==> entries[i].articleId != entries[j].articleId) &&
    (forall id :: id in bookmarks ==> exists i :: 0 <= i < |entries| && entries[i].articleId == id)
  }

  /** The analytics call that belongs to a store mutation. */
  predicate Reports(mutation: Event, analytics: Event) {
    (mutation.Add? && analytics.OnBookmark?) || (mutation.Remove? && analytics.OnRemoveBookmark?)
  }

  /** The effect of one `toggle(articleId)` at time `now`. */
  function ToggleStep(s: State, articleId: string, now: int): (t: State)
    ensures articleId in t.bookmarks <==> articleId !in s.bookmarks
    ensures articleId in t.bookmarks ==> t.bookmarks[articleId] == now
    ensures forall id :: id != articleId ==>
              (id in t.bookmarks <==> id in s.bookmarks) &&
              (id in t.bookmarks ==> t.bookmarks[id] == s.bookmarks[id])
    ensures |t.events| == |s.events| + 3 && t.events[..|s.events|] == s.events
    ensures t.events[|s.events|] == GetById(articleId)
    ensures t.events[|s.events| + 1] ==
              if articleId in s.bookmarks then Remove(articleId) else Add(DbArticleBookmark(articleId, now))
    ensures Reports(t.events[|s.events| + 1], t.events[|s.events| + 2])
  {
    var read := s.events + [GetById(articleId)];
    if articleId in s.bookmarks then
      State(s.bookmarks - {articleId}, read + [Remove(articleId), OnRemoveBookmark])
    else
      State(s.bookmarks[articleId := now], read + [Add(DbArticleBookmark(articleId, now)), OnBookmark])
  }

  /** The repository over its DAO and analytics collaborators. */
  class ArticleBookmarksRepository {
    var bookmarks: map<string, int>
    var events: seq<Event>

    function Current(): State
      reads this
    {
      State(bookmarks, events)
    }

    constructor (stored: map<string, int>)
      ensures bookmarks == stored && events == []
    {
      bookmarks := stored;
      events := [];
    }

    /** The DAO read: the stored row of `articleId`, if any. */
    method DaoGetById(articleId: string) returns (row: Option<DbArticleBookmark>)
      modifies this
      ensures bookmarks == old(bookmarks) && events == old(events) + [GetById(articleId)]
      ensures row == if articleId in bookmarks then Some(DbArticleBookmark(articleId, bookmarks[articleId])) else None
    {
      events := events + [GetById(articleId)];
      row := if articleId in bookmarks then Some(DbArticleBookmark(articleId, bookmarks[articleId])) else None;
    }

    method DaoAdd(row: DbArticleBookmark)
      modifies this
      ensures bookmarks == old(bookmarks)[row.articleId := row.timestamp]
      ensures events == old(events) + [Add(row)]
    {
      bookmarks := bookmarks[row.articleId := row.timestamp];
      events := events + [Add(row)];
    }

    method DaoRemove(articleId: string)
      modifies this
      ensures bookmarks == old(bookmarks) - {articleId}
      ensures events == old(events) + [Remove(articleId)]
    {
      bookmarks := bookmarks - {articleId};
      events := events + [Remove(articleId)];
    }

    method AnalyticsOnBookmark()
      modifies this
      ensures bookmarks == old(bookmarks) && events == old(events) + [OnBookmark]
    {
      events := events + [OnBookmark];
    }

    method AnalyticsOnRemoveBookmark()
      modifies this
      ensures bookmarks == old(bookmarks) && events == old(events) + [OnRemoveBookmark]
    {
      events := events + [OnRemoveBookmark];
    }

    /** Read, then remove or add, then report: one call is one ToggleStep. */
    method Toggle(articleId: string, now: int)
      modifies this
      ensures Current() == ToggleStep(old(Current()), articleId, now)
      ensures articleId in bookmarks <==> articleId !in old(bookmarks)
      ensures forall id :: id != articleId ==>
                (id in bookmarks <==> id in old(bookmarks)) &&
                (id in bookmarks ==> bookmarks[id] == old(bookmarks)[id])
    {
      var row := DaoGetById(articleId);
      var saved := row.Some?;
      if saved {
        DaoRemove(articleId);
        AnalyticsOnRemoveBookmark();
      } else {
        DaoAdd(DbArticleBookmark(articleId, now));
        AnalyticsOnBookmark();
      }
    }

    /** The ids of one snapshot of the stored rows. */
    method Observe(entries: seq<DbArticleBookmark>) returns (ids: seq<string>)
      requires Lists(entries, bookmarks)
      ensures ids == ArticleIds(entries)
      ensures forall id :: id in ids <==> id in bookmarks
    {
      ids := ArticleIds(entries);
      SnapshotIds(entries, bookmarks);
    }
  }

  /** A snapshot's ids are exactly the stored ids. */
  lemma SnapshotIds(entries: seq<DbArticleBookmark>, bookmarks: map<string, int>)
    requires Lists(entries, bookmarks)
    ensures forall id :: id in ArticleIds(entries) <==> id in bookmarks
  {
  }
}
