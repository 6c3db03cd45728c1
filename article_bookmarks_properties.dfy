/**
 * What sequences of toggles do: two toggles undo each other, and any number
 * of sequential toggles of one id leaves it bookmarked exactly when the
 * number of flips is odd, with adds and removes alternating in the log.
 */
module ArticleBookmarksProperties {
  import opened ArticleBookmarks

  /** Sequential toggles of one id at the given moments. */
  function Toggles(s: State, articleId: string, times: seq<int>): (t: State)
    ensures |t.events| == |s.events| + 3 * |times| && t.events[..|s.events|] == s.events
    decreases |times|
  {
    if times == [] then s else Toggles(ToggleStep(s, articleId, times[0]), articleId, times[1..])
  }

  /** How many log entries satisfy `p`. */
  function CountWhere(events: seq<Event>, p: Event -> bool): (k: nat)
    ensures k <= |events|
  {
    if events == [] then 0 else (if p(events[0]) then 1 else 0) + CountWhere(events[1..], p)
  }

  lemma {:induction false} CountWhereAppend(a: seq<Event>, b: seq<Event>, p: Event -> bool)
    ensures CountWhere(a + b, p) == CountWhere(a, p) + CountWhere(b, p)
  {
    if a == [] {
      assert a + b == b;
    } else {
      assert (a + b)[1..] == a[1..] + b;
      CountWhereAppend(a[1..], b, p);
    }
  }

  function IsAdd(e: Event): bool { e.Add? }
  function IsRemove(e: Event): bool { e.Remove? }
  function IsOnBookmark(e: Event): bool { e.OnBookmark? }
  function IsOnRemoveBookmark(e: Event): bool { e.OnRemoveBookmark? }

  /** Toggling twice restores membership, with one add, one remove, one
      `onBookmark` and one `onRemoveBookmark` between the two states; starting
      from an absent id, the store is restored exactly. */
  lemma ToggleTwice(s: State, articleId: string, t1: int, t2: int)
    ensures var u := ToggleStep(ToggleStep(s, articleId, t1), articleId, t2);
      (articleId in u.bookmarks <==> articleId in s.bookmarks) &&
      (forall id :: id != articleId ==> (id in u.bookmarks <==> id in s.bookmarks)) &&
      (articleId !in s.bookmarks ==>
         u.bookmarks == s.bookmarks &&
         u.events == s.events + [GetById(articleId), Add(DbArticleBookmark(articleId, t1)), OnBookmark,
                                 GetById(articleId), Remove(articleId), OnRemoveBookmark]) &&
      (articleId in s.bookmarks ==>
         u.bookmarks == s.bookmarks[articleId := t2] &&
         u.events == s.events + [GetById(articleId), Remove(articleId), OnRemoveBookmark,
                                 GetById(articleId), Add(DbArticleBookmark(articleId, t2)), OnBookmark])
  {
  }

  /** One toggle appends one read, one mutation and its analytics call. */
  lemma StepCounts(s: State, articleId: string, now: int)
    ensures var t := ToggleStep(s, articleId, now);
      var delta := t.events[|s.events|..];
      CountWhere(delta, IsAdd) == CountWhere(delta, IsOnBookmark) == (if articleId in s.bookmarks then 0 else 1) &&
      CountWhere(delta, IsRemove) == CountWhere(delta, IsOnRemoveBookmark) == (if articleId in s.bookmarks then 1 else 0)
  {
    var t := ToggleStep(s, articleId, now);
    var delta := t.events[|s.events|..];
    assert delta == [delta[0], delta[1], delta[2]];
    CountThree(delta[0], delta[1], delta[2], IsAdd);
    CountThree(delta[0], delta[1], delta[2], IsOnBookmark);
    CountThree(delta[0], delta[1], delta[2], IsRemove);
    CountThree(delta[0], delta[1], delta[2], IsOnRemoveBookmark);
  }

  lemma CountThree(a: Event, b: Event, c: Event, p: Event -> bool)
    ensures CountWhere([a, b, c], p) == (if p(a) then 1 else 0) + (if p(b) then 1 else 0) + (if p(c) then 1 else 0)
  {
    assert [a, b, c][1..] == [b, c];
    assert [b, c][1..] == [c];
    assert [c][1..] == [];
    assert CountWhere([c], p) == (if p(c) then 1 else 0);
    assert CountWhere([b, c], p) == (if p(b) then 1 else 0) + CountWhere([c], p);
  }

  /** Any number of sequential toggles of one id: the id is bookmarked at the
      end exactly when it started bookmarked and the number of flips is even,
      or started absent and the number is odd; every other id keeps its
      presence and timestamp. */
  lemma {:induction false} TogglesParity(s: State, articleId: string, times: seq<int>)
    ensures var t := Toggles(s, articleId, times);
      (articleId in t.bookmarks <==> (articleId in s.bookmarks <==> |times| % 2 == 0)) &&
      (forall id :: id != articleId ==>
         (id in t.bookmarks <==> id in s.bookmarks) &&
         (id in t.bookmarks ==> t.bookmarks[id] == s.bookmarks[id]))
    decreases |times|
  {
    if times != [] {
      TogglesParity(ToggleStep(s, articleId, times[0]), articleId, times[1..]);
    }
  }

  /** Adds and `onBookmark` calls follow the flips: after n sequential
      toggles of one id the log holds one of each per flip that found the id
      absent. */
  lemma {:induction false} TogglesAddCounts(s: State, articleId: string, times: seq<int>)
    ensures var delta := Toggles(s, articleId, times).events[|s.events|..];
      CountWhere(delta, IsAdd) == CountWhere(delta, IsOnBookmark) ==
        (if articleId in s.bookmarks then |times| / 2 else (|times| + 1) / 2)
    decreases |times|
  {
    var t := Toggles(s, articleId, times);
    if times == [] {
      assert t.events[|s.events|..] == [];
    } else {
      var s1 := ToggleStep(s, articleId, times[0]);
      assert t == Toggles(s1, articleId, times[1..]);
      TogglesAddCounts(s1, articleId, times[1..]);
      StepCounts(s, articleId, times[0]);
      var first := s1.events[|s.events|..];
      var rest := t.events[|s1.events|..];
      assert t.events[|s.events|..] == first + rest;
      CountWhereAppend(first, rest, IsAdd);
      CountWhereAppend(first, rest, IsOnBookmark);
    }
  }

  /** Removes and `onRemoveBookmark` calls follow the flips: one of each per
      flip that found the id present. */
  lemma {:induction false} TogglesRemoveCounts(s: State, articleId: string, times: seq<int>)
    ensures var delta := Toggles(s, articleId, times).events[|s.events|..];
      CountWhere(delta, IsRemove) == CountWhere(delta, IsOnRemoveBookmark) ==
        (if articleId in s.bookmarks then (|times| + 1) / 2 else |times| / 2)
    decreases |times|
  {
    var t := Toggles(s, articleId, times);
    if times == [] {
      assert t.events[|s.events|..] == [];
    } else {
      var s1 := ToggleStep(s, articleId, times[0]);
      assert t == Toggles(s1, articleId, times[1..]);
      TogglesRemoveCounts(s1, articleId, times[1..]);
      StepCounts(s, articleId, times[0]);
      var first := s1.events[|s.events|..];
      var rest := t.events[|s1.events|..];
      assert t.events[|s.events|..] == first + rest;
      CountWhereAppend(first, rest, IsRemove);
      CountWhereAppend(first, rest, IsOnRemoveBookmark);
    }
  }

  /** Adds and removes alternate: the k-th of n sequential toggles of one id
      writes a remove when the id started present and k is even, or started
      absent and k is odd, and an add stamped with its own moment otherwise;
      each write is followed by its own analytics call. So two adds, or two
      removes, never follow each other. */
  lemma {:induction false} TogglesAlternate(s: State, articleId: string, times: seq<int>, k: nat)
    requires k < |times|
    ensures var e := Toggles(s, articleId, times).events;
      var write := |s.events| + 3 * k + 1;
      e[write] == (if (articleId in s.bookmarks <==> k % 2 == 0) then Remove(articleId)
                   else Add(DbArticleBookmark(articleId, times[k]))) &&
      e[write + 1] == (if (articleId in s.bookmarks <==> k % 2 == 0) then OnRemoveBookmark else OnBookmark)
    decreases |times|
  {
    var s1 := ToggleStep(s, articleId, times[0]);
    var t := Toggles(s1, articleId, times[1..]);
    assert Toggles(s, articleId, times) == t;
    if k == 0 {
      assert t.events[..|s1.events|] == s1.events;
      assert t.events[|s.events| + 1] == s1.events[|s.events| + 1];
      assert t.events[|s.events| + 2] == s1.events[|s.events| + 2];
    } else {
      TogglesAlternate(s1, articleId, times[1..], k - 1);
      assert |s1.events| + 3 * (k - 1) + 1 == |s.events| + 3 * k + 1;
    }
  }
}
