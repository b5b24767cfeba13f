/**
 * The article feed: the fetched articles narrowed to the selected categories, a
 * vertically paged list of players, and the sequencing rule that plays every
 * article twice and then moves on to the next one, wrapping round after the
 * last. The active player is commanded through a ref; the model records those
 * commands as the output of each event.
 */
module FeedSequencer {
  import opened Sequences
  import opened Categories

  datatype Article = Article(id: string, categoryId: CategoryId, title: string, audioFile: string, thumbnail: string)

  /** The test `article => selectedCategoryIds.includes(article.category_id)`. */
  function InSelection(selected: seq<CategoryId>): Article -> bool
  {
    (a: Article) => a.categoryId in selected
  }

  /**
   * `filteredArticles`: exactly the articles whose category is selected, each as
   * often as it was fetched, in the order they were fetched.
   */
  function FilteredArticles(articles: seq<Article>, selected: seq<CategoryId>): (r: seq<Article>)
    ensures |r| <= |articles|
    ensures forall a :: a in r <==> a in articles && a.categoryId in selected
    ensures IsSubsequence(r, articles)
    ensures forall a :: multiset(r)[a] == if a.categoryId in selected then multiset(articles)[a] else 0
  {
    var p := InSelection(selected);
    FilterIsSubsequence(articles, p);
    assert forall a :: a in Filter(articles, p) <==> a in articles && p(a) by {
      forall a ensures a in Filter(articles, p) <==> a in articles && p(a) {
        FilterMembership(articles, p, a);
      }
    }
    assert forall a :: multiset(Filter(articles, p))[a] == if p(a) then multiset(articles)[a] else 0 by {
      forall a ensures multiset(Filter(articles, p))[a] == if p(a) then multiset(articles)[a] else 0 {
        FilterCounts(articles, p, a);
      }
    }
    Filter(articles, p)
  }

  /** What the feed tells the active player or the list to do. */
  datatype Command =
    | StopAudio              // `audioPlayerRef.current.stopAudio()`
    | PlayPauseAfterDelay    // `setTimeout(() => audioPlayerRef.current.playPauseAudio(true), 500)`
    | ScrollToIndex(index: int)  // `flatListRef.current.scrollToIndex({ index })`

  /** The sequencing state: `currentArticleIndex` and `currentPlayCount`. */
  datatype Position = Position(index: int, playCount: int)

  /** The state after an event, and the commands the event issued, in order. */
  datatype Reaction = Reaction(next: Position, commands: seq<Command>)

  /**
   * The list renders a player for the item at `index` (and so the player ref is
   * set) exactly when `index` is a position of the filtered feed.
   */
  predicate Mounted(index: int, len: int)
  {
    0 <= index < len
  }

  /** The index after the last play of an item: the next one, or 0 after the last. */
  function NextIndex(index: int, len: int): (r: int)
    ensures Mounted(index, len) ==> r == (index + 1) % len && Mounted(r, len)
    ensures len == 1 && Mounted(index, len) ==> r == index
  {
    if index < len - 1 then index + 1 else 0
  }

  /**
   * `handleArticleChange(n)` together with the effect that runs once the index
   * has changed: stop the active player, make `n` active with a play count of 0;
   * if the index did change and `n` is rendered, start it after the delay and
   * scroll the list to it.
   */
  function ArticleChange(p: Position, len: int, n: int): (r: Reaction)
    ensures r.next == Position(n, 0)
    ensures Mounted(p.index, len) <==> |r.commands| > 0 && r.commands[0] == StopAudio
    ensures StopAudio in r.commands <==> Mounted(p.index, len)
    ensures |r.commands| ==
      (if Mounted(p.index, len) then 1 else 0) + (if n != p.index && Mounted(n, len) then 2 else 0)
    ensures PlayPauseAfterDelay in r.commands <==> n != p.index && Mounted(n, len)
    ensures forall c | c in r.commands && c.ScrollToIndex? :: c.index == n
    ensures ScrollToIndex(n) in r.commands <==> PlayPauseAfterDelay in r.commands
    ensures n != p.index && Mounted(n, len) ==>
      r.commands[|r.commands| - 2..] == [PlayPauseAfterDelay, ScrollToIndex(n)]
  {
    var stop := if Mounted(p.index, len) then [StopAudio] else [];
    var effect := if n != p.index && Mounted(n, len) then [PlayPauseAfterDelay, ScrollToIndex(n)] else [];
    Reaction(Position(n, 0), stop + effect)
  }

  /** The position after one end notification: the same item once more, or the next item fresh. */
  function EndPosition(p: Position, len: int): Position
  {
    if p.playCount + 1 < 2 then Position(p.index, p.playCount + 1) else Position(NextIndex(p.index, len), 0)
  }

  /** An article change depends on the active index, not on the play count. */
  lemma ArticleChangeIgnoresCount(p: Position, q: Position, len: int, n: int)
    requires p.index == q.index
    ensures ArticleChange(p, len, n) == ArticleChange(q, len, n)
  {
  }

  /**
   * `handleAudioEnd`: the end of the first play replays the same item after the
   * delay; the end of the second play moves on to the next item.
   */
  function AudioEnd(p: Position, len: int): (r: Reaction)
    ensures r.next == EndPosition(p, len)
    ensures p.playCount + 1 < 2 ==> r.next == Position(p.index, p.playCount + 1)
    ensures p.playCount + 1 < 2 ==> r.commands == if Mounted(p.index, len) then [PlayPauseAfterDelay] else []
    ensures p.playCount + 1 >= 2 ==> r == ArticleChange(p, len, NextIndex(p.index, len))
    ensures p.playCount + 1 >= 2 ==> r.next == Position(NextIndex(p.index, len), 0)
    ensures p.playCount + 1 >= 2 && Mounted(p.index, len) ==>
      r.next.index == (p.index + 1) % len && |r.commands| > 0 && r.commands[0] == StopAudio
    ensures p.playCount + 1 >= 2 && Mounted(p.index, len) && len >= 2 ==>
      r.commands == [StopAudio, PlayPauseAfterDelay, ScrollToIndex((p.index + 1) % len)]
    ensures 0 <= p.playCount <= 1 ==> 0 <= r.next.playCount <= 1
    ensures Mounted(p.index, len) ==> Mounted(r.next.index, len)
  {
    var newPlayCount := p.playCount + 1;
    if newPlayCount < 2 then
      Reaction(Position(p.index, newPlayCount), if Mounted(p.index, len) then [PlayPauseAfterDelay] else [])
    else
      ArticleChange(p, len, NextIndex(p.index, len))
  }

  /** `onScrollEnd` with the settled index `n`: a change of index is an article change. */
  function ScrollEnd(p: Position, len: int, n: int): (r: Reaction)
    ensures n == p.index ==> r == Reaction(p, [])
    ensures n != p.index ==> r == ArticleChange(p, len, n)
  {
    if n != p.index then ArticleChange(p, len, n) else Reaction(p, [])
  }

  /** The position after `k` end notifications. */
  function AfterEnds(p: Position, len: int, k: nat): Position
    decreases k
  {
    if k == 0 then p else AfterEnds(EndPosition(p, len), len, k - 1)
  }

  /** A rendered index and a play count of 0 or 1 stay so over any number of ends. */
  lemma {:induction false} EndsStayInRange(p: Position, len: int, k: nat)
    requires Mounted(p.index, len) && 0 <= p.playCount <= 1
    ensures Mounted(AfterEnds(p, len, k).index, len)
    ensures 0 <= AfterEnds(p, len, k).playCount <= 1
    decreases k
  {
    if k > 0 {
      EndsStayInRange(AudioEnd(p, len).next, len, k - 1);
    }
  }

  /** Two ends after a fresh activation move on by exactly one item, circularly. */
  lemma TwoEndsAdvance(i: int, len: int)
    requires Mounted(i, len)
    ensures AfterEnds(Position(i, 0), len, 1) == Position(i, 1)
    ensures AfterEnds(Position(i, 0), len, 2) == Position((i + 1) % len, 0)
  {
    assert AfterEnds(Position(i, 0), len, 1) == AfterEnds(Position(i, 1), len, 0);
    assert AfterEnds(Position(i, 0), len, 2) == AfterEnds(Position(i, 1), len, 1);
  }

  /** After `2k` ends from a fresh activation of item `i`, item `(i + k) mod len` is freshly active. */
  lemma {:induction false} RepeatedEnds(i: int, len: int, k: nat)
    requires Mounted(i, len)
    ensures AfterEnds(Position(i, 0), len, 2 * k) == Position((i + k) % len, 0)
    decreases k
  {
    if k > 0 {
      var j := (i + 1) % len;
      TwoEndsAdvance(i, len);
      AfterEndsSplit(Position(i, 0), len, 2, 2 * k - 2);
      assert 2 * k == 2 + 2 * (k - 1);
      RepeatedEnds(j, len, k - 1);
      if i + 1 < len {
        assert j == i + 1;
      } else {
        assert j == 0;
        assert i + k == len + (k - 1);
        ModuloShift(k - 1, len);
      }
    }
  }

  /** Running `a` ends and then `b` more is running `a + b` ends. */
  lemma {:induction false} AfterEndsSplit(p: Position, len: int, a: nat, b: nat)
    ensures AfterEnds(p, len, a + b) == AfterEnds(AfterEnds(p, len, a), len, b)
    decreases a
  {
    if a > 0 {
      AfterEndsSplit(EndPosition(p, len), len, a - 1, b);
    }
  }

  /** `m` steps past a full round is `m` steps. */
  lemma ModuloShift(m: nat, len: int)
    requires len > 0
    ensures (len + m) % len == m % len
  {
    var q, rest := m / len, m % len;
    assert m == q * len + rest;
    assert len + m == (q + 1) * len + rest;
    ModuloUnique(len + m, len, q + 1, rest);
  }

  /** Euclidean division leaves a unique remainder. */
  lemma ModuloUnique(x: int, n: int, q: int, rest: int)
    requires n > 0 && x == q * n + rest && 0 <= rest < n
    ensures x % n == rest
  {
    var q', rest' := x / n, x % n;
    assert x == q' * n + rest';
    assert q * n - q' * n == (q - q') * n;
    var d := q - q';
    assert d * n == rest' - rest;
    assert d >= 1 ==> d * n == (d - 1) * n + n && (d - 1) * n >= 0;
    assert d <= -1 ==> -d * n == (-d - 1) * n + n && (-d - 1) * n >= 0;
  }

  /**
   * A one-item feed keeps index 0 after two ends, but the second end only stops
   * the player: the index did not change, so the autoplay effect does not run.
   */
  lemma SingleItemFeedStopsAfterTwoPlays()
    ensures AudioEnd(Position(0, 0), 1) == Reaction(Position(0, 1), [PlayPauseAfterDelay])
    ensures AudioEnd(Position(0, 1), 1) == Reaction(Position(0, 0), [StopAudio])
  {
  }

  /**
   * On a three-item feed, settling on item 2 while item 0 is active stops item 0,
   * starts item 2 after the delay and scrolls to it.
   */
  lemma ScrollToThirdItem(p: Position)
    requires p.index == 0
    ensures ScrollEnd(p, 3, 2) == Reaction(Position(2, 0), [StopAudio, PlayPauseAfterDelay, ScrollToIndex(2)])
  {
  }

  /**
   * Narrowing the selection under a mounted feed can leave the active index past
   * the end: with two items of different categories and item 1 active, keeping
   * only the first category leaves a one-item feed and no rendered player.
   */
  lemma NarrowedSelectionUnmountsActiveItem(x: Article, y: Article)
    requires x.categoryId != y.categoryId
    ensures Mounted(1, |FilteredArticles([x, y], [x.categoryId, y.categoryId])|)
    ensures !Mounted(1, |FilteredArticles([x, y], [x.categoryId])|)
    ensures AudioEnd(Position(1, 0), |FilteredArticles([x, y], [x.categoryId])|) == Reaction(Position(1, 1), [])
  {
  }

  /** The feed screen's state. */
  class ArticleFeed {
    /**
     * The `selectedCategoryIds` prop. A later Submit on the Categories tab hands
     * the mounted feed a new selection, so it can change.
     */
    var selectedCategoryIds: seq<CategoryId>
    var articles: seq<Article>
    var currentArticleIndex: int
    var currentPlayCount: int

    /** The play count is 0 or 1 between events. */
    ghost predicate Valid()
      reads this
    {
      0 <= currentPlayCount <= 1
    }

    function Feed(): seq<Article>
      reads this
    {
      FilteredArticles(articles, selectedCategoryIds)
    }

    function Pos(): Position
      reads this
    {
      Position(currentArticleIndex, currentPlayCount)
    }

    /**
     * Mounting: nothing fetched yet, index 0, play count 0. The index effect runs
     * on mount too, but no player is rendered yet, so it issues nothing.
     */
    constructor (selected: seq<CategoryId>)
      ensures Valid()
      ensures selectedCategoryIds == selected && articles == []
      ensures Pos() == Position(0, 0)
    {
      selectedCategoryIds := selected;
      articles := [];
      currentArticleIndex := 0;
      currentPlayCount := 0;
    }

    /** The articles request resolved with `fetched`; neither index nor play count moves. */
    method SetArticles(fetched: seq<Article>)
      requires Valid()
      modifies this
      ensures Valid()
      ensures articles == fetched && Pos() == old(Pos())
      ensures selectedCategoryIds == old(selectedCategoryIds)
    {
      articles := fetched;
    }

    /**
     * The feed is rendered with a new `selectedCategoryIds`: the filtered feed is
     * recomputed, but neither index nor play count moves, even when the active
     * index now lies beyond the end of the feed.
     */
    method SetSelection(selected: seq<CategoryId>)
      requires Valid()
      modifies this
      ensures Valid()
      ensures selectedCategoryIds == selected && articles == old(articles) && Pos() == old(Pos())
    {
      selectedCategoryIds := selected;
    }

    /** `handleArticleChange(newIndex)`, followed by the index effect. */
    method HandleArticleChange(newIndex: int) returns (commands: seq<Command>)
      modifies this
      ensures Valid()
      ensures articles == old(articles) && selectedCategoryIds == old(selectedCategoryIds)
      ensures Reaction(Pos(), commands) == ArticleChange(old(Pos()), |Feed()|, newIndex)
    {
      var len := |Feed()|;
      commands := [];
      if Mounted(currentArticleIndex, len) {
        commands := commands + [StopAudio];
      }
      var previous := currentArticleIndex;
      currentArticleIndex := newIndex;
      currentPlayCount := 0;
      if currentArticleIndex != previous && Mounted(currentArticleIndex, len) {
        commands := commands + [PlayPauseAfterDelay, ScrollToIndex(currentArticleIndex)];
      }
    }

    /** `handleAudioEnd`: the active player reported the end of a play. */
    method HandleAudioEnd() returns (commands: seq<Command>)
      requires Valid()
      modifies this
      ensures Valid()
      ensures articles == old(articles) && selectedCategoryIds == old(selectedCategoryIds)
      ensures Reaction(Pos(), commands) == AudioEnd(old(Pos()), |Feed()|)
    {
      ghost var p := Pos();
      var len := |Feed()|;
      var newPlayCount := currentPlayCount + 1;
      currentPlayCount := newPlayCount;
      if newPlayCount < 2 {
        commands := if Mounted(currentArticleIndex, len) then [PlayPauseAfterDelay] else [];
        assert Reaction(Pos(), commands) == AudioEnd(p, len);
      } else {
        var n := if currentArticleIndex < len - 1 then currentArticleIndex + 1 else 0;
        ghost var q := Pos();
        assert q.index == p.index && n == NextIndex(p.index, len);
        ArticleChangeIgnoresCount(q, p, len, n);
        commands := HandleArticleChange(n);
        assert |Feed()| == len;
      }
    }

    /** `onScrollEnd` with the settled index already computed from the offset. */
    method OnScrollEnd(newIndex: int) returns (commands: seq<Command>)
      requires Valid()
      modifies this
      ensures Valid()
      ensures articles == old(articles) && selectedCategoryIds == old(selectedCategoryIds)
      ensures Reaction(Pos(), commands) == ScrollEnd(old(Pos()), |Feed()|, newIndex)
    {
      if newIndex != currentArticleIndex {
        commands := HandleArticleChange(newIndex);
      } else {
        commands := [];
      }
    }

    /**
     * The screen loses focus: the focus effect's cleanup issues exactly the
     * stop that an article change would, and nothing else.
     */
    method OnBlur() returns (commands: seq<Command>)
      ensures commands == ArticleChange(Pos(), |Feed()|, currentArticleIndex).commands
      ensures commands == [] || commands == [StopAudio]
    {
      commands := if Mounted(currentArticleIndex, |Feed()|) then [StopAudio] else [];
    }
  }
}
