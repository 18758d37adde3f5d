/** The candle pipeline: the feeds of all pairs are merged by the heap, and every pair's strategy
    sees exactly its own feed again. */
module Pipeline {
  import opened Types
  import opened Sorting
  import opened PriorityQueues
  import opened Candles
  import opened Calendar
  import opened Feed
  import opened Dataframes

  /** The candles of one pair, in sequence. */
  function Only(s: seq<Candle>, pair: Pair): seq<Candle> {
    if s == [] then []
    else
      var init, c := Only(s[..|s|-1], pair), s[|s|-1];
      if c.pair == pair then init + [c] else init
  }

  lemma {:induction false} OnlyElements(s: seq<Candle>, pair: Pair, c: Candle)
    ensures multiset(Only(s, pair))[c] == if c.pair == pair then multiset(s)[c] else 0
  {
    if s != [] {
      OnlyElements(s[..|s|-1], pair, c);
      assert s == s[..|s|-1] + [s[|s|-1]];
    }
  }

  lemma {:induction false} OnlyKeepsOrder(s: seq<Candle>, pair: Pair)
    requires InOrder(s, CandleLess)
    ensures InOrder(Only(s, pair), CandleLess)
  {
    if s != [] {
      var init, c := s[..|s|-1], s[|s|-1];
      OnlyKeepsOrder(init, pair);
      hide CandleLess;
      forall i | 0 <= i < |Only(init, pair)| ensures !CandleLess(c, Only(init, pair)[i]) {
        var x := Only(init, pair)[i];
        OnlyElements(init, pair, x);
        assert x in multiset(Only(init, pair));
        assert x in multiset(init);
        var j :| 0 <= j < |init| && init[j] == x;
        assert s[j] == x;
      }
    }
  }

  /** Candles arrive in any interleaving; popping the queue yields all of them in order. */
  method MergeFeeds(arrivals: seq<Candle>) returns (out: seq<Candle>)
    ensures InOrder(out, CandleLess) && multiset(out) == multiset(arrivals)
  {
    CandleLessIsStrictWeak();
    var queue := new PriorityQueue([], CandleLess);
    for i := 0 to |arrivals|
      invariant queue.Valid() && fresh(queue) && queue.less == CandleLess
      invariant multiset(queue.data) == multiset(arrivals[..i])
    {
      queue.Push(arrivals[i]);
      assert arrivals[..i + 1] == arrivals[..i] + [arrivals[i]];
    }
    assert arrivals[..|arrivals|] == arrivals;
    out := queue.Drain();
  }

  /** In the merged stream, each pair's candles are its feed, candle by candle. */
  lemma PairSeesItsFeed(out: seq<Candle>, arrivals: seq<Candle>, pair: Pair, feed: seq<Candle>)
    requires InOrder(out, CandleLess) && multiset(out) == multiset(arrivals)
    requires multiset(Only(arrivals, pair)) == multiset(feed) && StrictlySorted(feed, CandleLess)
    ensures Only(out, pair) == feed
  {
    OnlyKeepsOrder(out, pair);
    hide CandleLess;
    forall c ensures multiset(Only(out, pair))[c] == multiset(feed)[c] {
      OnlyElements(out, pair, c);
      OnlyElements(arrivals, pair, c);
    }
    assert multiset(Only(out, pair)) == multiset(feed);
    SortedIsUnique(Only(out, pair), feed, CandleLess);
  }

  /** From file to strategy: whatever other pairs and whatever arrival order, the pair's dataframe
      after the run is made of the complete candles of its resampled source, plus the partial candle
      of an unfinished period if the strategy asks for those. */
  lemma DataframeIsResampledSource(
    source: seq<Candle>, r: Resampling, arrivals: seq<Candle>, out: seq<Candle>, pair: Pair,
    warmup: nat, highFrequency: bool)
    requires Increasing(source) && InOrder(out, CandleLess) && multiset(out) == multiset(arrivals)
    requires multiset(Only(arrivals, pair)) == multiset(Trimmed(Fold(source, r)))
    ensures var feed := Trimmed(Fold(source, r));
      ConsumeAll(Only(out, pair), warmup, highFrequency) == Completes(feed) + Shown(feed, warmup, highFrequency)
  {
    var feed := Trimmed(Fold(source, r));
    FeedIsStrictlySorted(source, r);
    PairSeesItsFeed(out, arrivals, pair, feed);
    PartialsLeaveNoTrace(feed, warmup, highFrequency);
  }

  /** In chronological order times never go back, nor do update times while the time stands still. */
  lemma TimesNeverGoBack(out: seq<Candle>, i: nat, j: nat)
    requires InOrder(out, CandleLess) && i < j < |out|
    ensures out[i].time <= out[j].time && (out[i].time == out[j].time ==> out[i].updatedAt <= out[j].updatedAt)
  {
    assert !CandleLess(out[j], out[i]);
  }
}
