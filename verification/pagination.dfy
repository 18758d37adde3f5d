/** Fetching a session's chart candles in windows, from an exchange that may answer short. */
module Pagination {
  import opened Types

  /** The exchange's answer to request n for the candles from start to end; None is an error. */
  type Exchange = (nat, int, int) -> Option<seq<Candle>>

  const MAX_CANDLES_PER_REQUEST := 1000

  /** Candles open at least one period apart. */
  predicate Spaced(all: seq<Candle>, duration: int) {
    forall i, j :: 0 <= i < j < |all| ==> all[i].time + duration <= all[j].time
  }

  /** How many candles open before t. */
  function Before(all: seq<Candle>, t: int): (n: nat)
    ensures n <= |all|
    ensures n > 0 ==> all[n - 1].time < t
  {
    if all == [] then 0
    else if all[|all|-1].time < t then |all| else Before(all[..|all|-1], t)
  }

  /** The candles opening from start to end, both included. */
  function Between(all: seq<Candle>, start: int, end: int): seq<Candle> {
    var lo, hi := Before(all, start), Before(all, end + 1);
    if lo <= hi then all[lo..hi] else []
  }

  /** The window is one stretch of the candles: those that open in it, and no others. */
  lemma BetweenIsWindow(all: seq<Candle>, duration: int, start: int, end: int, i: nat)
    requires duration > 0 && Spaced(all, duration) && i < |all|
    ensures var lo, hi := Before(all, start), Before(all, end + 1);
      && Between(all, start, end) == (if lo <= hi then all[lo..hi] else [])
      && (start <= all[i].time <= end <==> lo <= i < hi)
  {
    BeforeSplits(all, duration, start, i);
    BeforeSplits(all, duration, end + 1, i);
  }

  /** Every answer is an ascending first part of what the window holds, and not empty unless it is. */
  ghost predicate Honest(ex: Exchange, all: seq<Candle>) {
    forall n, a, b :: a <= b && ex(n, a, b).Some? ==>
      ex(n, a, b).value <= Between(all, a, b) && (ex(n, a, b).value == [] ==> Between(all, a, b) == [])
  }

  lemma {:induction false} BeforeSplits(all: seq<Candle>, duration: int, t: int, i: nat)
    requires duration > 0 && Spaced(all, duration) && i < |all|
    ensures all[i].time < t <==> i < Before(all, t)
  {
    var last := |all| - 1;
    if all[last].time >= t && i < last { BeforeSplits(all[..last], duration, t, i); }
  }

  lemma BeforeIs(all: seq<Candle>, duration: int, t: int, n: nat)
    requires duration > 0 && Spaced(all, duration) && n <= |all|
    requires (n > 0 ==> all[n - 1].time < t) && (n < |all| ==> t <= all[n].time)
    ensures Before(all, t) == n
  {
    if n > 0 { BeforeSplits(all, duration, t, n - 1); }
    if n < |all| { BeforeSplits(all, duration, t, n); }
  }

  lemma BeforeGrows(all: seq<Candle>, duration: int, a: int, b: int)
    requires duration > 0 && Spaced(all, duration) && a <= b
    ensures Before(all, a) <= Before(all, b)
  {
    var n := Before(all, a);
    if n > 0 { BeforeSplits(all, duration, b, n - 1); }
  }

  /** Where the next window starts, after an answer of m candles to the window from cursor to end. */
  function NextCursor(chunk: seq<Candle>, duration: int, chunkEnd: int): int {
    if chunk != [] && chunk[|chunk|-1].time + duration < chunkEnd + 1
    then chunk[|chunk|-1].time + duration else chunkEnd + 1
  }

  /** No candle is skipped: exactly the answered ones open before the next window. */
  lemma NextWindowContinues(all: seq<Candle>, duration: int, chunk: seq<Candle>, cursor: int, chunkEnd: int)
    requires duration > 0 && Spaced(all, duration) && cursor <= chunkEnd
    requires chunk <= Between(all, cursor, chunkEnd) && (chunk == [] ==> Between(all, cursor, chunkEnd) == [])
    ensures var c, next := Before(all, cursor), NextCursor(chunk, duration, chunkEnd);
      && c + |chunk| <= |all| && chunk == all[c..c + |chunk|]
      && Before(all, next) == c + |chunk| && cursor < next <= chunkEnd + 1
  {
    hide Spaced, Before;
    var c, h := Before(all, cursor), Before(all, chunkEnd + 1);
    BeforeGrows(all, duration, cursor, chunkEnd + 1);
    var m, next := |chunk|, NextCursor(chunk, duration, chunkEnd);
    ChunkIsSlice(all, c, h, chunk);
    WindowAdvances(all, duration, cursor, chunkEnd, c, h, m, next);
    BeforeIs(all, duration, next, c + m);
  }

  lemma ChunkIsSlice(all: seq<Candle>, c: nat, h: nat, chunk: seq<Candle>)
    requires c <= h <= |all| && chunk <= all[c..h]
    ensures c + |chunk| <= h && chunk == all[c..c + |chunk|]
    ensures chunk != [] ==> chunk[|chunk|-1] == all[c + |chunk| - 1]
  {
  }

  lemma WindowAdvances(all: seq<Candle>, duration: int, cursor: int, chunkEnd: int, c: nat, h: nat, m: nat, next: int)
    requires duration > 0 && Spaced(all, duration) && cursor <= chunkEnd && c + m <= h <= |all|
    requires c == Before(all, cursor) && h == Before(all, chunkEnd + 1) && (m == 0 ==> c == h)
    requires next == if m > 0 && all[c + m - 1].time + duration < chunkEnd + 1
                     then all[c + m - 1].time + duration else chunkEnd + 1
    ensures cursor < next <= chunkEnd + 1
    ensures c + m > 0 ==> all[c + m - 1].time < next
    ensures c + m < |all| ==> next <= all[c + m].time
  {
    if m > 0 {
      BeforeSplits(all, duration, cursor, c + m - 1);
      BeforeSplits(all, duration, chunkEnd + 1, c + m - 1);
      if c + m < |all| { assert all[c + m - 1].time + duration <= all[c + m].time; }
    }
    if c + m < |all| { BeforeSplits(all, duration, chunkEnd + 1, c + m); }
    hide Spaced, Before;
  }

  /** What is still to come opens later than what was fetched. */
  lemma FetchedIsEarlier(all: seq<Candle>, duration: int, lo: nat, c: nat, fetched: seq<Candle>, chunk: seq<Candle>)
    requires duration > 0 && Spaced(all, duration) && lo <= c && c + |chunk| <= |all|
    requires fetched == all[lo..c] && chunk == all[c..c + |chunk|]
    ensures forall x, k :: x in fetched && 0 <= k < |chunk| ==> x.time < chunk[k].time
    ensures forall i, j :: 0 <= i < j < |chunk| ==> chunk[i].time < chunk[j].time
    ensures fetched + chunk == all[lo..c + |chunk|]
  {
  }

  lemma HonestAnswer(ex: Exchange, all: seq<Candle>, n: nat, a: int, b: int)
    requires Honest(ex, all) && a <= b && ex(n, a, b).Some?
    ensures ex(n, a, b).value <= Between(all, a, b)
    ensures ex(n, a, b).value == [] ==> Between(all, a, b) == []
  {
  }

  /** What was fetched when the cursor has passed the end. */
  lemma FetchedUpTo(all: seq<Candle>, duration: int, start: int, cursor: int, end: int)
    requires duration > 0 && Spaced(all, duration) && end <= cursor && start <= cursor
    requires cursor <= end + 1 || cursor == start
    ensures Before(all, start) <= Before(all, cursor)
    ensures var got := all[Before(all, start)..Before(all, cursor)];
      got == Between(all, start, end - 1) || got == Between(all, start, end)
  {
    BeforeGrows(all, duration, start, cursor);
    if end <= start { BeforeGrows(all, duration, end, start); }
  }

  function Times(s: seq<Candle>): set<int> { set x | x in s :: x.time }

  /** Appends the candles of a chunk whose times were not seen yet. */
  method AppendUnseen(candles: seq<Candle>, seen: set<int>, chunk: seq<Candle>)
    returns (candles': seq<Candle>, seen': set<int>)
    requires seen == Times(candles)
    requires forall x, k :: x in candles && 0 <= k < |chunk| ==> x.time < chunk[k].time
    requires forall i, j :: 0 <= i < j < |chunk| ==> chunk[i].time < chunk[j].time
    ensures candles' == candles + chunk && seen' == Times(candles')
  {
    candles', seen' := candles, seen;
    for k := 0 to |chunk|
      invariant candles' == candles + chunk[..k] && seen' == Times(candles')
    {
      assert forall x :: x in candles' ==> x.time < chunk[k].time;
      if chunk[k].time !in seen' {
        seen' := seen' + {chunk[k].time};
        candles' := candles' + [chunk[k]];
      }
    }
  }

  /** Everything from start up to the cursor has been fetched. */
  ghost predicate Fetched(candles: seq<Candle>, seen: set<int>, all: seq<Candle>, start: int, cursor: int) {
    && Before(all, start) <= Before(all, cursor)
    && candles == all[Before(all, start)..Before(all, cursor)]
    && seen == Times(candles)
  }

  /** One request: appends the answer and moves the cursor behind it; None on an error. */
  method FetchWindow(ex: Exchange, ghost all: seq<Candle>, duration: int, request: nat, ghost start: int,
                     cursor: int, chunkEnd: int, candles: seq<Candle>, seen: set<int>)
    returns (r: Option<(seq<Candle>, set<int>, int)>)
    requires duration > 0 && Spaced(all, duration) && Honest(ex, all)
    requires |Between(all, cursor, chunkEnd)| <= MAX_CANDLES_PER_REQUEST
    requires start <= cursor < chunkEnd && Fetched(candles, seen, all, start, cursor)
    ensures r.None? <==> ex(request, cursor, chunkEnd).None?
    ensures r.Some? ==> cursor < r.value.2 <= chunkEnd + 1 && Fetched(r.value.0, r.value.1, all, start, r.value.2)
  {
    hide Spaced, Before, Between, Honest;
    var answer := ex(request, cursor, chunkEnd);
    if answer.None? { return None; }
    var chunk := answer.value;
    HonestAnswer(ex, all, request, cursor, chunkEnd);
    NextWindowContinues(all, duration, chunk, cursor, chunkEnd);
    FetchedIsEarlier(all, duration, Before(all, start), Before(all, cursor), candles, chunk);
    var candles', seen' := AppendUnseen(candles, seen, chunk);
    var next;
    if |chunk| > 0 {
      var lastCandleNext := chunk[|chunk| - 1].time + duration;
      var windowNext := chunkEnd + 1;
      next := if lastCandleNext < windowNext then lastCandleNext else windowNext;
    } else {
      next := chunkEnd + 1;
    }
    hide Times;
    assert next == NextCursor(chunk, duration, chunkEnd);
    assert Fetched(candles', seen', all, start, next);
    r := Some((candles', seen', next));
  }

  /** A window holds no more candles than one answer may carry. */
  lemma WindowFits(all: seq<Candle>, duration: int, cursor: int, chunkEnd: int)
    requires duration > 0 && Spaced(all, duration)
    requires chunkEnd <= cursor + duration * (MAX_CANDLES_PER_REQUEST - 1)
    ensures |Between(all, cursor, chunkEnd)| <= 1000
  {
    hide Before, Spaced;
    var lo, hi := Before(all, cursor), Before(all, chunkEnd + 1);
    if lo < hi {
      BeforeSplits(all, duration, cursor, lo);
      BeforeSplits(all, duration, chunkEnd + 1, hi - 1);
      Spread(all, duration, lo, hi - 1);
      Fewer(duration, hi - 1 - lo, MAX_CANDLES_PER_REQUEST - 1);
    }
  }

  lemma Fewer(duration: int, m: int, n: int)
    requires duration > 0 && duration * m <= duration * n
    ensures m <= n
  {
    assert duration * m - duration * n == duration * (m - n);
  }

  lemma {:induction false} Spread(all: seq<Candle>, duration: int, i: nat, j: nat)
    requires Spaced(all, duration) && i <= j < |all|
    ensures all[i].time + duration * (j - i) <= all[j].time
    decreases j - i
  {
    if i < j {
      Spread(all, duration, i, j - 1);
      assert all[j - 1].time + duration <= all[j].time;
      assert duration * (j - i) == duration * (j - 1 - i) + duration;
    }
  }

  /** Every candle from start up to end is returned once, in ascending order, however short the
      exchange's answers are, unless a request fails; only a candle opening exactly at end may or may not be among
      them. */
  method FetchChartCandles(ex: Exchange, ghost all: seq<Candle>, duration: int, start: int, end: int)
    returns (r: Option<seq<Candle>>)
    requires duration > 0 && Spaced(all, duration) && Honest(ex, all)
    ensures r.Some? ==> r.value == Between(all, start, end - 1) || r.value == Between(all, start, end)
    ensures r.None? ==> exists n, a, b :: start <= a < b <= end && ex(n, a, b).None?
  {
    var window := duration * (MAX_CANDLES_PER_REQUEST - 1);
    var candles: seq<Candle> := [];
    var seen: set<int> := {};
    var cursor := start;
    var request := 0;
    hide Spaced, Before, Between, Honest;
    while cursor < end
      invariant start <= cursor && (cursor <= end + 1 || cursor == start)
      invariant Fetched(candles, seen, all, start, cursor)
      decreases end - cursor
    {
      var chunkEnd := if cursor + window > end then end else cursor + window;
      WindowFits(all, duration, cursor, chunkEnd);
      var answer := FetchWindow(ex, all, duration, request, start, cursor, chunkEnd, candles, seen);
      if answer.None? { return None; }
      request := request + 1;
      candles, seen, cursor := answer.value.0, answer.value.1, answer.value.2;
    }
    FetchedUpTo(all, duration, start, cursor, end);
    r := Some(candles);
  }
}
