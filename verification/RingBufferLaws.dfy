/**
  Paging through the telemetry buffer (collector/ring_buffer.rs) while entries keep
  coming in and falling out: nothing twice, nothing out of order, nothing missed.
*/
module RingBufferLaws {
  import opened Utf8Text
  import opened RingBuffer

  // ---- One page ---------------------------------------------------------------

  /** No time limit, or an item at or behind it. */
  predicate Recent(item: Telemetry, since: Option<int>) {
    since.None? || item.ts >= since.value
  }

  /** The entries of a page run down, lie between its ends, and pass the filter. */
  ghost predicate Descends(history: seq<Telemetry>, oldest: nat, i: int, since: Option<int>, page: Page) {
    && (forall j, k :: 0 <= j < k < |page.numbers| ==> page.numbers[j] > page.numbers[k])
    && (forall j :: 0 <= j < |page.numbers| ==>
          oldest <= page.numbers[j] <= i && page.numbers[j] < |history| && Recent(history[page.numbers[j]], since))
    && (page.next.Some? ==> page.numbers != [] && page.next.value + 1 == page.numbers[|page.numbers| - 1])
  }

  /** Whether the page's window, from its start down to where it stops, has this number in it. */
  predicate InWindow(i: int, page: Page, x: nat) {
    x <= i && (page.next.Some? ==> page.next.value < x)
  }

  lemma {:induction false} ScanDescends(history: seq<Telemetry>, oldest: nat, i: int, since: Option<int>, limit: nat)
    requires i < |history| && limit > 0
    ensures Descends(history, oldest, i, since, Scan(history, oldest, i, since, limit))
    ensures var page := Scan(history, oldest, i, since, limit);
      |page.numbers| <= limit && (page.next.Some? ==> |page.numbers| == limit && page.next.value + limit <= i)
    decreases i + 1
  {
    hide Scan, Descends, Recent, Passes;
    if i < oldest {
      ScanBelow(history, oldest, i, since, limit);
      NothingDescends(history, oldest, i, since);
    } else {
      ScanUnfold(history, oldest, i, since, limit);
      PassesIsRecent(history[i], since);
      if !Passes(history[i], since) {
        ScanDescends(history, oldest, i - 1, since, limit);
        Wider(history, oldest, i, since, Scan(history, oldest, i - 1, since, limit));
      } else if limit == 1 {
        OneDescends(history, oldest, i, since);
      } else {
        ScanDescends(history, oldest, i - 1, since, limit - 1);
        Longer(history, oldest, i, since, Scan(history, oldest, i - 1, since, limit - 1));
      }
    }
  }

  lemma PassesIsRecent(item: Telemetry, since: Option<int>)
    ensures Passes(item, since) <==> Recent(item, since)
  {
  }

  lemma NothingDescends(history: seq<Telemetry>, oldest: nat, i: int, since: Option<int>)
    ensures Descends(history, oldest, i, since, Page([], None))
  {
  }

  lemma OneDescends(history: seq<Telemetry>, oldest: nat, i: int, since: Option<int>)
    requires oldest <= i < |history| && Recent(history[i], since)
    ensures Descends(history, oldest, i, since, Page([i], if i == 0 then None else Some(i - 1)))
  {
    hide Recent;
  }

  lemma Wider(history: seq<Telemetry>, oldest: nat, i: int, since: Option<int>, page: Page)
    requires Descends(history, oldest, i - 1, since, page)
    ensures Descends(history, oldest, i, since, page)
  {
    hide Recent;
  }

  lemma Longer(history: seq<Telemetry>, oldest: nat, i: int, since: Option<int>, rest: Page)
    requires oldest <= i < |history| && Recent(history[i], since) && Descends(history, oldest, i - 1, since, rest)
    ensures Descends(history, oldest, i, since, rest.(numbers := [i] + rest.numbers))
  {
    hide Recent;
  }

  /** A page has exactly the kept entries of its window that pass the filter. */
  lemma {:induction false} ScanIsComplete(history: seq<Telemetry>, oldest: nat, i: int, since: Option<int>, limit: nat, x: nat)
    requires i < |history| && limit > 0
    ensures var page := Scan(history, oldest, i, since, limit);
      x in page.numbers <==> InWindow(i, page, x) && oldest <= x && Recent(history[x], since)
    decreases i + 1
  {
    if i >= oldest {
      if !Passes(history[i], since) {
        ScanIsComplete(history, oldest, i - 1, since, limit, x);
      } else if limit > 1 {
        ScanIsComplete(history, oldest, i - 1, since, limit - 1, x);
        ScanDescends(history, oldest, i - 1, since, limit - 1);
      } else if i == 0 {
      }
    }
  }

  // ---- A paging session -------------------------------------------------------

  /** What had been pushed when each page was asked for; pushes only add. */
  ghost predicate Growing(histories: seq<seq<Telemetry>>) {
    forall i, j :: 0 <= i < j < |histories| ==> histories[i] <= histories[j]
  }

  /** The pages of a client that follows `next` until there is none, or stops asking. */
  function Session(histories: seq<seq<Telemetry>>, capacity: nat, since: Option<int>, limit: nat, cursor: Option<nat>)
      : seq<Page>
    decreases |histories|
  {
    if histories == [] then []
    else
      var page := PageOf(histories[0], capacity, since, limit, cursor);
      [page] + (if page.next.None? then [] else Session(histories[1..], capacity, since, limit, page.next))
  }

  function Numbers(pages: seq<Page>): seq<nat> {
    if pages == [] then [] else pages[0].numbers + Numbers(pages[1..])
  }

  predicate Finished(pages: seq<Page>) {
    pages != [] && pages[|pages| - 1].next.None?
  }

  ghost predicate Falling(numbers: seq<nat>) {
    forall j, k :: 0 <= j < k < |numbers| ==> numbers[j] > numbers[k]
  }

  /** No entry is returned twice, and the numbers fall over the whole session. */
  lemma {:induction false} SessionFalls(
      histories: seq<seq<Telemetry>>, capacity: nat, since: Option<int>, limit: nat, cursor: Option<nat>)
    ensures var numbers := Numbers(Session(histories, capacity, since, limit, cursor));
      Falling(numbers) && (cursor.Some? ==> forall j :: 0 <= j < |numbers| ==> numbers[j] <= cursor.value)
    decreases |histories|
  {
    hide Scan, Recent, Falling;
    if histories == [] {
      assert Falling([]) by { NoneFalls(); }
    } else {
      var page := PageOf(histories[0], capacity, since, limit, cursor);
      ScanDescends(histories[0], Oldest(|histories[0]|, capacity), Start(|histories[0]|, cursor), since, Least(limit));
      var pages := Session(histories, capacity, since, limit, cursor);
      assert pages[1..] == if page.next.None? then [] else Session(histories[1..], capacity, since, limit, page.next);
      var rest := Numbers(pages[1..]);
      if page.next.Some? {
        SessionFalls(histories[1..], capacity, since, limit, page.next);
      } else {
        assert Falling([]) by { NoneFalls(); }
      }
      FallingAppend(page.numbers, rest);
    }
  }

  lemma NoneFalls()
    ensures Falling([])
  {
  }

  lemma FallingAppend(a: seq<nat>, b: seq<nat>)
    requires (forall j, k :: 0 <= j < k < |a| ==> a[j] > a[k]) && Falling(b)
    requires b != [] && a != [] ==> forall j :: 0 <= j < |b| ==> b[j] < a[|a| - 1]
    ensures Falling(a + b)
  {
    forall j, k | 0 <= j < k < |a + b|
      ensures (a + b)[j] > (a + b)[k]
    {
      if j < |a| && k >= |a| {
        assert b[k - |a|] < a[|a| - 1] <= a[j];
      }
    }
  }

  /** The page whose window the number falls into. */
  function Turn(pages: seq<Page>, x: nat): nat {
    if pages == [] || pages[0].next.None? || pages[0].next.value < x then 0 else 1 + Turn(pages[1..], x)
  }

  /**
    A finished session returns an entry that was there at the first page and passes
    the filter exactly when it was not evicted before its own page.
  */
  lemma {:induction false} SessionIsComplete(
      histories: seq<seq<Telemetry>>, capacity: nat, since: Option<int>, limit: nat, cursor: Option<nat>, x: nat)
    requires Growing(histories) && Finished(Session(histories, capacity, since, limit, cursor))
    requires histories != [] && x < |histories[0]| && (cursor.Some? ==> x <= cursor.value)
    ensures var pages := Session(histories, capacity, since, limit, cursor);
      && Turn(pages, x) < |histories|
      && (x in Numbers(pages)
          <==> Recent(histories[0][x], since) && x + capacity >= |histories[Turn(pages, x)]|)
    decreases |histories|
  {
    hide Scan, Recent, Growing;
    var history := histories[0];
    var page := PageOf(history, capacity, since, limit, cursor);
    var oldest, start := Oldest(|history|, capacity), Start(|history|, cursor);
    ScanDescends(history, oldest, start, since, Least(limit));
    ScanIsComplete(history, oldest, start, since, Least(limit), x);
    var pages := Session(histories, capacity, since, limit, cursor);
    var rest := if page.next.None? then [] else Session(histories[1..], capacity, since, limit, page.next);
    assert pages == [page] + rest && pages[1..] == rest;
    assert Numbers(pages) == page.numbers + Numbers(rest);
    if page.next.Some? {
      SessionFalls(histories[1..], capacity, since, limit, page.next);
      if x <= page.next.value {
        assert pages[|pages| - 1] == rest[|rest| - 1] && histories[1..] != [] by { RestFinishes(page, rest, pages); NoHistoryNoPage(histories[1..], capacity, since, limit, page.next); }
        GrowingRest(histories);
        SessionIsComplete(histories[1..], capacity, since, limit, page.next, x);
        assert histories[1..][Turn(rest, x)] == histories[Turn(pages, x)];
      }
    }
  }

  lemma RestFinishes(page: Page, rest: seq<Page>, pages: seq<Page>)
    requires pages == [page] + rest && page.next.Some? && Finished(pages)
    ensures rest != [] && Finished(rest) && pages[|pages| - 1] == rest[|rest| - 1]
  {
  }

  lemma NoHistoryNoPage(
      histories: seq<seq<Telemetry>>, capacity: nat, since: Option<int>, limit: nat, cursor: Option<nat>)
    ensures histories == [] ==> Session(histories, capacity, since, limit, cursor) == []
  {
  }

  lemma GrowingRest(histories: seq<seq<Telemetry>>)
    requires Growing(histories) && |histories| > 1
    ensures Growing(histories[1..]) && histories[0] <= histories[1]
  {
  }

  /**
    A session ends: each page that is not the last is full and moves on by its
    length, so with enough requests the last page is reached.
  */
  lemma {:induction false} SessionEnds(
      histories: seq<seq<Telemetry>>, capacity: nat, since: Option<int>, limit: nat, cursor: Option<nat>, reach: nat)
    requires cursor.Some? ==> cursor.value < reach
    requires cursor.None? ==> histories != [] && |histories[0]| <= reach
    requires |histories| * Least(limit) >= reach + Least(limit)
    ensures Finished(Session(histories, capacity, since, limit, cursor))
    decreases |histories|
  {
    hide Scan, Recent;
    assert histories != [] by { SomeLeft(histories, limit, reach); }
    var history := histories[0];
    var page := PageOf(history, capacity, since, limit, cursor);
    ScanDescends(history, Oldest(|history|, capacity), Start(|history|, cursor), since, Least(limit));
    var pages := Session(histories, capacity, since, limit, cursor);
    if page.next.Some? {
      assert page.next.value + Least(limit) < reach;
      OneLess(|histories|, Least(limit), reach);
      SessionEnds(histories[1..], capacity, since, limit, page.next, reach - Least(limit));
      var rest := Session(histories[1..], capacity, since, limit, page.next);
      assert pages == [page] + rest && pages[|pages| - 1] == rest[|rest| - 1];
    }
  }

  lemma SomeLeft<T>(s: seq<T>, limit: nat, reach: nat)
    requires |s| * Least(limit) >= reach + Least(limit)
    ensures s != []
  {
  }

  lemma OneLess(n: nat, limit: nat, reach: nat)
    requires n * limit >= reach + limit && reach >= limit && n > 0
    ensures (n - 1) * limit >= (reach - limit) + limit
  {
    assert (n - 1) * limit == n * limit - limit;
  }
}
