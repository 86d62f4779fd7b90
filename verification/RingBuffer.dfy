/**
  The bounded telemetry buffer and its pages (collector/ring_buffer.rs): newest
  entries first, each page going on where the one before it stopped.
*/
module RingBuffer {
  import opened Utf8Text

  datatype Telemetry = Telemetry(ts: int, data: int)

  datatype Entry = Entry(number: nat, item: Telemetry)

  // ---- Pages over everything pushed so far ------------------------------------

  /** The first entry that is still kept. */
  function Oldest(pushed: nat, capacity: nat): (k: nat)
    ensures k <= pushed
  {
    if pushed <= capacity then 0 else pushed - capacity
  }

  predicate Passes(item: Telemetry, since: Option<int>) {
    since.Some? ==> item.ts >= since.value
  }

  /** The numbers of the entries on a page, and where the next page starts. */
  datatype Page = Page(numbers: seq<nat>, next: Option<nat>)

  /** Every number stands for an entry that was pushed. */
  ghost predicate Numbered(history: seq<Telemetry>, numbers: seq<nat>) {
    forall i :: 0 <= i < |numbers| ==> numbers[i] < |history|
  }

  function Scan(history: seq<Telemetry>, oldest: nat, i: int, since: Option<int>, limit: nat): (page: Page)
    requires i < |history| && limit > 0
    ensures Numbered(history, page.numbers)
    decreases i + 1
  {
    if i < oldest then Page([], None)
    else if !Passes(history[i], since) then Scan(history, oldest, i - 1, since, limit)
    else if limit == 1 then Page([i], if i == 0 then None else Some(i - 1))
    else var rest := Scan(history, oldest, i - 1, since, limit - 1); rest.(numbers := [i] + rest.numbers)
  }

  /** The limit a query works with. */
  function Least(limit: nat): (n: nat)
    ensures n > 0
  {
    if limit == 0 then 1 else limit
  }

  function Start(pushed: nat, cursor: Option<nat>): int {
    if cursor.Some? then Min(cursor.value, pushed - 1) else pushed - 1
  }

  function PageOf(history: seq<Telemetry>, capacity: nat, since: Option<int>, limit: nat, cursor: Option<nat>)
      : (page: Page)
    ensures Numbered(history, page.numbers)
  {
    Scan(history, Oldest(|history|, capacity), Start(|history|, cursor), since, Least(limit))
  }

  ghost function Items(history: seq<Telemetry>, numbers: seq<nat>): seq<Telemetry>
    requires Numbered(history, numbers)
  {
    seq(|numbers|, i requires 0 <= i < |numbers| => history[numbers[i]])
  }

  lemma ItemsAre(history: seq<Telemetry>, numbers: seq<nat>)
    requires Numbered(history, numbers)
    ensures |Items(history, numbers)| == |numbers|
    ensures forall i :: 0 <= i < |numbers| ==> Items(history, numbers)[i] == history[numbers[i]]
  {
  }

  // ---- The buffer in place ----------------------------------------------------

  class Buffer {
    var entries: seq<Entry>
    const capacity: nat
    var head: nat
    ghost var history: seq<Telemetry>

    /** The entries are the last pushes, numbered from the first push on. */
    ghost predicate Valid()
      reads this
    {
      && capacity > 0 && head == |history|
      && |entries| == Min(capacity, |history|)
      && forall i :: 0 <= i < |entries| ==>
           entries[i] == Entry(Oldest(|history|, capacity) + i, history[Oldest(|history|, capacity) + i])
    }

    constructor (capacity: nat)
      ensures Valid() && history == [] && this.capacity == Least(capacity)
    {
      this.capacity := if capacity == 0 then 1 else capacity;
      entries, head, history := [], 0, [];
    }

    method Push(item: Telemetry)
      requires Valid()
      modifies this
      ensures Valid() && history == old(history) + [item]
    {
      var number := head;
      head := head + 1;
      if |entries| >= capacity { entries := entries[1..]; }
      entries := entries + [Entry(number, item)];
      history := history + [item];
    }

    method Query(since: Option<int>, limit: nat, cursor: Option<nat>)
      returns (results: seq<Telemetry>, next: Option<nat>)
      requires Valid()
      ensures var page := PageOf(history, capacity, since, limit, cursor);
        && next == page.next && |results| == |page.numbers|
        && forall i :: 0 <= i < |results| ==> results[i] == history[page.numbers[i]]
    {
      hide Scan, Items, Numbered, Holds;
      var startSeq := if cursor.Some? then cursor.value else if head == 0 then 0 else head - 1;
      assert Holds(entries, history, Oldest(|history|, capacity)) by { EntriesHold(); }
      results, next :=
        ReadPage(entries, since, if limit == 0 then 1 else limit, startSeq, history, Oldest(|history|, capacity));
      ItemsAre(history, PageOf(history, capacity, since, limit, cursor).numbers);
    }

    lemma EntriesHold()
      requires Valid()
      ensures Holds(entries, history, Oldest(|history|, capacity))
    {
    }
  }

  /** The entries are the pushes from this number on. */
  ghost predicate Holds(entries: seq<Entry>, history: seq<Telemetry>, oldest: nat) {
    && oldest + |entries| == |history|
    && forall i :: 0 <= i < |entries| ==> entries[i] == Entry(oldest + i, history[oldest + i])
  }

  lemma HoldsAt(entries: seq<Entry>, history: seq<Telemetry>, oldest: nat, i: nat)
    requires Holds(entries, history, oldest) && i < |entries|
    ensures oldest + |entries| == |history| && entries[i] == Entry(oldest + i, history[oldest + i])
  {
  }

  /** The loop of a query: newest entries first, those at or before the start that pass the filter. */
  method ReadPage(entries: seq<Entry>, since: Option<int>, limit: nat, startSeq: nat,
                  ghost history: seq<Telemetry>, ghost oldest: nat)
    returns (results: seq<Telemetry>, next: Option<nat>)
    requires Holds(entries, history, oldest) && limit > 0 && oldest + |entries| == |history|
    ensures var page := Scan(history, oldest, Min(startSeq, |history| - 1), since, limit);
      results == Items(history, page.numbers) && next == page.next
  {
    hide Scan, Items, Numbered, Onto, Holds;
    results, next := [], None;
    ghost var numbers: seq<nat> := [];
    ghost var page := Scan(history, oldest, Min(startSeq, |history| - 1), since, limit);
    NoneNumbered(history);
    OntoNone(page);
    var i := |entries|;
    while i > 0
      invariant 0 <= i <= |entries| && |numbers| < limit && |results| == |numbers| && next == None
      invariant Numbered(history, numbers) && results == Items(history, numbers)
      invariant Onto(numbers, Scan(history, oldest, Min(startSeq, oldest + i - 1), since, limit - |numbers|)) == page
    {
      i := i - 1;
      var entry := entries[i];
      HoldsAt(entries, history, oldest, i);
      if entry.number > startSeq { continue; }
      ScanUnfold(history, oldest, entry.number, since, limit - |numbers|);
      if since.Some? && entry.item.ts < since.value { continue; }
      MoreNumbered(history, numbers, entry.number);
      OntoMore(numbers, entry.number, Scan(history, oldest, entry.number - 1, since, Least(limit - |numbers| - 1)));
      ghost var before := numbers;
      results, numbers := results + [entry.item], numbers + [entry.number];
      if |results| >= limit {
        next := if entry.number == 0 then None else Some(entry.number - 1);
        OntoLast(before, entry.number, next);
        return;
      }
    }
    ScanBelow(history, oldest, Min(startSeq, oldest - 1), since, limit - |numbers|);
    OntoNothing(numbers);
  }

  lemma OntoNothing(numbers: seq<nat>)
    ensures Onto(numbers, Page([], None)) == Page(numbers, None)
  {
    assert numbers + [] == numbers;
  }

  function Onto(numbers: seq<nat>, page: Page): Page {
    page.(numbers := numbers + page.numbers)
  }

  lemma NoneNumbered(history: seq<Telemetry>)
    ensures Numbered(history, []) && Items(history, []) == []
  {
  }

  lemma OntoNone(page: Page)
    ensures Onto([], page) == page
  {
    assert [] + page.numbers == page.numbers;
  }

  lemma MoreNumbered(history: seq<Telemetry>, numbers: seq<nat>, n: nat)
    requires Numbered(history, numbers) && n < |history|
    ensures Numbered(history, numbers + [n])
    ensures Items(history, numbers + [n]) == Items(history, numbers) + [history[n]]
  {
  }

  lemma OntoMore(numbers: seq<nat>, n: nat, page: Page)
    ensures Onto(numbers, page.(numbers := [n] + page.numbers)) == Onto(numbers + [n], page)
  {
    assert numbers + ([n] + page.numbers) == numbers + [n] + page.numbers;
  }

  lemma OntoLast(numbers: seq<nat>, n: nat, next: Option<nat>)
    ensures Onto(numbers, Page([n], next)) == Page(numbers + [n], next)
  {
  }

  lemma ScanUnfold(history: seq<Telemetry>, oldest: nat, n: nat, since: Option<int>, limit: nat)
    requires oldest <= n < |history| && limit > 0
    ensures Scan(history, oldest, n, since, limit)
         == if !Passes(history[n], since) then Scan(history, oldest, n - 1, since, limit)
            else if limit == 1 then Page([n], if n == 0 then None else Some(n - 1))
            else var rest := Scan(history, oldest, n - 1, since, limit - 1); rest.(numbers := [n] + rest.numbers)
  {
  }

  lemma ScanBelow(history: seq<Telemetry>, oldest: nat, i: int, since: Option<int>, limit: nat)
    requires i < |history| && i < oldest && limit > 0
    ensures Scan(history, oldest, i, since, limit) == Page([], None)
  {
  }
}
