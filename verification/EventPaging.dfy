/** Reading a channel's event log page by page and projecting it (internal/events/events.go), over the Store's
    query by durable id (internal/store/store.go). */
module EventPaging {

  type Id = n: nat | n < 0x1_0000_0000_0000_0000

  /** Everything but the id and the channel is one payload. */
  datatype Event = Event(id: Id, channel: string, body: string)

  datatype Error = BadBatchSize | ReadFailed | PageTooLong | OutOfOrder
  datatype Result<T> = Ok(value: T) | Err(error: Error)

  ghost predicate Increasing(s: seq<Event>) {
    (forall i :: 0 <= i < |s| ==> s[i].id > 0) && (forall i, j :: 0 <= i < j < |s| ==> s[i].id < s[j].id)
  }

  ghost predicate InChannel(s: seq<Event>, channel: string) {
    forall i :: 0 <= i < |s| ==> s[i].channel == channel
  }

  function Size(batchSize: int): int {
    if batchSize == 0 then 4096 else batchSize
  }

  function Cursor(s: seq<Event>): Id {
    if s == [] then 0 else s[|s| - 1].id
  }

  /** Answers the n-th query, given the cursor and the page size. */
  type Reader = (nat, Id, nat) -> Result<seq<Event>>

  // ----- The reader's loop -----

  /** What one page adds. */
  ghost predicate Extends(records: seq<Event>, page: seq<Event>, channel: string) {
    Increasing(records + page) && InChannel(page, channel)
  }

  lemma IncreasingNext(s: seq<Event>, item: Event)
    requires Increasing(s)
    ensures Increasing(s + [item]) <==> item.id > Cursor(s)
  {
    var longer := s + [item];
    if item.id > Cursor(s) {
      assert s != [] ==> forall i :: 0 <= i < |s| ==> s[i].id <= s[|s| - 1].id;
    } else {
      assert longer[|s|] == item && (s != [] ==> longer[|s| - 1] == s[|s| - 1]);
    }
  }

  lemma IncreasingNone()
    ensures Increasing([])
  {
  }

  lemma IncreasingPrefix(s: seq<Event>, k: nat)
    requires Increasing(s) && k <= |s|
    ensures Increasing(s[..k])
  {
  }

  /** Every item of an acceptable page passes the check at its turn. */
  lemma ItemPasses(records: seq<Event>, page: seq<Event>, k: nat, channel: string)
    requires Extends(records, page, channel) && k < |page|
    ensures page[k].id > Cursor(records + page[..k]) && page[k].channel == channel
  {
    hide Increasing;
    var all := records + page;
    IncreasingPrefix(all, |records| + k);
    IncreasingPrefix(all, |records| + k + 1);
    assert all[..|records| + k] == records + page[..k];
    assert all[..|records| + k + 1] == (records + page[..k]) + [page[k]];
    IncreasingNext(records + page[..k], page[k]);
  }

  lemma CursorAdvances(records: seq<Event>, page: seq<Event>, channel: string)
    requires Extends(records, page, channel) && page != []
    ensures Cursor(records + page) > Cursor(records)
  {
    var all := records + page;
    assert all[|all| - 1].id > 0;
    if records != [] {
      assert all[|records| - 1] == records[|records| - 1];
    }
  }

  /** Appends a page, or stops at the first event out of order or of another channel. */
  method AppendPage(records: seq<Event>, page: seq<Event>, channel: string) returns (r: Result<seq<Event>>)
    requires Increasing(records)
    ensures r == if Extends(records, page, channel) then Ok(records + page) else Err(OutOfOrder)
  {
    hide Increasing;
    var all, after := records, Cursor(records);
    assert page[..0] == [] && all == records + page[..0];
    for k := 0 to |page|
      invariant all == records + page[..k] && after == Cursor(all)
      invariant Increasing(all) && InChannel(page[..k], channel)
    {
      var item := page[k];
      if item.id <= after || item.channel != channel {
        if Extends(records, page, channel) {
          ItemPasses(records, page, k, channel);
        }
        return Err(OutOfOrder);
      }
      IncreasingNext(all, item);
      assert page[..k + 1] == page[..k] + [item];
      assert records + page[..k + 1] == all + [item];
      all, after := all + [item], item.id;
    }
    assert page[..|page|] == page;
    return Ok(all);
  }

  /** Whatever the Store answers, a returned list is strictly increasing and of the one channel. `pages` counts the
      queries. */
  method Events(channel: string, batchSize: int, read: Reader) returns (r: Result<seq<Event>>, pages: nat)
    ensures r.Ok? ==> Increasing(r.value) && InChannel(r.value, channel)
    ensures batchSize == 0 ==> Paged(channel, 4096, read, pages, r)
    ensures 1 <= batchSize <= 100_000 ==> Paged(channel, batchSize, read, pages, r)
    ensures r == Err(BadBatchSize) <==> batchSize < 0 || batchSize > 100_000
  {
    hide Increasing;
    var size := Size(batchSize);
    IncreasingNone();
    pages := 0;
    if size < 1 || size > 100_000 {
      return Err(BadBatchSize), pages;
    }
    var records := [];
    while true
      invariant Increasing(records) && InChannel(records, channel)
      invariant Gathered(channel, size, read, pages) == Ok(records)
      invariant forall n :: 0 <= n < pages ==> !LastPage(channel, size, read, n)
      decreases 0x1_0000_0000_0000_0000 - Cursor(records)
    {
      var batch := read(pages, Cursor(records), size);
      pages := pages + 1;
      if batch.Err? {
        return Err(ReadFailed), pages;
      }
      if |batch.value| > size {
        return Err(PageTooLong), pages;
      }
      r := AppendPage(records, batch.value, channel);
      if r.Err? || |batch.value| < size {
        return r, pages;
      }
      CursorAdvances(records, batch.value, channel);
      records := r.value;
    }
  }

  /** The records after `n` pages, as a function of the reader. */
  ghost function Gathered(channel: string, size: nat, read: Reader, n: nat): Result<seq<Event>> {
    if n == 0 then Ok([])
    else
      var before := Gathered(channel, size, read, n - 1);
      if before.Err? then before
      else
        var page := read(n - 1, Cursor(before.value), size);
        if page.Err? then Err(ReadFailed)
        else if |page.value| > size then Err(PageTooLong)
        else if Extends(before.value, page.value, channel) then Ok(before.value + page.value)
        else Err(OutOfOrder)
  }

  /** The n-th page is the one the loop stops at. */
  ghost predicate LastPage(channel: string, size: nat, read: Reader, n: nat) {
    var before := Gathered(channel, size, read, n);
    before.Ok? && (Gathered(channel, size, read, n + 1).Err? || |read(n, Cursor(before.value), size).value| < size)
  }

  ghost predicate Paged(channel: string, size: nat, read: Reader, pages: nat, r: Result<seq<Event>>) {
    && pages > 0 && r == Gathered(channel, size, read, pages) && LastPage(channel, size, read, pages - 1)
    && forall n :: 0 <= n < pages - 1 ==> !LastPage(channel, size, read, n)
  }

  // ----- An honest Store -----

  /** The events of the channel behind the cursor, in order. */
  function Select(log: seq<Event>, channel: string, after: Id): seq<Event> {
    if log == [] then []
    else
      var last := log[|log| - 1];
      Select(log[..|log| - 1], channel, after) + if last.channel == channel && last.id > after then [last] else []
  }

  function Take(s: seq<Event>, limit: nat): seq<Event> {
    if |s| <= limit then s else s[..limit]
  }

  function Channel(log: seq<Event>, channel: string): seq<Event> {
    Select(log, channel, 0)
  }

  /** Append-only, with ids that grow. `logs(n)` is the log when the n-th query runs. */
  ghost predicate Growing(logs: nat -> seq<Event>) {
    forall n: nat :: Increasing(logs(n)) && logs(n) <= logs(n + 1)
  }

  /** A query may fail, but what it returns is what the log holds at that moment. */
  ghost predicate Honest(read: Reader, logs: nat -> seq<Event>, channel: string) {
    forall n: nat, after: Id, limit: nat ::
      read(n, after, limit).Ok? ==> read(n, after, limit).value == Take(Select(logs(n), channel, after), limit)
  }

  lemma {:induction false} SelectMembers(log: seq<Event>, channel: string, after: Id)
    ensures forall e :: e in Select(log, channel, after) ==> e in log && e.channel == channel && e.id > after
  {
    if log != [] {
      SelectMembers(log[..|log| - 1], channel, after);
    }
  }

  ghost predicate Below(s: seq<Event>, bound: nat) {
    forall e :: e in s ==> e.id < bound
  }

  lemma IncreasingBelow(log: seq<Event>)
    requires Increasing(log) && log != []
    ensures Increasing(log[..|log| - 1]) && Below(log[..|log| - 1], log[|log| - 1].id) && log[|log| - 1].id > 0
  {
  }

  lemma {:induction false} SelectIncreasing(log: seq<Event>, channel: string, after: Id)
    requires Increasing(log)
    ensures Increasing(Select(log, channel, after)) && InChannel(Select(log, channel, after), channel)
  {
    hide Increasing;
    SelectMembers(log, channel, after);
    if log != [] {
      var front := log[..|log| - 1];
      IncreasingBelow(log);
      SelectIncreasing(front, channel, after);
      SelectMembers(front, channel, after);
      var chosen := Select(front, channel, after);
      CursorBelow(chosen, |chosen|, log[|log| - 1]);
      assert chosen[..|chosen|] == chosen;
      IncreasingNext(chosen, log[|log| - 1]);
      assert chosen + [] == chosen;
    } else {
      IncreasingNone();
    }
  }

  lemma {:induction false} SelectGrows(log: seq<Event>, longer: seq<Event>, channel: string)
    requires log <= longer
    ensures Channel(log, channel) <= Channel(longer, channel)
    decreases |longer|
  {
    if |log| == |longer| {
      assert log == longer;
    } else {
      SelectGrows(log, longer[..|longer| - 1], channel);
    }
  }

  lemma {:induction false} SelectNothing(log: seq<Event>, channel: string, after: Id)
    requires Below(log, after + 1)
    ensures Select(log, channel, after) == []
  {
    if log != [] {
      var front := log[..|log| - 1];
      assert log[|log| - 1] in log && forall e :: e in front ==> e in log;
      SelectNothing(front, channel, after);
    }
  }

  /** Behind the cursor of the first k events of the channel lie exactly the others. */
  lemma {:induction false} SelectAfterCursor(log: seq<Event>, channel: string, k: nat)
    requires Increasing(log) && k <= |Channel(log, channel)|
    ensures Select(log, channel, Cursor(Channel(log, channel)[..k])) == Channel(log, channel)[k..]
  {
    hide Increasing;
    if log == [] {
    } else {
      var front, last := log[..|log| - 1], log[|log| - 1];
      var all, some := Channel(log, channel), Channel(front, channel);
      IncreasingBelow(log);
      if k <= |some| {
        SelectAfterCursor(front, channel, k);
        assert all[..k] == some[..k];
        SelectMembers(front, channel, 0);
        CursorBelow(some, k, last);
      } else {
        assert all[..k] == all && Cursor(all) == last.id;
        SelectNothing(front, channel, last.id);
      }
    }
  }

  lemma CursorBelow(s: seq<Event>, k: nat, last: Event)
    requires k <= |s| && forall e :: e in s ==> e.id < last.id
    ensures last.id > 0 ==> Cursor(s[..k]) < last.id
  {
  }

  lemma TakeFrom(all: seq<Event>, k: nat, limit: nat)
    requires k <= |all|
    ensures all[..k] + Take(all[k..], limit) <= all
    ensures |Take(all[k..], limit)| <= limit
    ensures |Take(all[k..], limit)| < limit ==> all[..k] + Take(all[k..], limit) == all
  {
    if |all| - k <= limit {
      assert all[..k] + all[k..] == all;
    } else {
      assert all[k..][..limit] == all[k..k + limit];
      assert all[..k] + all[k..k + limit] == all[..k + limit];
    }
  }

  lemma ChannelIncreasing(log: seq<Event>, channel: string)
    requires Increasing(log)
    ensures Increasing(Channel(log, channel)) && InChannel(Channel(log, channel), channel)
  {
    SelectIncreasing(log, channel, 0);
  }

  lemma PageIsASlice(all: seq<Event>, k: nat, limit: nat)
    requires k <= |all|
    ensures k + |Take(all[k..], limit)| <= |all|
    ensures Take(all[k..], limit) == all[k..k + |Take(all[k..], limit)|]
    ensures all[..k] + Take(all[k..], limit) == all[..k + |Take(all[k..], limit)|]
  {
    TakeFrom(all, k, limit);
  }

  lemma SliceExtends(all: seq<Event>, k: nat, m: nat, channel: string)
    requires Increasing(all) && InChannel(all, channel) && k <= m <= |all|
    ensures Extends(all[..k], all[k..m], channel)
  {
    hide Increasing;
    IncreasingPrefix(all, m);
    assert all[..k] + all[k..m] == all[..m];
  }

  /** Read behind the cursor of a prefix, one page. */
  function PageAfter(log: seq<Event>, channel: string, records: seq<Event>, limit: nat): seq<Event> {
    Take(Select(log, channel, Cursor(records)), limit)
  }

  lemma PageAfterPrefix(log: seq<Event>, channel: string, records: seq<Event>, limit: nat)
    requires Increasing(log) && records <= Channel(log, channel)
    ensures PageAfter(log, channel, records, limit) == Take(Channel(log, channel)[|records|..], limit)
  {
    hide Increasing, Channel, Select, Take, Cursor;
    assert records == Channel(log, channel)[..|records|];
    SelectAfterCursor(log, channel, |records|);
  }

  /** One honest page extends a prefix of the channel's log. */
  lemma HonestPage(log: seq<Event>, channel: string, records: seq<Event>, limit: nat)
    requires Increasing(log) && records <= Channel(log, channel)
    ensures var page := PageAfter(log, channel, records, limit);
            && |page| <= limit && Extends(records, page, channel) && records + page <= Channel(log, channel)
            && (|page| < limit ==> records + page == Channel(log, channel))
  {
    hide Increasing, Channel, Select, Take, Cursor, Extends, PageAfter;
    var all, k := Channel(log, channel), |records|;
    var page := Take(all[k..], limit);
    assert records == all[..k];
    PageAfterPrefix(log, channel, records, limit);
    TakeFrom(all, k, limit);
    PageIsASlice(all, k, limit);
    ChannelIncreasing(log, channel);
    SliceExtends(all, k, k + |page|, channel);
  }

  /** Pages of an honest Store never fail their checks, and what they gather is a prefix of the log of that moment. */
  lemma {:induction false} GatheredIsPrefix(channel: string, size: nat, read: Reader, logs: nat -> seq<Event>, n: nat)
    requires Growing(logs) && Honest(read, logs, channel)
    ensures var r := Gathered(channel, size, read, n);
            if r.Ok? then r.value <= Channel(logs(n), channel) else r.error == ReadFailed
  {
    hide Increasing, Extends, Channel, Select, Take;
    if n == 0 {
      assert [] <= Channel(logs(0), channel);
    } else {
      GatheredIsPrefix(channel, size, read, logs, n - 1);
      var before := Gathered(channel, size, read, n - 1);
      if before.Ok? {
        LogsGrow(logs, n - 1, n);
        HonestPage(logs(n - 1), channel, before.value, size);
        SelectGrows(logs(n - 1), logs(n), channel);
      }
    }
  }

  /** A completed reading is the channel's whole log as it was at the last query; it can only fail with a failed
      query. */
  lemma ReadingIsTheLog(channel: string, size: nat, read: Reader, logs: nat -> seq<Event>, pages: nat,
                        r: Result<seq<Event>>)
    requires Growing(logs) && Honest(read, logs, channel) && Paged(channel, size, read, pages, r)
    ensures r == Ok(Channel(logs(pages - 1), channel)) || r == Err(ReadFailed)
  {
    hide Increasing, Extends;
    GatheredIsPrefix(channel, size, read, logs, pages);
    GatheredIsPrefix(channel, size, read, logs, pages - 1);
    var before := Gathered(channel, size, read, pages - 1);
    assert Increasing(logs(pages - 1));
    HonestPage(logs(pages - 1), channel, before.value, size);
  }

  lemma {:induction false} LogsGrow(logs: nat -> seq<Event>, n: nat, m: nat)
    requires Growing(logs) && n <= m
    ensures logs(n) <= logs(m)
    decreases m
  {
    if n < m {
      LogsGrow(logs, n, m - 1);
      assert logs(m - 1) <= logs(m - 1 + 1);
    }
  }

  /** With events appended between pages, a returned list is still a prefix of every later log. */
  lemma ReadingIsAPrefix(channel: string, size: nat, read: Reader, logs: nat -> seq<Event>, pages: nat,
                         r: Result<seq<Event>>, m: nat)
    requires Growing(logs) && Honest(read, logs, channel) && Paged(channel, size, read, pages, r)
    requires r.Ok? && pages - 1 <= m
    ensures r.value <= Channel(logs(m), channel)
  {
    ReadingIsTheLog(channel, size, read, logs, pages, r);
    LogsGrow(logs, pages - 1, m);
    SelectGrows(logs(pages - 1), logs(m), channel);
  }

  /** On a log at rest every batch size reads the same list. */
  lemma BatchSizeIsIrrelevant(channel: string, a: nat, b: nat, readA: Reader, readB: Reader, log: seq<Event>,
                              pagesA: nat, pagesB: nat, ra: Result<seq<Event>>, rb: Result<seq<Event>>)
    requires Increasing(log)
    requires Honest(readA, (n: nat) => log, channel) && Paged(channel, a, readA, pagesA, ra) && ra.Ok?
    requires Honest(readB, (n: nat) => log, channel) && Paged(channel, b, readB, pagesB, rb) && rb.Ok?
    ensures ra == rb == Ok(Channel(log, channel))
  {
    ReadingIsTheLog(channel, a, readA, (n: nat) => log, pagesA, ra);
    ReadingIsTheLog(channel, b, readB, (n: nat) => log, pagesB, rb);
  }

  // ----- The projection -----

  datatype Outcome = Written | Invalid(index: nat) | Disordered(index: nat)

  ghost predicate InOrderAt(records: seq<Event>, k: nat) {
    k < |records| && (k > 0 ==> records[k - 1].id < records[k].id)
  }

  lemma IncreasingInOrder(records: seq<Event>)
    requires Increasing(records)
    ensures forall k: nat :: k < |records| ==> InOrderAt(records, k)
  {
  }

  /** Writes every record up to the first that is invalid or out of order. */
  method Write(records: seq<Event>, valid: Event -> bool, redact: string -> string) returns (outcome: Outcome,
               lines: seq<Event>)
    ensures |lines| <= |records|
    ensures forall i :: 0 <= i < |lines| ==>
              lines[i] == records[i].(body := redact(records[i].body)) && valid(records[i]) && InOrderAt(records, i)
    ensures outcome.Written? <==> |lines| == |records|
    ensures outcome.Invalid? ==> outcome.index == |lines| && !valid(records[|lines|])
    ensures outcome.Disordered? ==> outcome.index == |lines| && valid(records[|lines|]) && !InOrderAt(records, |lines|)
  {
    var previous := 0;
    lines := [];
    for index := 0 to |records|
      invariant |lines| == index && (index > 0 ==> previous == records[index - 1].id)
      invariant forall i :: 0 <= i < index ==>
                  lines[i] == records[i].(body := redact(records[i].body)) && valid(records[i]) && InOrderAt(records, i)
    {
      var record := records[index];
      if !valid(record) {
        return Invalid(index), lines;
      }
      if index > 0 && record.id <= previous {
        return Disordered(index), lines;
      }
      previous := record.id;
      lines := lines + [record.(body := redact(record.body))];
    }
    outcome := Written;
  }

  /** The projection of a Store reading is never out of order, whatever the Store answered. */
  method Project(channel: string, batchSize: int, read: Reader, valid: Event -> bool, redact: string -> string)
    returns (outcome: Result<Outcome>, lines: seq<Event>)
    ensures outcome.Ok? ==> !outcome.value.Disordered?
    ensures Increasing(lines) && InChannel(lines, channel)
  {
    var records, pages := Events(channel, batchSize, read);
    if records.Err? {
      return Err(records.error), [];
    }
    IncreasingInOrder(records.value);
    var written;
    written, lines := Write(records.value, valid, redact);
    outcome := Ok(written);
  }
}
