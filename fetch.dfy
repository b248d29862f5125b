/** The harvesting loop of the historical harvester: the per-day paginated
    fetcher with its bounded retry, and the driver that walks the date range
    and owns the output file.

    The search API is an oracle `api(day, offset, attempt)` giving the
    outcome of the `attempt`-th request (counted from 1) for the page at
    `offset` of `day`; every run of the harvester against the real API is a
    run against some such oracle. Days are proleptic Gregorian day numbers. */
module HistoricalFetch {
  import opened PyValues
  import opened AdNormalizer

  /** Page size. */
  const LIMIT: nat := 100
  /** The largest offset that is still requested. */
  const MAX_OFFSET: nat := 2000
  /** Requests per offset before the rest of the day is given up. */
  const MAX_RETRIES: nat := 3
  /** Occupation codes that are counted, never filtered on. */
  const TARGET_SSYK4: set<string> := {
    "2431", "2433", "2511", "2512", "2513", "2519",
    "2521", "2522", "2523", "2621"}
  /** The configured range: 2022-11-30 and 2025-11-06 as day numbers. */
  const START_DAY: int := 738489
  const END_DAY: int := 739561

  /** The outcome of one request to the search API. */
  datatype Response =
    | Timeout           // ReadTimeout or ConnectionError: caught and retried
    | Raised            // any other exception, HTTPError from raise_for_status among them: not caught
    | NotJson           // a successful response whose body does not parse: resp.json() raises
    | Body(data: Json)  // a successful response and its decoded body

  type Api = (int, nat, nat) -> Response

  /** The attempt, from `attempt` on, at which the retry loop for `offset`
      gets something other than a timeout; MAX_RETRIES + 1 when every
      remaining attempt times out. */
  function FirstAnswer(api: Api, day: int, offset: nat, attempt: nat): (a: nat)
    requires 1 <= attempt <= MAX_RETRIES + 1
    decreases MAX_RETRIES + 1 - attempt
    ensures attempt <= a <= MAX_RETRIES + 1
    ensures forall b | attempt <= b < a :: api(day, offset, b).Timeout?
    ensures a <= MAX_RETRIES ==> !api(day, offset, a).Timeout?
  {
    if attempt > MAX_RETRIES || !api(day, offset, attempt).Timeout? then attempt
    else FirstAnswer(api, day, offset, attempt + 1)
  }

  /** What the retry loop for `offset` ends with: the first answer that is
      not a timeout, or Timeout when all MAX_RETRIES attempts timed out (the
      `resp is None` case). */
  function PageResponse(api: Api, day: int, offset: nat): (r: Response)
    ensures r.Timeout? <==> forall a | 1 <= a <= MAX_RETRIES :: api(day, offset, a).Timeout?
  {
    var a := FirstAnswer(api, day, offset, 1);
    if a <= MAX_RETRIES then api(day, offset, a) else Timeout
  }

  /** How many requests the retry loop for `offset` sends. */
  function PageCalls(api: Api, day: int, offset: nat): (n: nat)
    ensures 1 <= n <= MAX_RETRIES
  {
    var a := FirstAnswer(api, day, offset, 1);
    if a <= MAX_RETRIES then a else MAX_RETRIES
  }

  /** `data.get("hits") or data.get("results") or []`: a falsy `hits`, an
      empty list among them, falls through to `results`. */
  function HitsOf(data: Json): (hits: Json)
    requires data.JObj?
    ensures Truthy(hits) <==> Truthy(Get(data, "hits")) || Truthy(Get(data, "results"))
    ensures Truthy(Get(data, "hits")) ==> hits == Get(data, "hits")
    ensures !Truthy(Get(data, "hits")) && Truthy(Get(data, "results")) ==> hits == Get(data, "results")
    ensures !Truthy(hits) ==> hits == JList([])
  {
    Or(Or(Get(data, "hits"), Get(data, "results")), JList([]))
  }

  /** `normalize(ad)` for one element of the hit list: anything but a dict
      has no `.get` and raises AttributeError. */
  function NormalizeHit(hit: Json): (r: Py<NormalizedAd>)
    ensures r.Raises? <==> !hit.JObj? || EmployerName(hit).Raises?
    ensures r.Returns? ==> Truthy(r.value.sourceType) && r.value.ssyk4 == ExtractSsyk4(hit)
  {
    if hit.JObj? then Normalize(hit) else Raises
  }

  /** The normaliser the hit loop applies. The harvester applies
      `NormalizeHit`; the loops below are stated and proved for any
      normaliser, so that what they do with records is independent of how
      a record is built. */
  type Normalizer = Json -> Py<NormalizedAd>

  /** What the loop over one page's hits writes, and whether it reached the
      end of the list (false: a hit raised, and the exception propagates). */
  datatype Batch = Batch(records: seq<NormalizedAd>, complete: bool)

  function WriteBatch(normalize: Normalizer, hits: seq<Json>): (b: Batch)
    ensures |b.records| <= |hits|
    ensures b.complete <==> |b.records| == |hits|
  {
    BatchFrom(normalize, hits, 0)
  }

  /** The records the hit loop writes from hit `i` on. */
  function BatchFrom(normalize: Normalizer, hits: seq<Json>, i: nat): (b: Batch)
    requires i <= |hits|
    decreases |hits| - i
    ensures |b.records| <= |hits| - i
    ensures b.complete <==> |b.records| == |hits| - i
  {
    if i == |hits| then Batch([], true)
    else
      match normalize(hits[i])
      case Raises => Batch([], false)
      case Returns(n) =>
        var rest := BatchFrom(normalize, hits, i + 1);
        Batch([n] + rest.records, rest.complete)
  }

  /** Why the fetch of a day stopped. */
  datatype Stop =
    | OffsetCeiling     // the next offset would exceed MAX_OFFSET
    | RetriesExhausted  // every attempt at an offset timed out
    | EmptyBatch        // a page without hits
    | ShortPage         // a page with fewer than LIMIT hits
    | Crashed           // an exception left fetch_chunk

  /** How one iteration of the page loop ends: with the next offset, or
      with the end of the day. */
  datatype PageEnd = NextPage | Halt(stop: Stop)

  /** The fetch of one day from `offset` on: the offsets requested, the
      requests sent, the records written in order, and why it stopped. */
  datatype DayRun = DayRun(offsets: seq<nat>, calls: nat, records: seq<NormalizedAd>, stop: Stop)

  /** A run that first requested `offsets` with `calls` requests and wrote
      `records`, then went on as `rest`. */
  function Then(offsets: seq<nat>, calls: nat, records: seq<NormalizedAd>, rest: DayRun): DayRun {
    DayRun(offsets + rest.offsets, calls + rest.calls, records + rest.records, rest.stop)
  }

  /** Two runs one after the other, then the rest: the same as both at once. */
  lemma ThenThen(o1: seq<nat>, c1: nat, r1: seq<NormalizedAd>, o2: seq<nat>, c2: nat, r2: seq<NormalizedAd>, rest: DayRun)
    ensures Then(o1, c1, r1, Then(o2, c2, r2, rest)) == Then(o1 + o2, c1 + c2, r1 + r2, rest)
  {
    AppendAssoc(o1, o2, rest.offsets);
    AppendAssoc(r1, r2, rest.records);
  }

  /** A run followed by nothing more is that run. */
  lemma ThenDone(o: seq<nat>, c: nat, r: seq<NormalizedAd>, stop: Stop)
    ensures Then(o, c, r, DayRun([], 0, [], stop)) == DayRun(o, c, r, stop)
  {
    assert o + [] == o && r + [] == r;
  }

  /** The page loop from `offset` on. */
  function DayFrom(api: Api, normalize: Normalizer, day: int, offset: nat): DayRun
    decreases if offset <= MAX_OFFSET then MAX_OFFSET + 1 - offset else 0, 1
  {
    if offset > MAX_OFFSET then DayRun([], 0, [], OffsetCeiling)
    else PageRun(api, normalize, day, offset)
  }

  /** One iteration of the page loop: what it writes and how it goes on. */
  datatype Page = Page(records: seq<NormalizedAd>, end: PageEnd)

  /** The iteration that requests `offset`: the retry loop, the hits, the
      hit loop, and the decision to go on. A truthy `hits` that is not a
      list crashes: iterating over a dict or a string yields strings, and
      `normalize` raises on them. */
  function FetchPage(api: Api, normalize: Normalizer, day: int, offset: nat): Page {
    match PageResponse(api, day, offset)
    case Timeout => Page([], Halt(RetriesExhausted))
    case Raised => Page([], Halt(Crashed))
    case NotJson => Page([], Halt(Crashed))
    case Body(data) =>
      if !data.JObj? then Page([], Halt(Crashed))
      else
        var hits := HitsOf(data);
        if !Truthy(hits) then Page([], Halt(EmptyBatch))
        else if !hits.JList? then Page([], Halt(Crashed))
        else
          var b := WriteBatch(normalize, hits.items);
          if !b.complete then Page(b.records, Halt(Crashed))
          else if |hits.items| < LIMIT then Page(b.records, Halt(ShortPage))
          else Page(b.records, NextPage)
  }

  /** The page loop from the iteration that requests `offset` on. */
  function PageRun(api: Api, normalize: Normalizer, day: int, offset: nat): DayRun
    requires offset <= MAX_OFFSET
    decreases MAX_OFFSET + 1 - offset, 0
  {
    var p := FetchPage(api, normalize, day, offset);
    var calls := PageCalls(api, day, offset);
    match p.end
    case Halt(stop) => DayRun([offset], calls, p.records, stop)
    case NextPage => Then([offset], calls, p.records, DayFrom(api, normalize, day, offset + LIMIT))
  }

  /** `fetch_chunk(day, fh)`, as a value. */
  function Day(api: Api, normalize: Normalizer, day: int): DayRun {
    DayFrom(api, normalize, day, 0)
  }

  predicate InTarget(n: NormalizedAd, target: set<string>) {
    n.ssyk4.Some? && n.ssyk4.value in target
  }

  /** The number of records whose occupation code is in `target`. */
  function CountInTarget(records: seq<NormalizedAd>, target: set<string>): (c: nat)
    ensures c <= |records|
    ensures (forall i | 0 <= i < |records| :: !InTarget(records[i], target)) ==> c == 0
  {
    if records == [] then 0
    else
      CountInTarget(records[..|records| - 1], target)
        + (if InTarget(records[|records| - 1], target) then 1 else 0)
  }

  /** The whole run from `day` to `end`: the days visited in order, the
      records written, the running totals, and whether an exception ended
      the run (then the totals are never reported). */
  datatype RangeRun = RangeRun(days: seq<int>, records: seq<NormalizedAd>, ads: nat, inTarget: nat, crashed: bool)

  /** A run that first visited `days`, wrote `records` and counted `ads`
      and `inTarget`, then went on as `rest`. */
  function After(days: seq<int>, records: seq<NormalizedAd>, ads: nat, inTarget: nat, rest: RangeRun): RangeRun {
    RangeRun(days + rest.days, records + rest.records, ads + rest.ads, inTarget + rest.inTarget, rest.crashed)
  }

  function Range(api: Api, normalize: Normalizer, day: int, end: int): RangeRun
    decreases if day <= end then end - day + 1 else 0, 1
  {
    if day > end then RangeRun([], [], 0, 0, false)
    else RangeFromDay(api, normalize, day, end)
  }

  /** The range from a day within it: a day that raises ends the run,
      any other day is followed by the rest of the range. */
  function RangeFromDay(api: Api, normalize: Normalizer, day: int, end: int): RangeRun
    requires day <= end
    decreases end - day + 1, 0
  {
    var d := Day(api, normalize, day);
    if d.stop == Crashed then RangeRun([day], d.records, 0, 0, true)
    else After([day], d.records, |d.records|, CountInTarget(d.records, TARGET_SSYK4),
               Range(api, normalize, day + 1, end))
  }

  /** The output file: the records written to it, one per line, and how many
      of them a flush has made durable. */
  class Sink {
    var records: seq<NormalizedAd>
    var durable: nat

    ghost predicate Valid()
      reads this
    {
      durable <= |records|
    }

    /** `open(output_file, "w")`: the file is created, or truncated. */
    constructor ()
      ensures Valid() && records == [] && durable == 0
    {
      records := [];
      durable := 0;
    }

    /** `fh.write(json.dumps(r) + "\n")`. */
    method Write(r: NormalizedAd)
      requires Valid()
      modifies this
      ensures Valid()
      ensures records == old(records) + [r] && durable == old(durable)
    {
      records := records + [r];
    }

    /** `fh.flush()`; closing the file does the same. */
    method Flush()
      requires Valid()
      modifies this
      ensures Valid()
      ensures records == old(records) && durable == |records|
    {
      durable := |records|;
    }
  }

  lemma {:induction false} FirstAnswerFrom(api: Api, day: int, offset: nat, attempt: nat, a: nat)
    requires 1 <= attempt <= a <= MAX_RETRIES + 1
    requires forall b | attempt <= b < a :: api(day, offset, b).Timeout?
    requires a <= MAX_RETRIES ==> !api(day, offset, a).Timeout?
    ensures FirstAnswer(api, day, offset, attempt) == a
    decreases a - attempt
  {
    if attempt < a {
      FirstAnswerFrom(api, day, offset, attempt + 1, a);
    }
  }

  /** A page whose first `n - 1` attempts time out and whose `n`-th does
      not, within MAX_RETRIES, gets the `n`-th answer after `n` requests. */
  lemma RetryAnswer(api: Api, day: int, offset: nat, n: nat)
    requires 1 <= n <= MAX_RETRIES
    requires forall b | 1 <= b < n :: api(day, offset, b).Timeout?
    requires !api(day, offset, n).Timeout?
    ensures PageResponse(api, day, offset) == api(day, offset, n)
    ensures PageCalls(api, day, offset) == n
  {
    FirstAnswerFrom(api, day, offset, 1, n);
  }

  /** The retry loop of `fetch_chunk`: at most MAX_RETRIES requests for
      `offset`, stopping at the first that does not time out. Timeout means
      that all of them timed out (`resp` stayed None); Raised that an
      exception escaped the loop. */
  method Request(api: Api, day: int, offset: nat) returns (resp: Response, ghost calls: nat)
    ensures resp == PageResponse(api, day, offset)
    ensures calls == PageCalls(api, day, offset)
  {
    resp := Timeout;
    calls := 0;
    for attempt := 1 to MAX_RETRIES + 1
      invariant forall b | 1 <= b < attempt :: api(day, offset, b).Timeout?
      invariant calls == attempt - 1
    {
      var answer := api(day, offset, attempt);
      calls := calls + 1;
      if !answer.Timeout? {
        FirstAnswerFrom(api, day, offset, 1, attempt);
        resp := answer;
        return;
      }
    }
    FirstAnswerFrom(api, day, offset, 1, MAX_RETRIES + 1);
  }

  /** One step of the hit loop: hit `i` either raises, and the batch is
      incomplete, or is written ahead of the rest. */
  lemma BatchStep(normalize: Normalizer, hits: seq<Json>, i: nat)
    requires i < |hits|
    ensures normalize(hits[i]).Raises? ==> !BatchFrom(normalize, hits, i).complete
    ensures normalize(hits[i]).Returns? ==>
      BatchFrom(normalize, hits, i).records == [normalize(hits[i]).value] + BatchFrom(normalize, hits, i + 1).records &&
      BatchFrom(normalize, hits, i).complete == BatchFrom(normalize, hits, i + 1).complete
  {
  }

  /** The loop over one page's hits: each hit is normalised and written as
      soon as it is seen, and counted when its code is in `target`. */
  method WriteHits(normalize: Normalizer, hits: seq<Json>, fh: Sink, target: set<string>)
      returns (complete: bool, inTarget: nat)
    requires fh.Valid()
    modifies fh
    ensures fh.Valid() && fh.durable == old(fh.durable)
    ensures fh.records == old(fh.records) + WriteBatch(normalize, hits).records
    ensures complete == WriteBatch(normalize, hits).complete
    ensures complete ==> inTarget == CountInTarget(WriteBatch(normalize, hits).records, target)
  {
    ghost var whole := BatchFrom(normalize, hits, 0);
    ghost var rest := whole;
    ghost var written: seq<NormalizedAd> := [];
    inTarget := 0;
    for i := 0 to |hits|
      invariant fh.Valid() && fh.durable == old(fh.durable)
      invariant fh.records == old(fh.records) + written
      invariant rest == BatchFrom(normalize, hits, i)
      invariant whole.records == written + rest.records
      invariant whole.complete == rest.complete
      invariant inTarget == CountInTarget(written, target)
    {
      ghost var next := BatchFrom(normalize, hits, i + 1);
      BatchStep(normalize, hits, i);
      var norm := normalize(hits[i]);
      if norm.Raises? {
        complete := false;
        return;
      }
      AppendAssoc(written, [norm.value], next.records);
      fh.Write(norm.value);
      CountInTargetAppend(written, [norm.value], target);
      written := written + [norm.value];
      rest := next;
      if InTarget(norm.value, target) {
        inTarget := inTarget + 1;
      }
    }
    assert rest.records == [];
    assert whole.records == written;
    complete := true;
  }

  lemma {:induction false} CountInTargetAppend(a: seq<NormalizedAd>, b: seq<NormalizedAd>, target: set<string>)
    ensures CountInTarget(a + b, target) == CountInTarget(a, target) + CountInTarget(b, target)
  {
    if b == [] {
      assert a + b == a;
    } else {
      var init := b[..|b| - 1];
      assert (a + b)[..|a + b| - 1] == a + init;
      assert (a + b)[|a + b| - 1] == b[|b| - 1];
      CountInTargetAppend(a, init, target);
    }
  }

  lemma AppendAssoc<T>(a: seq<T>, b: seq<T>, c: seq<T>)
    ensures (a + b) + c == a + (b + c)
  {
  }

  /** Past MAX_OFFSET nothing more is requested. */
  lemma PastCeiling(api: Api, normalize: Normalizer, day: int, offset: nat)
    requires offset > MAX_OFFSET
    ensures DayFrom(api, normalize, day, offset) == DayRun([], 0, [], OffsetCeiling)
  {
  }

  /** One iteration of the page loop of `fetch_chunk`: request the page at
      `offset`, write its hits, and say how the loop goes on. What it writes
      is what the day's run writes first from `offset` on, and the day ends
      where it says; `ads` and `inTarget` are what it adds to the day's
      totals. */
  method ProcessPage(api: Api, normalize: Normalizer, day: int, offset: nat, fh: Sink, target: set<string>)
      returns (end: PageEnd, ads: nat, inTarget: nat, ghost written: seq<NormalizedAd>, ghost sent: nat, ghost after: DayRun)
    requires offset <= MAX_OFFSET && fh.Valid()
    modifies fh
    ensures fh.Valid() && fh.durable == old(fh.durable)
    ensures fh.records == old(fh.records) + written
    ensures DayFrom(api, normalize, day, offset) == Then([offset], sent, written, after)
    ensures end.Halt? ==> after == DayRun([], 0, [], end.stop)
    ensures end.NextPage? ==> after == DayFrom(api, normalize, day, offset + LIMIT)
    ensures end != Halt(Crashed) ==> ads == |written| && inTarget == CountInTarget(written, target)
  {
    ghost var run := PageRun(api, normalize, day, offset);
    assert DayFrom(api, normalize, day, offset) == run;
    var resp;
    resp, sent := Request(api, day, offset);
    ads, inTarget, written := 0, 0, [];
    if resp.Timeout? {
      end := Halt(RetriesExhausted);
    } else if !resp.Body? || !resp.data.JObj? {
      end := Halt(Crashed);
    } else {
      var hits := HitsOf(resp.data);
      if !Truthy(hits) {
        end := Halt(EmptyBatch);
      } else if !hits.JList? {
        end := Halt(Crashed);
      } else {
        var complete;
        complete, inTarget := WriteHits(normalize, hits.items, fh, target);
        written := WriteBatch(normalize, hits.items).records;
        if !complete {
          end := Halt(Crashed);
        } else {
          ads := |hits.items|;
          end := if ads < LIMIT then Halt(ShortPage) else NextPage;
        }
      }
    }
    after := if end.NextPage? then DayFrom(api, normalize, day, offset + LIMIT) else DayRun([], 0, [], end.stop);
  }

  /** One pass of the page loop of `fetch_chunk` with its bookkeeping: the
      run of the day so far (`requested`, `sent`, `written`) followed by the
      rest from `offset` becomes the run so far after this page followed by
      the rest after it, and the running totals follow the records. */
  method ChunkStep(api: Api, normalize: Normalizer, day: int, offset: nat, fh: Sink, target: set<string>,
                   totalAds: nat, totalInTarget: nat, ghost run: DayRun, ghost start: seq<NormalizedAd>,
                   ghost requested: seq<nat>, ghost sent: nat, ghost written: seq<NormalizedAd>)
      returns (end: PageEnd, newAds: nat, newInTarget: nat,
               ghost requested': seq<nat>, ghost sent': nat, ghost written': seq<NormalizedAd>, ghost rest: DayRun)
    requires offset <= MAX_OFFSET && fh.Valid()
    requires fh.records == start + written
    requires run == Then(requested, sent, written, DayFrom(api, normalize, day, offset))
    requires totalAds == |written| && totalInTarget == CountInTarget(written, target)
    modifies fh
    ensures fh.Valid() && fh.durable == old(fh.durable)
    ensures fh.records == start + written'
    ensures run == Then(requested', sent', written', rest)
    ensures end.NextPage? ==> rest == DayFrom(api, normalize, day, offset + LIMIT)
    ensures end.Halt? ==> rest == DayRun([], 0, [], end.stop)
    ensures end != Halt(Crashed) ==> newAds == |written'| && newInTarget == CountInTarget(written', target)
  {
    var ads, inTarget;
    ghost var pageWritten, pageSent;
    end, ads, inTarget, pageWritten, pageSent, rest := ProcessPage(api, normalize, day, offset, fh, target);
    ThenThen(requested, sent, written, [offset], pageSent, pageWritten, rest);
    CountInTargetAppend(written, pageWritten, target);
    AppendAssoc(start, written, pageWritten);
    requested', sent', written' := requested + [offset], sent + pageSent, written + pageWritten;
    newAds, newInTarget := totalAds + ads, totalInTarget + inTarget;
  }

  /** `fetch_chunk(day, fh)`: the page loop for one day. It returns the
      number of ads written and how many of them have a code in `target`,
      or raises. `requested` and `sent` are the offsets it requested, in
      order, and the number of requests it sent. */
  method FetchChunk(api: Api, normalize: Normalizer, day: int, fh: Sink, target: set<string>)
      returns (r: Py<(nat, nat)>, ghost requested: seq<nat>, ghost sent: nat)
    requires fh.Valid()
    modifies fh
    ensures fh.Valid() && fh.durable == old(fh.durable)
    ensures fh.records == old(fh.records) + Day(api, normalize, day).records
    ensures requested == Day(api, normalize, day).offsets && sent == Day(api, normalize, day).calls
    ensures r.Raises? <==> Day(api, normalize, day).stop == Crashed
    ensures r.Returns? ==> r.value == (|Day(api, normalize, day).records|, CountInTarget(Day(api, normalize, day).records, target))
  {
    ghost var run := Day(api, normalize, day);
    var totalAds: nat := 0;
    var totalInTarget: nat := 0;
    var offset: nat := 0;
    ghost var written: seq<NormalizedAd> := [];
    ghost var rest := run;
    requested, sent := [], 0;
    assert run == Then(requested, sent, written, rest);
    while true
      invariant fh.Valid() && fh.durable == old(fh.durable)
      invariant offset <= MAX_OFFSET + LIMIT
      invariant fh.records == old(fh.records) + written
      invariant rest == DayFrom(api, normalize, day, offset)
      invariant run == Then(requested, sent, written, rest)
      invariant totalAds == |written| && totalInTarget == CountInTarget(written, target)
      decreases MAX_OFFSET + LIMIT - offset
    {
      if offset > MAX_OFFSET {
        PastCeiling(api, normalize, day, offset);
        ThenDone(requested, sent, written, OffsetCeiling);
        break;
      }
      var end;
      end, totalAds, totalInTarget, requested, sent, written, rest :=
        ChunkStep(api, normalize, day, offset, fh, target, totalAds, totalInTarget, run, old(fh.records), requested, sent, written);
      if end == Halt(Crashed) {
        ThenDone(requested, sent, written, Crashed);
        r := Raises;
        return;
      }
      if end.Halt? {
        ThenDone(requested, sent, written, end.stop);
        break;
      }
      offset := offset + LIMIT;
    }
    assert run.records == written;
    assert totalAds == |run.records| && totalInTarget == CountInTarget(run.records, target);
    r := Returns((totalAds, totalInTarget));
  }

  /** One day of the range: a day that raises ends it, any other day is
      followed by the rest of the range. */
  lemma RangeStep(api: Api, normalize: Normalizer, day: int, end: int)
    requires day <= end
    ensures var d := Day(api, normalize, day);
      (d.stop == Crashed ==> Range(api, normalize, day, end) == RangeRun([day], d.records, 0, 0, true)) &&
      (d.stop != Crashed ==>
         Range(api, normalize, day, end) ==
           After([day], d.records, |d.records|, CountInTarget(d.records, TARGET_SSYK4), Range(api, normalize, day + 1, end)))
  {
  }

  /** One pass of `main()`'s loop: fetch `day` into the open file, then
      flush it. When the day raises, leaving the `with` block closes the
      file, which flushes it just the same. */
  method HarvestDay(api: Api, normalize: Normalizer, day: int, end: int, fh: Sink) returns (r: Py<(nat, nat)>)
    requires day <= end && fh.Valid()
    modifies fh
    ensures fh.Valid() && fh.durable == |fh.records|
    ensures r.Raises? ==>
      fh.records == old(fh.records) + Range(api, normalize, day, end).records && Range(api, normalize, day, end).crashed
    ensures r.Returns? ==>
      && fh.records + Range(api, normalize, day + 1, end).records == old(fh.records) + Range(api, normalize, day, end).records
      && r.value.0 + Range(api, normalize, day + 1, end).ads == Range(api, normalize, day, end).ads
      && r.value.1 + Range(api, normalize, day + 1, end).inTarget == Range(api, normalize, day, end).inTarget
      && Range(api, normalize, day + 1, end).crashed == Range(api, normalize, day, end).crashed
  {
    ghost var d := Day(api, normalize, day);
    ghost var next := Range(api, normalize, day + 1, end);
    RangeStep(api, normalize, day, end);
    AppendAssoc(fh.records, d.records, next.records);
    ghost var requested, sent;
    r, requested, sent := FetchChunk(api, normalize, day, fh, TARGET_SSYK4);
    fh.Flush();
  }

  /** `main()`: fetch every day from `start` to `end` into a new output
      file, flushing it after each day, and report the grand totals. An
      exception from a day ends the run without a report. */
  method HarvestRange(api: Api, normalize: Normalizer, start: int, end: int) returns (fh: Sink, report: Py<(nat, nat)>)
    ensures fresh(fh) && fh.Valid()
    ensures fh.records == Range(api, normalize, start, end).records
    ensures fh.durable == |fh.records|
    ensures report.Raises? <==> Range(api, normalize, start, end).crashed
    ensures report.Returns? ==> report.value == (Range(api, normalize, start, end).ads, Range(api, normalize, start, end).inTarget)
  {
    ghost var whole := Range(api, normalize, start, end);
    ghost var rest := whole;
    fh := new Sink();
    var totalAllAds: nat := 0;
    var totalAllInTarget: nat := 0;
    var current := start;
    assert fh.records + rest.records == whole.records;
    while current <= end
      invariant fresh(fh) && fh.Valid() && fh.durable == |fh.records|
      invariant rest == Range(api, normalize, current, end)
      invariant whole.records == fh.records + rest.records
      invariant whole.ads == totalAllAds + rest.ads
      invariant whole.inTarget == totalAllInTarget + rest.inTarget
      invariant whole.crashed == rest.crashed
      decreases end - current
    {
      ghost var next := Range(api, normalize, current + 1, end);
      var dayResult := HarvestDay(api, normalize, current, end, fh);
      if dayResult.Raises? {
        report := Raises;
        return;
      }
      var (dayTotal, dayInTarget) := dayResult.value;
      totalAllAds := totalAllAds + dayTotal;
      totalAllInTarget := totalAllInTarget + dayInTarget;
      current := current + 1;
      rest := next;
    }
    assert rest == RangeRun([], [], 0, 0, false);
    fh.Flush();
    report := Returns((totalAllAds, totalAllInTarget));
  }
}
