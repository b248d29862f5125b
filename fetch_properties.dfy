/** What the harvesting loop guarantees, stated over the runs that
    `HistoricalFetch` defines and the harvesting methods are proved to
    perform: how one page ends, which offsets a day requests, how many
    requests it sends, what it writes, and which days the range visits. */
module FetchProperties {
  import opened PyValues
  import opened AdNormalizer
  import opened HistoricalFetch

  // ---------------------------------------------------------------------
  // The hit loop

  /** The hit loop writes the normalised hits in hit order, one record per
      hit, up to the first hit whose normalisation raises. */
  lemma {:induction false} BatchFromElements(normalize: Normalizer, hits: seq<Json>, i: nat)
    requires i <= |hits|
    decreases |hits| - i
    ensures var b := BatchFrom(normalize, hits, i);
      (forall k | 0 <= k < |b.records| :: normalize(hits[i + k]) == Returns(b.records[k])) &&
      (!b.complete ==> normalize(hits[i + |b.records|]).Raises?)
  {
    if i < |hits| {
      BatchFromElements(normalize, hits, i + 1);
      var rest := BatchFrom(normalize, hits, i + 1);
      if normalize(hits[i]).Returns? {
        forall k | 0 <= k < |BatchFrom(normalize, hits, i).records|
          ensures normalize(hits[i + k]) == Returns(BatchFrom(normalize, hits, i).records[k])
        {
          if k > 0 {
            assert normalize(hits[(i + 1) + (k - 1)]) == Returns(rest.records[k - 1]);
          }
        }
      }
    }
  }

  /** The records of a page's hit loop are the normalised hits, in order;
      the loop stops early exactly when some hit raises, and then that hit
      is the one after the last record. */
  lemma WriteBatchElements(normalize: Normalizer, hits: seq<Json>)
    ensures var b := WriteBatch(normalize, hits);
      (forall k | 0 <= k < |b.records| :: normalize(hits[k]) == Returns(b.records[k])) &&
      (!b.complete ==> normalize(hits[|b.records|]).Raises?) &&
      (b.complete <==> forall k | 0 <= k < |hits| :: normalize(hits[k]).Returns?)
  {
    BatchFromElements(normalize, hits, 0);
  }

  // ---------------------------------------------------------------------
  // One page

  /** The hit list of a page whose request was answered with a dict, when
      it is a list. */
  predicate HitList(api: Api, day: int, offset: nat) {
    var resp := PageResponse(api, day, offset);
    resp.Body? && resp.data.JObj? && HitsOf(resp.data).JList?
  }

  function Hits(api: Api, day: int, offset: nat): seq<Json>
    requires HitList(api, day, offset)
  {
    HitsOf(PageResponse(api, day, offset).data).items
  }

  /** Every hit of the list normalises. */
  predicate AllNormalise(normalize: Normalizer, hits: seq<Json>) {
    forall k | 0 <= k < |hits| :: normalize(hits[k]).Returns?
  }

  /** A page leads to the next offset exactly when it is a list of at least
      LIMIT hits that all normalise; it writes one record per hit. */
  lemma PageContinues(api: Api, normalize: Normalizer, day: int, offset: nat)
    ensures var p := FetchPage(api, normalize, day, offset);
      (p.end == NextPage <==>
         HitList(api, day, offset) && |Hits(api, day, offset)| >= LIMIT &&
         AllNormalise(normalize, Hits(api, day, offset))) &&
      (p.end == NextPage ==> |p.records| == |Hits(api, day, offset)| >= LIMIT)
  {
    if HitList(api, day, offset) {
      WriteBatchElements(normalize, Hits(api, day, offset));
    }
  }

  /** A page ends the day as a short page exactly when it is a non-empty
      list of fewer than LIMIT hits that all normalise; it writes one record
      per hit. */
  lemma PageShort(api: Api, normalize: Normalizer, day: int, offset: nat)
    ensures var p := FetchPage(api, normalize, day, offset);
      (p.end == Halt(ShortPage) <==>
         HitList(api, day, offset) && 0 < |Hits(api, day, offset)| < LIMIT &&
         AllNormalise(normalize, Hits(api, day, offset))) &&
      (p.end == Halt(ShortPage) ==> 0 < |p.records| == |Hits(api, day, offset)| < LIMIT)
  {
    if HitList(api, day, offset) {
      WriteBatchElements(normalize, Hits(api, day, offset));
    }
  }

  /** A page ends the day as an empty batch exactly when the answer is a
      dict in which neither `hits` nor `results` is truthy; it writes
      nothing. An empty `hits` list falls through to `results`. */
  lemma PageEmpty(api: Api, normalize: Normalizer, day: int, offset: nat)
    ensures var p := FetchPage(api, normalize, day, offset);
      var resp := PageResponse(api, day, offset);
      (p.end == Halt(EmptyBatch) <==>
         resp.Body? && resp.data.JObj? &&
         !Truthy(Get(resp.data, "hits")) && !Truthy(Get(resp.data, "results"))) &&
      (p.end == Halt(EmptyBatch) ==> p.records == [])
  {
  }

  /** A page ends the day with the retries exhausted exactly when all
      MAX_RETRIES attempts timed out; it writes nothing, and MAX_RETRIES
      requests were sent. */
  lemma PageRetriesExhausted(api: Api, normalize: Normalizer, day: int, offset: nat)
    ensures var p := FetchPage(api, normalize, day, offset);
      (p.end == Halt(RetriesExhausted) <==> forall a | 1 <= a <= MAX_RETRIES :: api(day, offset, a).Timeout?) &&
      (p.end == Halt(RetriesExhausted) ==> p.records == [] && PageCalls(api, day, offset) == MAX_RETRIES)
  {
  }

  /** A page raises exactly when the answer is an error other than a
      timeout, a body that is not JSON or not a dict, a truthy `hits` that
      is not a list, or a list with a hit that does not normalise. What was
      written before the failing hit stays written. */
  lemma PageCrashes(api: Api, normalize: Normalizer, day: int, offset: nat)
    ensures var p := FetchPage(api, normalize, day, offset);
      var resp := PageResponse(api, day, offset);
      (p.end == Halt(Crashed) <==>
         resp.Raised? || resp.NotJson? || (resp.Body? && !resp.data.JObj?) ||
         (resp.Body? && resp.data.JObj? && Truthy(HitsOf(resp.data)) && !HitsOf(resp.data).JList?) ||
         (HitList(api, day, offset) && !AllNormalise(normalize, Hits(api, day, offset)))) &&
      (p.end == Halt(Crashed) && HitList(api, day, offset) ==>
         |p.records| < |Hits(api, day, offset)| &&
         normalize(Hits(api, day, offset)[|p.records|]).Raises?)
  {
    if HitList(api, day, offset) {
      WriteBatchElements(normalize, Hits(api, day, offset));
    }
  }

  /** Whatever way a page ends, its records are the normalised leading hits
      of the page, in order; a page that did not get a list writes
      nothing. A page never ends at the offset ceiling. */
  lemma PageRecords(api: Api, normalize: Normalizer, day: int, offset: nat)
    ensures var p := FetchPage(api, normalize, day, offset);
      (HitList(api, day, offset) ==>
         |p.records| <= |Hits(api, day, offset)| &&
         forall k | 0 <= k < |p.records| :: normalize(Hits(api, day, offset)[k]) == Returns(p.records[k])) &&
      (!HitList(api, day, offset) ==> p.records == []) &&
      p.end != Halt(OffsetCeiling)
  {
    if HitList(api, day, offset) {
      WriteBatchElements(normalize, Hits(api, day, offset));
    }
  }

  // ---------------------------------------------------------------------
  // One day

  /** The page loop at `offset`: a page that halts ends the day there, a
      page that continues is followed by the loop at the next offset. */
  lemma DayStep(api: Api, normalize: Normalizer, day: int, offset: nat)
    requires offset <= MAX_OFFSET
    ensures var p, calls := FetchPage(api, normalize, day, offset), PageCalls(api, day, offset);
      var r := DayFrom(api, normalize, day, offset);
      (p.end.Halt? ==> r == DayRun([offset], calls, p.records, p.end.stop)) &&
      (p.end.NextPage? ==> r == Then([offset], calls, p.records, DayFrom(api, normalize, day, offset + LIMIT)))
  {
    assert DayFrom(api, normalize, day, offset) == PageRun(api, normalize, day, offset);
  }

  /** The offsets requested from `offset` on are `offset`, `offset + LIMIT`,
      `offset + 2 * LIMIT`, ..., none of them above MAX_OFFSET, and there is
      at least one exactly when `offset` itself is not above it. */
  lemma {:induction false} OffsetsFrom(api: Api, normalize: Normalizer, day: int, offset: nat)
    decreases if offset <= MAX_OFFSET then MAX_OFFSET + 1 - offset else 0
    ensures var r := DayFrom(api, normalize, day, offset);
      (forall i | 0 <= i < |r.offsets| :: r.offsets[i] == offset + i * LIMIT <= MAX_OFFSET) &&
      (|r.offsets| > 0 <==> offset <= MAX_OFFSET)
  {
    if offset <= MAX_OFFSET {
      DayStep(api, normalize, day, offset);
      if FetchPage(api, normalize, day, offset).end.NextPage? {
        OffsetsFrom(api, normalize, day, offset + LIMIT);
        var r := DayFrom(api, normalize, day, offset);
        var rest := DayFrom(api, normalize, day, offset + LIMIT);
        forall i | 0 <= i < |r.offsets| ensures r.offsets[i] == offset + i * LIMIT <= MAX_OFFSET {
          if i > 0 {
            assert r.offsets[i] == rest.offsets[i - 1];
          }
        }
      }
    }
  }

  /** A day requests the offsets 0, LIMIT, 2 * LIMIT, ... in that order,
      never one above MAX_OFFSET, and so at most MAX_OFFSET / LIMIT + 1
      pages (21); it always requests the first. */
  lemma DayOffsets(api: Api, normalize: Normalizer, day: int)
    ensures var r := Day(api, normalize, day);
      (forall i | 0 <= i < |r.offsets| :: r.offsets[i] == i * LIMIT <= MAX_OFFSET) &&
      1 <= |r.offsets| <= MAX_OFFSET / LIMIT + 1
  {
    OffsetsFrom(api, normalize, day, 0);
    var r := Day(api, normalize, day);
    assert r.offsets[|r.offsets| - 1] == (|r.offsets| - 1) * LIMIT <= MAX_OFFSET;
  }

  /** Every offset gets between one and MAX_RETRIES requests, so the day
      sends at least one request per page and at most MAX_RETRIES. */
  lemma {:induction false} CallsFrom(api: Api, normalize: Normalizer, day: int, offset: nat)
    decreases if offset <= MAX_OFFSET then MAX_OFFSET + 1 - offset else 0
    ensures var r := DayFrom(api, normalize, day, offset);
      |r.offsets| <= r.calls <= MAX_RETRIES * |r.offsets|
  {
    if offset <= MAX_OFFSET {
      DayStep(api, normalize, day, offset);
      if FetchPage(api, normalize, day, offset).end.NextPage? {
        CallsFrom(api, normalize, day, offset + LIMIT);
      }
    }
  }

  /** The records written from the pages at `offsets`, in that order. */
  function PagesRecords(api: Api, normalize: Normalizer, day: int, offsets: seq<nat>): seq<NormalizedAd> {
    if offsets == [] then []
    else FetchPage(api, normalize, day, offsets[0]).records + PagesRecords(api, normalize, day, offsets[1..])
  }

  /** Every page but the last leads to the next offset. */
  lemma {:induction false} PagesFrom(api: Api, normalize: Normalizer, day: int, offset: nat)
    decreases if offset <= MAX_OFFSET then MAX_OFFSET + 1 - offset else 0
    ensures var r := DayFrom(api, normalize, day, offset);
      forall i | 0 <= i < |r.offsets| - 1 :: FetchPage(api, normalize, day, r.offsets[i]).end == NextPage
  {
    var r := DayFrom(api, normalize, day, offset);
    if offset <= MAX_OFFSET {
      DayStep(api, normalize, day, offset);
      if FetchPage(api, normalize, day, offset).end.NextPage? {
        PagesFrom(api, normalize, day, offset + LIMIT);
        var rest := DayFrom(api, normalize, day, offset + LIMIT);
        forall i | 0 <= i < |r.offsets| - 1
          ensures FetchPage(api, normalize, day, r.offsets[i]).end == NextPage
        {
          if i > 0 {
            assert r.offsets[i] == rest.offsets[i - 1];
          }
        }
      }
    }
  }

  /** The last page ends the way the run stops; only a run that stops at
      the offset ceiling ends with a full page, or with no page at all. */
  lemma {:induction false} LastPageFrom(api: Api, normalize: Normalizer, day: int, offset: nat)
    decreases if offset <= MAX_OFFSET then MAX_OFFSET + 1 - offset else 0
    ensures var r := DayFrom(api, normalize, day, offset);
      (|r.offsets| > 0 ==> FetchPage(api, normalize, day, r.offsets[|r.offsets| - 1]).end ==
                             if r.stop == OffsetCeiling then NextPage else Halt(r.stop)) &&
      (r.stop != OffsetCeiling ==> |r.offsets| > 0)
  {
    var r := DayFrom(api, normalize, day, offset);
    if offset <= MAX_OFFSET {
      DayStep(api, normalize, day, offset);
      if FetchPage(api, normalize, day, offset).end.NextPage? {
        LastPageFrom(api, normalize, day, offset + LIMIT);
        var rest := DayFrom(api, normalize, day, offset + LIMIT);
        if rest.offsets != [] {
          assert r.offsets[|r.offsets| - 1] == rest.offsets[|rest.offsets| - 1];
        }
      } else {
        PageRecords(api, normalize, day, offset);
      }
    }
  }

  /** A day stops at the offset ceiling exactly when every page it
      requested was full; otherwise it stops the way its last page ends,
      and every page before that was full. */
  lemma DayPages(api: Api, normalize: Normalizer, day: int)
    ensures var r := Day(api, normalize, day);
      (forall i | 0 <= i < |r.offsets| - 1 :: FetchPage(api, normalize, day, r.offsets[i]).end == NextPage) &&
      (r.stop == OffsetCeiling <==>
         forall i | 0 <= i < |r.offsets| :: FetchPage(api, normalize, day, r.offsets[i]).end == NextPage) &&
      (r.stop != OffsetCeiling ==>
         FetchPage(api, normalize, day, r.offsets[|r.offsets| - 1]).end == Halt(r.stop))
  {
    PagesFrom(api, normalize, day, 0);
    LastPageFrom(api, normalize, day, 0);
    OffsetsFrom(api, normalize, day, 0);
  }

  /** What a day writes from `offset` on is what its pages write, in the
      order they were requested. */
  lemma {:induction false} RecordsFrom(api: Api, normalize: Normalizer, day: int, offset: nat)
    decreases if offset <= MAX_OFFSET then MAX_OFFSET + 1 - offset else 0
    ensures var r := DayFrom(api, normalize, day, offset);
      r.records == PagesRecords(api, normalize, day, r.offsets)
  {
    var r := DayFrom(api, normalize, day, offset);
    if offset <= MAX_OFFSET {
      DayStep(api, normalize, day, offset);
      var p := FetchPage(api, normalize, day, offset);
      if p.end.NextPage? {
        RecordsFrom(api, normalize, day, offset + LIMIT);
        var rest := DayFrom(api, normalize, day, offset + LIMIT);
        assert r.offsets[1..] == rest.offsets;
      } else {
        assert r.offsets[1..] == [];
        assert p.records + [] == p.records;
      }
    }
  }

  /** A day whose every page is full stops exactly after the page at
      MAX_OFFSET: the ceiling check is `offset > MAX_OFFSET`, so the page at
      MAX_OFFSET is still requested, and 21 pages are. */
  lemma DayAtCeiling(api: Api, normalize: Normalizer, day: int)
    requires Day(api, normalize, day).stop == OffsetCeiling
    ensures var r := Day(api, normalize, day);
      |r.offsets| == MAX_OFFSET / LIMIT + 1 && r.offsets[|r.offsets| - 1] == MAX_OFFSET
  {
    OffsetsFrom(api, normalize, day, 0);
    CeilingFrom(api, normalize, day, 0);
  }

  /** A run from an offset that is a multiple of LIMIT stops at the ceiling
      only after requesting every multiple of LIMIT up to MAX_OFFSET. */
  lemma {:induction false} CeilingFrom(api: Api, normalize: Normalizer, day: int, k: nat)
    requires k * LIMIT <= MAX_OFFSET
    requires DayFrom(api, normalize, day, k * LIMIT).stop == OffsetCeiling
    decreases MAX_OFFSET / LIMIT - k
    ensures |DayFrom(api, normalize, day, k * LIMIT).offsets| == MAX_OFFSET / LIMIT + 1 - k
  {
    DayStep(api, normalize, day, k * LIMIT);
    var p := FetchPage(api, normalize, day, k * LIMIT);
    PageRecords(api, normalize, day, k * LIMIT);
    assert p.end.NextPage?;
    assert (k + 1) * LIMIT == k * LIMIT + LIMIT;
    if (k + 1) * LIMIT <= MAX_OFFSET {
      CeilingFrom(api, normalize, day, k + 1);
    } else {
      assert k == MAX_OFFSET / LIMIT;
    }
  }

  // ---------------------------------------------------------------------
  // A day served without faults

  function Min(a: int, b: int): int {
    if a <= b then a else b
  }

  /** The page at `offset` of a day whose ads are `ads`: the ads from
      `offset` on, at most LIMIT of them. */
  function Window(ads: seq<Json>, offset: nat): (w: seq<Json>)
    ensures |w| == Min(LIMIT, |ads| - offset) || (offset >= |ads| && w == [])
  {
    if offset >= |ads| then [] else ads[offset..Min(offset + LIMIT, |ads|)]
  }

  /** An API that answers the first request for every page of `day` with
      that page of `ads`, as the list under `hits`. */
  ghost predicate Serves(api: Api, day: int, ads: seq<Json>) {
    forall offset: nat :: api(day, offset, 1) == Body(JObj([("hits", JList(Window(ads, offset)))]))
  }

  /** A page of such an API takes one request; it is full, short or empty
      as the ads left at `offset` are at least LIMIT, fewer, or none, and
      it writes them normalised, in order. */
  lemma ServedPage(api: Api, normalize: Normalizer, day: int, ads: seq<Json>, offset: nat)
    requires Serves(api, day, ads) && AllNormalise(normalize, ads)
    requires offset <= |ads|
    ensures var p := FetchPage(api, normalize, day, offset);
      PageCalls(api, day, offset) == 1 &&
      |p.records| == Min(LIMIT, |ads| - offset) &&
      (forall i | 0 <= i < |p.records| :: normalize(ads[offset + i]) == Returns(p.records[i])) &&
      p.end == if |ads| - offset >= LIMIT then NextPage
               else if |ads| == offset then Halt(EmptyBatch)
               else Halt(ShortPage)
  {
    var w := Window(ads, offset);
    var data := JObj([("hits", JList(w))]);
    assert api(day, offset, 1) == Body(data);
    FirstAnswerFrom(api, day, offset, 1, 1);
    assert PageResponse(api, day, offset) == Body(data);
    assert Get(data, "hits") == JList(w);
    assert data.members[..0] == [];
    assert Lookup(data.members, "results") == Lookup([], "results");
    assert Get(data, "results") == JNull;
    if w != [] {
      assert HitsOf(data) == JList(w);
      assert forall i | 0 <= i < |w| :: w[i] == ads[offset + i];
      WriteBatchElements(normalize, w);
    }
  }

  /** Records that are the normalised ads from `offset` on, followed by
      records that are the normalised ads after them, are the normalised
      ads from `offset` on. */
  lemma NormalisedConcat(normalize: Normalizer, ads: seq<Json>, offset: nat, a: seq<NormalizedAd>, b: seq<NormalizedAd>)
    requires offset + |a| + |b| <= |ads|
    requires forall i | 0 <= i < |a| :: normalize(ads[offset + i]) == Returns(a[i])
    requires forall i | 0 <= i < |b| :: normalize(ads[offset + |a| + i]) == Returns(b[i])
    ensures forall i | 0 <= i < |a + b| :: normalize(ads[offset + i]) == Returns((a + b)[i])
  {
    forall i | |a| <= i < |a + b| ensures normalize(ads[offset + i]) == Returns((a + b)[i]) {
      assert normalize(ads[offset + |a| + (i - |a|)]) == Returns(b[i - |a|]);
    }
  }

  /** From an offset `k * LIMIT` that still has ads left, a day of such an
      API writes as many records as there are ads from there up to the
      first MAX_OFFSET + LIMIT. */
  lemma {:induction false} ServedCountFrom(api: Api, normalize: Normalizer, day: int, ads: seq<Json>, k: nat)
    requires Serves(api, day, ads) && AllNormalise(normalize, ads)
    requires k * LIMIT <= |ads| && k * LIMIT <= MAX_OFFSET + LIMIT
    decreases MAX_OFFSET / LIMIT + 1 - k
    ensures |DayFrom(api, normalize, day, k * LIMIT).records| == Min(|ads|, MAX_OFFSET + LIMIT) - k * LIMIT
  {
    var offset := k * LIMIT;
    if offset <= MAX_OFFSET {
      DayStep(api, normalize, day, offset);
      ServedPage(api, normalize, day, ads, offset);
      if FetchPage(api, normalize, day, offset).end.NextPage? {
        assert (k + 1) * LIMIT == offset + LIMIT;
        ServedCountFrom(api, normalize, day, ads, k + 1);
      }
    }
  }

  /** From an offset that still has ads left, the records a day of such an
      API writes are the normalised ads from there on, in order. */
  lemma {:induction false} ServedRecordsFrom(api: Api, normalize: Normalizer, day: int, ads: seq<Json>, offset: nat)
    requires Serves(api, day, ads) && AllNormalise(normalize, ads)
    requires offset <= |ads|
    decreases if offset <= MAX_OFFSET then MAX_OFFSET + 1 - offset else 0
    ensures var r := DayFrom(api, normalize, day, offset);
      offset + |r.records| <= |ads| &&
      forall i | 0 <= i < |r.records| :: normalize(ads[offset + i]) == Returns(r.records[i])
  {
    if offset <= MAX_OFFSET {
      DayStep(api, normalize, day, offset);
      ServedPage(api, normalize, day, ads, offset);
      if FetchPage(api, normalize, day, offset).end.NextPage? {
        ServedRecordsFrom(api, normalize, day, ads, offset + LIMIT);
        var a, b := FetchPage(api, normalize, day, offset).records, DayFrom(api, normalize, day, offset + LIMIT).records;
        NormalisedConcat(normalize, ads, offset, a, b);
        assert DayFrom(api, normalize, day, offset).records == a + b;
      }
    }
  }

  /** From an offset `k * LIMIT` that still has ads left, a day of such an
      API requests one page per LIMIT ads left, up to the ceiling, and one
      more when the ads run out on a page boundary; it sends one request
      per page, and stops at the ceiling, on an empty page or on a short
      page. */
  lemma {:induction false} ServedPagesFrom(api: Api, normalize: Normalizer, day: int, ads: seq<Json>, k: nat)
    requires Serves(api, day, ads) && AllNormalise(normalize, ads)
    requires k * LIMIT <= |ads| && k * LIMIT <= MAX_OFFSET + LIMIT
    decreases MAX_OFFSET / LIMIT + 1 - k
    ensures var r := DayFrom(api, normalize, day, k * LIMIT);
      |r.offsets| == Min(|ads| / LIMIT + 1, MAX_OFFSET / LIMIT + 1) - k &&
      r.calls == |r.offsets| &&
      r.stop == if |ads| >= MAX_OFFSET + LIMIT then OffsetCeiling
                else if |ads| % LIMIT == 0 then EmptyBatch
                else ShortPage
  {
    var offset := k * LIMIT;
    if offset <= MAX_OFFSET {
      DayStep(api, normalize, day, offset);
      ServedPage(api, normalize, day, ads, offset);
      if FetchPage(api, normalize, day, offset).end.NextPage? {
        assert (k + 1) * LIMIT == offset + LIMIT;
        ServedPagesFrom(api, normalize, day, ads, k + 1);
      } else {
        assert |ads| / LIMIT == k;
      }
    } else {
      assert k == MAX_OFFSET / LIMIT + 1;
    }
  }

  /** A day of an API that serves `ads` without a fault writes the first
      MAX_OFFSET + LIMIT of them, normalised and in order, and silently
      drops the rest; it sends one request per page, and requests
      `|ads| / LIMIT + 1` pages, at most MAX_OFFSET / LIMIT + 1. */
  lemma ServedDay(api: Api, normalize: Normalizer, day: int, ads: seq<Json>)
    requires Serves(api, day, ads) && AllNormalise(normalize, ads)
    ensures var r := Day(api, normalize, day);
      |r.records| == Min(|ads|, MAX_OFFSET + LIMIT) &&
      (forall i | 0 <= i < |r.records| :: normalize(ads[i]) == Returns(r.records[i])) &&
      |r.offsets| == Min(|ads| / LIMIT + 1, MAX_OFFSET / LIMIT + 1) &&
      r.calls == |r.offsets| &&
      r.stop == if |ads| >= MAX_OFFSET + LIMIT then OffsetCeiling
                else if |ads| % LIMIT == 0 then EmptyBatch
                else ShortPage
  {
    ServedCountFrom(api, normalize, day, ads, 0);
    ServedRecordsFrom(api, normalize, day, ads, 0);
    ServedPagesFrom(api, normalize, day, ads, 0);
  }

  // ---------------------------------------------------------------------
  // The harvester's records

  /** Every record a day writes is a result of the normaliser, so whatever
      holds of every normalised ad holds of every record written. */
  lemma {:induction false} DayRecordsFrom(api: Api, normalize: Normalizer, day: int, offset: nat, prop: NormalizedAd -> bool)
    requires forall h :: normalize(h).Returns? ==> prop(normalize(h).value)
    decreases if offset <= MAX_OFFSET then MAX_OFFSET + 1 - offset else 0
    ensures forall x | x in DayFrom(api, normalize, day, offset).records :: prop(x)
  {
    if offset <= MAX_OFFSET {
      DayStep(api, normalize, day, offset);
      var p := FetchPage(api, normalize, day, offset);
      PageRecords(api, normalize, day, offset);
      assert forall x | x in p.records :: prop(x) by {
        forall x | x in p.records ensures prop(x) {
          var k :| 0 <= k < |p.records| && p.records[k] == x;
          assert normalize(Hits(api, day, offset)[k]) == Returns(x);
        }
      }
      if p.end.NextPage? {
        DayRecordsFrom(api, normalize, day, offset + LIMIT, prop);
      }
    }
  }

  /** The harvester proper, whose normaliser is `normalize` on dicts: every
      record it writes for a day has a non-empty source type, an occupation
      code of at most four characters, and exactly the keys of the output
      schema. */
  lemma HarvestedRecords(api: Api, day: int)
    ensures forall x | x in Day(api, NormalizeHit, day).records ::
      Truthy(x.sourceType) && (x.ssyk4.Some? ==> |x.ssyk4.value| <= 4) &&
      Keys(ToJson(x).members) == set k | k in SCHEMA_KEYS
  {
    var prop := (x: NormalizedAd) =>
      Truthy(x.sourceType) && (x.ssyk4.Some? ==> |x.ssyk4.value| <= 4) &&
      Keys(ToJson(x).members) == set k | k in SCHEMA_KEYS;
    forall h | NormalizeHit(h).Returns? ensures prop(NormalizeHit(h).value) {
      SchemaKeySet(NormalizeHit(h).value);
    }
    DayRecordsFrom(api, NormalizeHit, day, 0, prop);
  }

  // ---------------------------------------------------------------------
  // The date range

  /** The range visits `day`, `day + 1`, ... in ascending order: every day
      up to `end` when no day raises, and otherwise up to and including the
      first day that raises, and no further. A range whose start is after
      its end visits nothing. */
  lemma {:induction false} RangeDays(api: Api, normalize: Normalizer, day: int, end: int)
    decreases if day <= end then end - day + 1 else 0
    ensures var r := Range(api, normalize, day, end);
      (forall i | 0 <= i < |r.days| :: r.days[i] == day + i) &&
      (!r.crashed ==> |r.days| == if day <= end then end - day + 1 else 0) &&
      (r.crashed ==> 0 < |r.days| <= end - day + 1) &&
      (forall i | 0 <= i < |r.days| :: Day(api, normalize, r.days[i]).stop == Crashed <==> r.crashed && i == |r.days| - 1) &&
      (day > end ==> r == RangeRun([], [], 0, 0, false))
  {
    if day <= end {
      RangeStep(api, normalize, day, end);
    }
    if day <= end && Day(api, normalize, day).stop != Crashed {
      RangeDays(api, normalize, day + 1, end);
      var r := Range(api, normalize, day, end);
      var rest := Range(api, normalize, day + 1, end);
      assert r.days == [day] + rest.days;
      forall i | 1 <= i < |r.days| ensures r.days[i] == day + i {
        assert r.days[i] == rest.days[i - 1];
      }
      forall i | 1 <= i < |r.days|
        ensures Day(api, normalize, r.days[i]).stop == Crashed <==> r.crashed && i == |r.days| - 1
      {
        assert r.days[i] == rest.days[i - 1];
      }
    }
  }

  /** The records of days, one day after another. */
  function DaysRecords(api: Api, normalize: Normalizer, days: seq<int>): seq<NormalizedAd> {
    if days == [] then []
    else Day(api, normalize, days[0]).records + DaysRecords(api, normalize, days[1..])
  }

  /** The output file holds the records of the days visited, day after day;
      the records of the day that raised are kept. */
  lemma {:induction false} RangeRecords(api: Api, normalize: Normalizer, day: int, end: int)
    decreases if day <= end then end - day + 1 else 0
    ensures var r := Range(api, normalize, day, end);
      r.records == DaysRecords(api, normalize, r.days)
  {
    var r := Range(api, normalize, day, end);
    if day <= end {
      RangeStep(api, normalize, day, end);
      if Day(api, normalize, day).stop != Crashed {
        RangeRecords(api, normalize, day + 1, end);
        assert r.days[1..] == Range(api, normalize, day + 1, end).days;
      } else {
        assert r.days[1..] == [];
        assert Day(api, normalize, day).records + [] == Day(api, normalize, day).records;
      }
    }
  }

  /** When no day raises, the grand totals count the records in the output
      file and those among them with a target code; in every case the
      target count is at most the ad count. */
  lemma {:induction false} RangeTotals(api: Api, normalize: Normalizer, day: int, end: int)
    decreases if day <= end then end - day + 1 else 0
    ensures var r := Range(api, normalize, day, end);
      (!r.crashed ==> r.ads == |r.records| && r.inTarget == CountInTarget(r.records, TARGET_SSYK4)) &&
      r.inTarget <= r.ads
  {
    if day <= end {
      RangeStep(api, normalize, day, end);
    }
    if day <= end && Day(api, normalize, day).stop != Crashed {
      RangeTotals(api, normalize, day + 1, end);
      var d := Day(api, normalize, day);
      var rest := Range(api, normalize, day + 1, end);
      CountInTargetAppend(d.records, rest.records, TARGET_SSYK4);
    }
  }

  /** The configured range is the 1073 days from 2022-11-30 to 2025-11-06,
      and a run that no day interrupts visits all of them. */
  lemma ConfiguredRange(api: Api, normalize: Normalizer)
    ensures var r := Range(api, normalize, START_DAY, END_DAY);
      !r.crashed ==> |r.days| == 1073 && r.days[0] == START_DAY && r.days[1072] == END_DAY
  {
    RangeDays(api, normalize, START_DAY, END_DAY);
  }
}
