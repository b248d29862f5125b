# Swedish job-ad AI trends: harvester and keyword filter, in Dafny

This project models the two stages of a small pipeline that builds a corpus
of Swedish job advertisements and selects the ones that mention AI:

- **The historical harvester** (`src/fetch_historical_detailed.py`). For
  every day from 2022-11-30 to 2025-11-06 it pages through the historical
  job-ad search API, `LIMIT` = 100 ads per page. The ceiling check is
  `offset > MAX_OFFSET` with MAX_OFFSET = 2000. Each page gets up to
  `MAX_RETRIES` = 3 attempts on a timeout or a connection error.
  - Every hit is normalised into a fixed flat record of 19 keys and written
    to the corpus file at once.
  - Hits whose four-character SSYK occupation code is in `TARGET_SSYK4` are
    counted.
  - The file is flushed after every day.
- **The keyword filter** (`src/filter_ai_ads.py`) reads the corpus line by
  line. It keeps an ad when the lower-cased `headline + " " + text`
  matches one of 41 keyword patterns, and writes a projection of the ad.

Modules:

- `PyValues` (`python_values.dfy`): decoded JSON values and the Python
  built-ins the scripts apply to them: truthiness, `or`, `dict.get`,
  `str()` and `str.lower()`. A dict keeps its members in order, and a
  repeated key reads as its last binding, as with `json.loads`.
- `AdNormalizer` (`normalize.dfy`): `extract_ssyk4`, `normalize`, and the
  record as it is written and read back.
- `HistoricalFetch` (`fetch.dfy`): the harvesting loop.
  - The search API is an oracle `api(day, offset, attempt)`. It answers
    Timeout, Raised, NotJson or a decoded body.
  - The output file is a `Sink` object: the records written, and how many
    of them a flush has made durable.
  - `fetch_chunk` and `main` are methods with loops: `Request`,
    `WriteHits`, `ProcessPage`, `FetchChunk`, `HarvestDay` and
    `HarvestRange`.
  - Each method is proved against a function that states the run as a
    value: `PageResponse`, `WriteBatch`, `FetchPage`, `Day` and `Range`.
- `FetchProperties` (`fetch_properties.dfy`): what those runs guarantee.
  This covers how a page ends, which offsets a day requests, how many
  requests it sends, what it writes, and which days the range visits.
- `AiAdFilter` (`filter.dfy`): the keyword alternation, the per-line
  decision `Examine`, and the streaming loop `FilterCorpus`.

Where the code raises, the model raises too. These all propagate out of
`fetch_chunk` and end `main`:

- a truthy `employer` that is not a dict: `.get` on it raises;
- an HTTP error status (`raise_for_status` is outside the retried
  exceptions);
- a body that is not JSON, or a body that is not a dict;
- a truthy `hits` that is not a list;
- a hit that is not a dict.

The model captures this with `Py<T> = Returns(T) | Raises` and the day
outcome `Crashed`.

Two consequences are proved:

- An API that serves a day without faults still gets only the first
  MAX_OFFSET + LIMIT = 2100 ads of that day written. The rest are dropped
  with only a warning. See `ServedDay`.
- The filter reads `municipality`, `county`, `region` and
  `occupation_label`. The harvester never writes these keys, so every
  record the filter writes for a harvested line has them as null. See
  `FilterHarvested`.

## Model

| member | source | states |
|---|---|---|
| PyValues.Truthy | src/fetch_historical_detailed.py:134 | Python's truth value of a decoded value: null, false, zero, the empty string, list and dict are falsy; `Or`, `HitsOf` and `ExamineSkips` state what depends on it |
| PyValues.Or | src/fetch_historical_detailed.py:38 | `a or b` is truthy exactly when one operand is; it is `a` when `a` is truthy and `b` otherwise |
| PyValues.Lookup | src/filter_ai_ads.py:55-57 | the value a decoded dict holds for a key, read from its last binding; `LookupAbsent`, `LookupUnbound` and `LookupLast` state it |
| PyValues.GetOr | src/filter_ai_ads.py:55-56 | `d.get(k, default)`: the value bound to `k`, or the default; `GetAbsent` states the absent case |
| PyValues.Get | src/fetch_historical_detailed.py:35 | `d.get(k)`: `d.get(k, None)` |
| PyValues.LookupAbsent | src/fetch_historical_detailed.py:66 | a key that no member of a dict binds is read as absent |
| PyValues.LookupUnbound | src/filter_ai_ads.py:77-80 | a key that differs from the key of every member is read as absent |
| PyValues.LookupLast | src/fetch_historical_detailed.py:35 | a key that is found is bound, to the value found, by a member that no later member rebinds: the last binding wins |
| PyValues.GetAbsent | src/fetch_historical_detailed.py:70 | `d.get(k, default)` on a dict without `k` is the default, and `d.get(k)` is None |
| PyValues.NumeralValue | src/fetch_historical_detailed.py:40 | the number a string of decimal digits denotes, most significant digit first; `NatDecimal` and `Decimal` are stated by it |
| PyValues.NatDecimal | src/fetch_historical_detailed.py:40 | `str(n)` of a natural number is a non-empty string of decimal digits that denotes `n`, with at least two digits from 10 on |
| PyValues.Decimal | src/fetch_historical_detailed.py:40 | `str(i)` of an integer starts with `-` exactly when `i` is negative, and its digits denote the magnitude of `i` |
| PyValues.Repr | src/fetch_historical_detailed.py:40 | `str()` of a non-string code: the literal of the decoded value, with lists and dicts written out element by element |
| PyValues.Str | src/fetch_historical_detailed.py:40 | `str(v)`: a string is itself, anything else its literal |
| PyValues.LowerChar | src/filter_ai_ads.py:62 | a lowered character is never upper-case; an upper-case letter moves 32 code points down the table, anything else is kept |
| PyValues.Lower | src/filter_ai_ads.py:62 | `s.lower()` keeps the length, leaves no upper-case letter, and lowers each character on its own |
| PyValues.LowerSlice | src/filter_ai_ads.py:62 | lowering commutes with taking a slice |
| AdNormalizer.CodeIn | src/fetch_historical_detailed.py:38 | the code read from an occupation dict is truthy exactly when its primary or its fallback key is |
| AdNormalizer.Prefix4 | src/fetch_historical_detailed.py:40 | `s[:4]` is a prefix of `s` of at most four characters: exactly four when `s` has that many, and all of `s` when it has at most four |
| AdNormalizer.CodeFromMapping | src/fetch_historical_detailed.py:38-40 | an occupation dict yields a code exactly when its code is truthy |
| AdNormalizer.ExtractSsyk4 | src/fetch_historical_detailed.py:30-49 | `extract_ssyk4` never fails and returns None or a string of at most four characters |
| AdNormalizer.Ssyk4FromConsultedMapping | src/fetch_historical_detailed.py:37-47 | on the consulted dict: the primary key's code when it is truthy, else the fallback's when that is truthy, else None; a falsy primary such as "" falls back |
| AdNormalizer.Ssyk4IgnoresListTail | src/fetch_historical_detailed.py:42-47 | only the first element of an occupation list is consulted: lists with the same first element give the same code |
| AdNormalizer.Ssyk4NoneForOtherShapes | src/fetch_historical_detailed.py:42-49 | an occupation that is neither a dict nor a non-empty list starting with a dict gives None, even when later elements carry codes |
| AdNormalizer.Ssyk4OfStringCode | src/fetch_historical_detailed.py:40 | a string code of four or more characters is cut to its first four |
| AdNormalizer.FourDigitNumeral | src/fetch_historical_detailed.py:40 | a number from 1000 to 9999 has a four-character numeral |
| AdNormalizer.Ssyk4OfNumericCode | src/fetch_historical_detailed.py:40 | a numeric four-digit code becomes its four-character decimal string |
| AdNormalizer.EmployerName | src/fetch_historical_detailed.py:70 | `(ad.get("employer") or {}).get("name")` raises exactly when the employer is truthy and not a dict |
| AdNormalizer.Normalize | src/fetch_historical_detailed.py:52-90 | `normalize` raises exactly when the employer lookup does; otherwise the source type is truthy and `ssyk4` is `extract_ssyk4(ad)` |
| AdNormalizer.NormalizeFields | src/fetch_historical_detailed.py:66-90 | id, external_id, headline, last_publication_date, application_deadline, salary_type, duration, salary_description, workplace_address, employment_type and working_hours_type are the ad's values for those keys (None when absent); description, must_have, nice_to_have and occupation pass through; the employer name is None without an employer and the employer dict's `name` otherwise; the publication date falls back to `published` when it is falsy; a truthy raw source type is kept, and the default is written exactly when the raw one is falsy or already the default |
| AdNormalizer.NormalizeBareAd | src/fetch_historical_detailed.py:65-90 | an ad with none of the keys read normalises to all-None fields, the default source type and no code |
| AdNormalizer.ToJson | src/fetch_historical_detailed.py:65-90 | the dict written has the 19 schema keys, in the order written |
| AdNormalizer.LookupDistinct | src/fetch_historical_detailed.py:142 | in a dict without repeated keys, the key of member `i` reads as member `i`'s value |
| AdNormalizer.SchemaKeysDistinct | src/fetch_historical_detailed.py:65-90 | no key is written twice |
| AdNormalizer.SchemaField | src/fetch_historical_detailed.py:142 | reading schema key `i` of a written record gives its `i`-th field |
| AdNormalizer.SchemaKeySet | src/fetch_historical_detailed.py:65-90 | a written record binds exactly the keys of the schema, whatever the ad |
| AdNormalizer.RoundTrip | src/fetch_historical_detailed.py:142 | reading a written record back gives the same record, field for field |
| HistoricalFetch.FirstAnswer | src/fetch_historical_detailed.py:119-127 | the first attempt that does not time out; every earlier attempt timed out |
| HistoricalFetch.FirstAnswerFrom | src/fetch_historical_detailed.py:119-127 | any attempt before which every attempt timed out, and which itself does not, is the first answer |
| HistoricalFetch.PageResponse | src/fetch_historical_detailed.py:118-130 | the retry loop ends with Timeout (`resp is None`) exactly when all MAX_RETRIES attempts timed out |
| HistoricalFetch.PageCalls | src/fetch_historical_detailed.py:119 | the retry loop sends between one and MAX_RETRIES requests |
| HistoricalFetch.RetryAnswer | src/fetch_historical_detailed.py:117-130 | when the first `n - 1` attempts time out and attempt `n` (at most MAX_RETRIES) answers, the page's response is that answer and `n` requests were sent |
| HistoricalFetch.Request | src/fetch_historical_detailed.py:118-130 | the retry loop's outcome is `PageResponse` and the number of requests it sends is `PageCalls` |
| HistoricalFetch.HitsOf | src/fetch_historical_detailed.py:133 | a truthy `hits` is the hit list; otherwise a truthy `results` is; otherwise the hits are `[]`, so they are truthy exactly when `hits` or `results` is |
| HistoricalFetch.NormalizeHit | src/fetch_historical_detailed.py:141 | `normalize(hit)` raises exactly when the hit is not a dict or its employer lookup raises; a record it returns has a truthy source type and `extract_ssyk4(hit)` as its code |
| HistoricalFetch.BatchFrom | src/fetch_historical_detailed.py:138-147 | the hit loop writes at most one record per hit, and one per hit exactly when it reaches the end |
| HistoricalFetch.WriteBatch | src/fetch_historical_detailed.py:138-147 | the same, for a whole page |
| HistoricalFetch.BatchStep | src/fetch_historical_detailed.py:138-147 | a hit that raises ends the loop; any other is written ahead of the rest |
| HistoricalFetch.FetchPage | src/fetch_historical_detailed.py:110-155 | one iteration of the page loop as a value: the records it writes and whether it goes on to the next offset or how it ends the day; `PageContinues`, `PageShort`, `PageEmpty`, `PageRetriesExhausted`, `PageCrashes` and `PageRecords` state it |
| HistoricalFetch.PageRun | src/fetch_historical_detailed.py:110-155 | the page loop from an offset not above MAX_OFFSET: this page, then, when it continues, the loop from `offset + LIMIT`; `DayStep` states it |
| HistoricalFetch.DayFrom | src/fetch_historical_detailed.py:103-159 | the page loop from any offset: stops at the ceiling past MAX_OFFSET, otherwise `PageRun`; `PastCeiling`, `OffsetsFrom`, `CallsFrom`, `PagesFrom`, `LastPageFrom` and `RecordsFrom` state it |
| HistoricalFetch.Day | src/fetch_historical_detailed.py:101-159 | the whole day, from offset 0: its offsets, requests, records and how it stops; `DayOffsets`, `DayPages`, `DayAtCeiling` and `ServedDay` state it |
| HistoricalFetch.CountInTarget | src/fetch_historical_detailed.py:145-147 | the target count is at most the number of records, and zero when no record has a target code |
| HistoricalFetch.CountInTargetAppend | src/fetch_historical_detailed.py:145-147 | target counts add up over consecutive stretches of records |
| HistoricalFetch.Sink.constructor | src/fetch_historical_detailed.py:170 | opening with "w" gives an empty file |
| HistoricalFetch.Sink.Write | src/fetch_historical_detailed.py:142 | a write appends one record and makes nothing more durable |
| HistoricalFetch.Sink.Flush | src/fetch_historical_detailed.py:176 | a flush keeps the records and makes all of them durable |
| HistoricalFetch.WriteHits | src/fetch_historical_detailed.py:137-147 | the hit loop appends the page's batch to the file, reports whether it completed, and when it did, how many records have a target code |
| HistoricalFetch.PastCeiling | src/fetch_historical_detailed.py:106-108 | past MAX_OFFSET the day requests and writes nothing more and stops at the ceiling |
| HistoricalFetch.ProcessPage | src/fetch_historical_detailed.py:110-155 | the day's run from `offset` is this page's offset, requests and records followed by the rest; a halt ends the day the way it says, a continuation hands over to `offset + LIMIT`; the counts match what was written |
| HistoricalFetch.ChunkStep | src/fetch_historical_detailed.py:110-155 | one pass of the page loop with its running totals (lines 139 and 146): the day's run is still what was requested, sent and written so far, now including this page, followed by the rest; a continuation leaves the loop from `offset + LIMIT` as the rest, and the totals count the records so far and those with a target code |
| HistoricalFetch.FetchChunk | src/fetch_historical_detailed.py:93-159 | `fetch_chunk` requests exactly the day's offsets, sends exactly the day's requests, and appends the day's records, flushing nothing; it raises exactly when the day crashes, and otherwise returns the number of records and how many have a target code; what it writes does not depend on the target set |
| HistoricalFetch.Range | src/fetch_historical_detailed.py:167-177 | the day loop from a day on: nothing once past the end, otherwise `RangeFromDay`; `RangeDays`, `RangeRecords` and `RangeTotals` state it |
| HistoricalFetch.RangeFromDay | src/fetch_historical_detailed.py:171-177 | one day and, unless it raises, the loop from the next day, with the totals added; `RangeStep` states it |
| HistoricalFetch.RangeStep | src/fetch_historical_detailed.py:171-177 | a day that raises ends the range; any other day is followed by the rest of the range |
| HistoricalFetch.HarvestDay | src/fetch_historical_detailed.py:173-176 | one pass of the day loop appends the day's records and flushes them all; when it raises, the range ends there, and otherwise the counts it returns and the records it wrote lead to the rest of the range |
| HistoricalFetch.HarvestRange | src/fetch_historical_detailed.py:162-183 | `main` writes the range's records into a new file, all of them durable; it raises exactly when some day does, and otherwise reports the range's totals |
| FetchProperties.BatchFromElements | src/fetch_historical_detailed.py:138-147 | the records from hit `i` on are the normalised hits in order; an incomplete loop stopped at a hit that raises |
| FetchProperties.WriteBatchElements | src/fetch_historical_detailed.py:138-147 | a page's records are its normalised hits in order; the loop completes exactly when every hit normalises, and otherwise stopped at the first that raises |
| FetchProperties.PageContinues | src/fetch_historical_detailed.py:151-155 | a page leads to the next offset exactly when it is a list of at least LIMIT hits that all normalise; then it writes one record per hit |
| FetchProperties.PageShort | src/fetch_historical_detailed.py:151-153 | a page ends the day as short exactly when it is a non-empty list of fewer than LIMIT hits that all normalise |
| FetchProperties.PageEmpty | src/fetch_historical_detailed.py:133-135 | a page ends the day as empty exactly when the body is a dict in which neither `hits` nor `results` is truthy (an empty `hits` falls through to `results`); it writes nothing |
| FetchProperties.PageRetriesExhausted | src/fetch_historical_detailed.py:118-130 | a page gives up exactly when all MAX_RETRIES attempts timed out; it then writes nothing and has sent MAX_RETRIES requests |
| FetchProperties.PageCrashes | src/fetch_historical_detailed.py:118-147 | a page raises exactly on an uncaught request error, a body that is not JSON or not a dict, truthy hits that are not a list, or a hit that does not normalise, which is the one after the last record written |
| FetchProperties.PageRecords | src/fetch_historical_detailed.py:138-147 | whatever way a page ends, its records are its leading hits normalised, in order; a page without a hit list writes nothing; no page ends at the ceiling |
| FetchProperties.DayStep | src/fetch_historical_detailed.py:105-155 | a page that halts ends the day there; a page that continues is followed by the loop at `offset + LIMIT` |
| FetchProperties.OffsetsFrom | src/fetch_historical_detailed.py:103-155 | the offsets requested from `offset` on are `offset + i * LIMIT`, never above MAX_OFFSET, and there is one exactly when `offset` is not above it |
| FetchProperties.DayOffsets | src/fetch_historical_detailed.py:103-108 | a day requests 0, LIMIT, 2 * LIMIT, ... in order, always the first, and at most MAX_OFFSET / LIMIT + 1 = 21 pages |
| FetchProperties.CallsFrom | src/fetch_historical_detailed.py:118-130 | a day sends at least one and at most MAX_RETRIES requests per page |
| FetchProperties.PagesFrom | src/fetch_historical_detailed.py:151-155 | every page but the last was full |
| FetchProperties.LastPageFrom | src/fetch_historical_detailed.py:105-155 | the last page ends the way the day stops, and only a day that stops at the ceiling ends with a full page or with none |
| FetchProperties.DayPages | src/fetch_historical_detailed.py:105-155 | a day stops at the ceiling exactly when every page was full; otherwise its last page ends it the way it stops |
| FetchProperties.RecordsFrom | src/fetch_historical_detailed.py:138-155 | a day writes what its pages write, in the order requested |
| FetchProperties.DayAtCeiling | src/fetch_historical_detailed.py:105-108 | a day that stops at the ceiling requested 21 pages, the last at MAX_OFFSET |
| FetchProperties.CeilingFrom | src/fetch_historical_detailed.py:105-108 | from an offset `k * LIMIT`, stopping at the ceiling means requesting every multiple of LIMIT up to MAX_OFFSET |
| FetchProperties.ServedPage | src/fetch_historical_detailed.py:132-155 | against an API that serves `ads` without faults, a page takes one request, writes the next at most LIMIT ads normalised, and is full, short or empty as the ads left are |
| FetchProperties.ServedCountFrom | src/fetch_historical_detailed.py:105-155 | such a day writes one record per ad left, up to the first MAX_OFFSET + LIMIT ads |
| FetchProperties.ServedRecordsFrom | src/fetch_historical_detailed.py:138-155 | such a day writes the ads left, normalised, in order |
| FetchProperties.ServedPagesFrom | src/fetch_historical_detailed.py:105-155 | from offset `k * LIMIT`, such a day requests `min(|ads| / LIMIT + 1, 21) - k` pages with one request each, and stops at the ceiling when there are at least 2100 ads, on an empty page when the count is a multiple of LIMIT, and on a short page otherwise |
| FetchProperties.ServedDay | src/fetch_historical_detailed.py:93-159 | a day served without faults writes its first 2100 ads normalised and in order and drops the rest, in `min(|ads| / LIMIT + 1, 21)` pages of one request each |
| FetchProperties.DayRecordsFrom | src/fetch_historical_detailed.py:141-142 | whatever holds of every normalised ad holds of every record written |
| FetchProperties.HarvestedRecords | src/fetch_historical_detailed.py:141-142 | every record the harvester writes has a truthy source type, a code of at most four characters, and exactly the schema's keys |
| FetchProperties.RangeDays | src/fetch_historical_detailed.py:167-177 | the range visits `start`, `start + 1`, ... ascending: all days to `end` when none raises, otherwise up to and including the first that raises; nothing when the start is after the end |
| FetchProperties.RangeRecords | src/fetch_historical_detailed.py:170-177 | the file holds the visited days' records, day after day, the raising day's included |
| FetchProperties.RangeTotals | src/fetch_historical_detailed.py:173-175 | without a raising day, the grand totals count the records written and those with a target code; the target total never exceeds the ad total |
| FetchProperties.ConfiguredRange | src/fetch_historical_detailed.py:15-16 | a run over the configured range in which no day raises visits 1073 days, from 2022-11-30 to 2025-11-06 |
| AiAdFilter.IsWordChar | src/filter_ai_ads.py:14 | the characters `\w` treats as word characters, as approximated here |
| AiAdFilter.BoundaryAt | src/filter_ai_ads.py:14 | `\b` at a position: a word character on exactly one side |
| AiAdFilter.MatchesAt | src/filter_ai_ads.py:13-27 | an alternative matches at a position: a literal occurs there; a whole word occurs there with a boundary on both sides |
| AiAdFilter.AnyAt | src/filter_ai_ads.py:27 | the alternation matches at a position exactly when one of its alternatives does |
| AiAdFilter.SearchFrom | src/filter_ai_ads.py:64 | `re.search` finds a match exactly when some alternative matches at some position |
| AiAdFilter.Search | src/filter_ai_ads.py:64 | `search_pattern.search(text)` with the keyword alternation; `SearchMeansSomePattern` and `LoweredKeywordSearch` state it |
| AiAdFilter.SearchMeansSomePattern | src/filter_ai_ads.py:64 | the search matches exactly when one of the alternatives occurs in the text |
| AiAdFilter.UpperCaseWordNeverMatchesLowered | src/filter_ai_ads.py:14 | a whole-word pattern starting with an upper-case letter never occurs in lowered text |
| AiAdFilter.LoweredSearchSkipsUpperCase | src/filter_ai_ads.py:62-64 | when the first alternatives are upper-case words, lowered text matches exactly when one of the others occurs |
| AiAdFilter.LoweredKeywordSearch | src/filter_ai_ads.py:13-27 | `\bAI\b`, `\bML\b`, `\bNLP\b` and `\bLLM\b` never match lowered text, which matches exactly when a literal keyword occurs in it |
| AiAdFilter.LiteralInAnyCase | src/filter_ai_ads.py:62-64 | a literal keyword written in any letter case in the text makes the line match |
| AiAdFilter.Examine | src/filter_ai_ads.py:52-91 | a line that does not parse raises; a record written has a non-empty text that, with the headline and lowered, matches |
| AiAdFilter.ExamineSelects | src/filter_ai_ads.py:55-64 | a line is selected exactly when it is a dict with a dict (or absent) description holding a non-empty string text, a string (or absent) headline, and a literal keyword in the lowered `headline + " " + text` |
| AiAdFilter.ExamineSkips | src/filter_ai_ads.py:55-60 | a falsy text (missing, None, empty) skips the line; a description that is not a dict raises; next to a truthy text, a headline or text that is not a string raises |
| AiAdFilter.ExamineCopies | src/filter_ai_ads.py:71-83 | a selected record copies the eight listed keys, the headline and the text from the line |
| AiAdFilter.Selected | src/filter_ai_ads.py:46-85 | no more records are written than lines are read |
| AiAdFilter.SelectedConcat | src/filter_ai_ads.py:46-91 | lines are decided one at a time: the records for two stretches are those of the first followed by those of the second |
| AiAdFilter.SelectedMatch | src/filter_ai_ads.py:59-64 | every record written has a non-empty text in which, with the headline and lowered, a literal keyword occurs |
| AiAdFilter.FilterCorpus | src/filter_ai_ads.py:46-91 | the loop writes the selected records in line order, counts every line, and its match count is the number of records written |
| AiAdFilter.RecordKeysPresent | src/filter_ai_ads.py:72-76 | on a harvested line, the keys the filter reads hold the harvested fields |
| AiAdFilter.RecordKeyAbsent | src/filter_ai_ads.py:77-80 | a key that differs from every schema key in length or first letter is absent from a harvested line |
| AiAdFilter.RecordKeysAbsent | src/filter_ai_ads.py:77-80 | `municipality`, `county`, `region` and `occupation_label` are absent from a harvested line |
| AiAdFilter.FilterHarvested | src/filter_ai_ads.py:71-83 | a harvested line with a string headline and a non-empty description text is selected exactly when the lowered `headline + " " + text` matches; its record then carries the harvested fields and null municipality, county, region and occupation label |

## Left out

- HTTP: the URL, the headers, the request timeout and the query parameters
  are not modelled. Each request is an oracle answer. `Raised` stands for
  every exception that the retry loop does not catch, `HTTPError` among
  them.
- `time.sleep`, every `print` (the harvester's final report included, whose
  totals `HarvestRange` returns), the filter's progress lines every 20000
  lines and its elapsed-time report have no effect on what is written and
  are not modelled.
- Dates: `datetime`, `timedelta` and the `strftime` day bounds are
  replaced by day numbers. The output file name is not modelled.
- File handling: opening, closing, the Desktop paths, and the filter's
  handlers for a missing input file and for any other failure outside the
  per-line `try` (`src/filter_ai_ads.py:101-106`) are not modelled. The
  corpus file is the `Sink` object. The filter's input is a sequence of
  decoded lines, and its output is the sequence of records returned.
- JSON encoding: `json.dumps` (`ensure_ascii` included) and the text of a
  line are not modelled. A line is its decoded value, or `Malformed`.
  Numbers with a fraction or an exponent are not modelled.
- PyValues.Repr: `str()` of a non-string code uses single quotes and no
  escapes, so Python's quote choice and escaping are not modelled. Only the
  first four characters of a code are kept, and for dict and list codes
  they can differ from Python's.
- PyValues.Lower and PyValues.LowerChar: model `str.lower()` on ASCII and Latin-1 only. Python
  also lowers letters beyond U+00FF, and a few of them lower to two
  characters. The lowered text still never contains an ASCII capital, which
  is all the upper-case-pattern result relies on.
- AiAdFilter.IsWordChar approximates `\w` by the ASCII word characters,
  the Latin-1 letters and every character above U+00FF. It only affects the
  four whole-word patterns, which never match lowered text whatever the
  boundaries.
- AiAdFilter.FilteredAd: the `match_keyword` field (`re.findall` with
  IGNORECASE, made into a set and joined) is not modelled, because its
  order is not determined.
- The regular-expression engine is replaced by the two kinds of
  alternative the pattern uses: literals and `\b`-delimited words.
- HistoricalFetch.Request, HistoricalFetch.FetchChunk: the code keeps no
  record of the requests it sends, so the number sent and the offsets
  requested are ghost out-parameters. `FetchChunk`'s are proved equal to
  `Day`'s; what they are is stated as lemmas on `Day` (`DayOffsets`,
  `CallsFrom`, `ServedDay`).
- HistoricalFetch.FetchChunk: proved for any normaliser passed to it; the
  harvester's is `NormalizeHit`, with `HarvestedRecords` stating what that
  adds. The target set is a parameter; `HarvestRange` passes
  `TARGET_SSYK4`.
