/** The keyword filter: it reads the harvested corpus line by line, keeps
    the ads whose lower-cased headline and description text match one of
    the AI keywords, and writes a projection of each kept ad.

    The keyword alternation is a list of patterns: the four `\b...\b`
    patterns are whole-word matches of an upper-case word, every other
    pattern is a literal. The search runs on text that has already been
    lower-cased, with a case-sensitive pattern, so the whole-word patterns
    never match and the decision is literal containment. */
module AiAdFilter {
  import opened PyValues
  import opened AdNormalizer

  /** One alternative of the search pattern. */
  datatype Pattern =
    | Literal(text: string)     // the characters themselves
    | WholeWord(word: string)   // `\b` + word + `\b`

  /** The alternatives, in the order they are joined with `|`. */
  const KEYWORDS: seq<Pattern> := [
    WholeWord("AI"), WholeWord("ML"), WholeWord("NLP"), WholeWord("LLM"),
    Literal("artificiell intelligens"), Literal("maskininlärning"), Literal("machine learning"),
    Literal("deep learning"), Literal("neurala nätverk"), Literal("neural networks"),
    Literal("computer vision"), Literal("datorseende"), Literal("natural language processing"),
    Literal("generativ ai"), Literal("generative ai"), Literal("genai"),
    Literal("språkmodell"), Literal("language model"), Literal("reinforcement learning"),
    Literal("prediktiv analys"), Literal("predictive analysis"),
    Literal("chatgpt"), Literal("openai"), Literal("gpt-3"), Literal("gpt-4"), Literal("gpt-4o"),
    Literal("copilot"), Literal("midjourney"), Literal("dall-e"), Literal("stable diffusion"),
    Literal("hugging face"), Literal("pytorch"), Literal("tensorflow"), Literal("keras"),
    Literal("scikit-learn"), Literal("langchain"), Literal("gemini"), Literal("anthropic"), Literal("claude"),
    Literal("bert"), Literal("transformer model")]

  /** `\w`: letters, digits and the underscore; above ASCII, the letters of
      Latin-1 and every character beyond it. */
  predicate IsWordChar(c: char) {
    ('a' <= c <= 'z') || ('A' <= c <= 'Z') || ('0' <= c <= '9') || c == '_' ||
    (c >= '\U{00C0}' && c != '\U{00D7}' && c != '\U{00F7}')
  }

  /** `\b` at position `i`: a word character on exactly one side. */
  predicate BoundaryAt(s: string, i: nat)
    requires i <= |s|
  {
    (i > 0 && IsWordChar(s[i - 1])) != (i < |s| && IsWordChar(s[i]))
  }

  /** `w` occurs in `s` starting at position `i`. */
  predicate OccursAt(s: string, w: string, i: nat) {
    i + |w| <= |s| && s[i..i + |w|] == w
  }

  /** Pattern `p` matches `s` at position `i`. */
  predicate MatchesAt(p: Pattern, s: string, i: nat)
    requires i <= |s|
  {
    match p
    case Literal(t) => OccursAt(s, t, i)
    case WholeWord(w) => OccursAt(s, w, i) && BoundaryAt(s, i) && BoundaryAt(s, i + |w|)
  }

  /** Some alternative of `patterns` from the `k`-th on matches at
      position `i`. */
  function AnyAt(patterns: seq<Pattern>, s: string, i: nat, k: nat): (r: bool)
    requires i <= |s| && k <= |patterns|
    decreases |patterns| - k
    ensures r <==> exists j | k <= j < |patterns| :: MatchesAt(patterns[j], s, i)
  {
    if k == |patterns| then false
    else MatchesAt(patterns[k], s, i) || AnyAt(patterns, s, i, k + 1)
  }

  /** The scan of `re.search` from position `i` on: the alternatives are
      tried at each position in turn. */
  function SearchFrom(patterns: seq<Pattern>, s: string, i: nat): (r: bool)
    requires i <= |s|
    decreases |s| - i
    ensures r <==> exists j, k | i <= j <= |s| && 0 <= k < |patterns| :: MatchesAt(patterns[k], s, j)
  {
    AnyAt(patterns, s, i, 0) || (i < |s| && SearchFrom(patterns, s, i + 1))
  }

  /** `re.search(search_pattern, s)` is not None. */
  predicate Search(s: string) {
    SearchFrom(KEYWORDS, s, 0)
  }

  /** Pattern `p` occurs anywhere in `s`. */
  predicate Occurs(p: Pattern, s: string) {
    exists i | 0 <= i <= |s| :: MatchesAt(p, s, i)
  }

  /** The search finds a match exactly when one of the alternatives occurs. */
  lemma SearchMeansSomePattern(patterns: seq<Pattern>, s: string)
    ensures SearchFrom(patterns, s, 0) <==> exists k | 0 <= k < |patterns| :: Occurs(patterns[k], s)
  {
    if SearchFrom(patterns, s, 0) {
      var j, k :| 0 <= j <= |s| && 0 <= k < |patterns| && MatchesAt(patterns[k], s, j);
      assert Occurs(patterns[k], s);
    }
  }

  /** The first `m` alternatives are whole words that start upper-case. */
  predicate UpperCaseWordsFirst(patterns: seq<Pattern>, m: nat) {
    m <= |patterns| &&
    forall k | 0 <= k < m :: patterns[k].WholeWord? && |patterns[k].word| > 0 && IsUpper(patterns[k].word[0])
  }

  /** A word that starts upper-case never occurs in lowered text, whatever
      the boundaries around it. */
  lemma UpperCaseWordNeverMatchesLowered(p: Pattern, s: string)
    requires p.WholeWord? && |p.word| > 0 && IsUpper(p.word[0])
    ensures !Occurs(p, Lower(s))
  {
  }

  /** When the first `m` alternatives are upper-case whole words, lowered
      text is matched exactly when one of the others occurs in it. */
  lemma LoweredSearchSkipsUpperCase(patterns: seq<Pattern>, m: nat, s: string)
    requires UpperCaseWordsFirst(patterns, m)
    ensures forall k | 0 <= k < m :: !Occurs(patterns[k], Lower(s))
    ensures SearchFrom(patterns, Lower(s), 0) <==>
      exists k | m <= k < |patterns| :: Occurs(patterns[k], Lower(s))
  {
    forall k | 0 <= k < m ensures !Occurs(patterns[k], Lower(s)) {
      UpperCaseWordNeverMatchesLowered(patterns[k], s);
    }
    SearchMeansSomePattern(patterns, Lower(s));
  }

  /** What decides the filter: `\bAI\b`, `\bML\b`, `\bNLP\b` and
      `\bLLM\b` never match lowered text, and lowered text is selected
      exactly when one of the literal keywords after them occurs in it. */
  lemma LoweredKeywordSearch(s: string)
    ensures forall k | 0 <= k < 4 :: !Occurs(KEYWORDS[k], Lower(s))
    ensures Search(Lower(s)) <==> exists k | 4 <= k < |KEYWORDS| :: Occurs(KEYWORDS[k], Lower(s))
  {
    assert UpperCaseWordsFirst(KEYWORDS, 4);
    LoweredSearchSkipsUpperCase(KEYWORDS, 4, s);
  }

  /** A literal keyword that occurs in the text in any letter case (a slice
      whose lowering is the keyword) makes the lowered text selected. */
  lemma LiteralInAnyCase(s: string, k: nat, i: nat)
    requires 4 <= k < |KEYWORDS|
    requires KEYWORDS[k].Literal? && i + |KEYWORDS[k].text| <= |s|
    requires Lower(s[i..i + |KEYWORDS[k].text|]) == KEYWORDS[k].text
    ensures Search(Lower(s))
  {
    var t := KEYWORDS[k].text;
    LowerSlice(s, i, i + |t|);
    assert MatchesAt(KEYWORDS[k], Lower(s), i);
    SearchMeansSomePattern(KEYWORDS, Lower(s));
  }

  /** One line of the corpus as `json.loads` sees it. */
  datatype Line = Malformed | Parsed(data: Json)

  /** The record written for a selected ad. The keywords it matched
      (`match_keyword`) are not part of this model. */
  datatype FilteredAd = FilteredAd(
    id: Json,
    headline: string,
    employerName: Json,
    publicationDate: Json,
    employmentType: Json,
    municipality: Json,
    county: Json,
    region: Json,
    occupationLabel: Json,
    fullDescriptionText: string)

  /** The body of the `try` for one line: None when the line is passed over
      by `continue`, the record to write when it is selected, Raises when
      something in it raises (and the handler passes it over). */
  function Examine(line: Line): (r: Py<Option<FilteredAd>>)
    ensures line.Malformed? ==> r.Raises?
    ensures r.Returns? && r.value.Some? ==>
      var ad := r.value.value;
      ad.fullDescriptionText != "" && Search(Lower(ad.headline + " " + ad.fullDescriptionText))
  {
    match line
    case Malformed => Raises
    case Parsed(data) =>
      if !data.JObj? then Raises
      else
        var headline := GetOr(data, "headline", JStr(""));
        var description := GetOr(data, "description", JObj([]));
        if !description.JObj? then Raises
        else
          var adText := GetOr(description, "text", JStr(""));
          if !Truthy(adText) then Returns(None)
          else if !headline.JStr? || !adText.JStr? then Raises
          else if !Search(Lower(headline.s + " " + adText.s)) then Returns(None)
          else
            Returns(Some(FilteredAd(
              id := Get(data, "id"),
              headline := headline.s,
              employerName := Get(data, "employer_name"),
              publicationDate := Get(data, "publication_date"),
              employmentType := Get(data, "employment_type"),
              municipality := Get(data, "municipality"),
              county := Get(data, "county"),
              region := Get(data, "region"),
              occupationLabel := Get(data, "occupation_label"),
              fullDescriptionText := adText.s)))
  }

  /** The records written for `lines`, in line order. */
  function Selected(lines: seq<Line>): (out: seq<FilteredAd>)
    ensures |out| <= |lines|
  {
    if lines == [] then []
    else
      var last := lines[|lines| - 1];
      Selected(lines[..|lines| - 1]) +
        (match Examine(last) case Returns(Some(ad)) => [ad] case _ => [])
  }

  /** `main()` of the filter: read every line, examine it, write the
      selected records. It returns the records written and the two
      counters it reports. */
  method FilterCorpus(lines: seq<Line>) returns (written: seq<FilteredAd>, totalCount: nat, matchCount: nat)
    ensures written == Selected(lines)
    ensures totalCount == |lines|
    ensures matchCount == |written|
  {
    written, totalCount, matchCount := [], 0, 0;
    for i := 0 to |lines|
      invariant written == Selected(lines[..i])
      invariant totalCount == i
      invariant matchCount == |written|
    {
      assert lines[..i + 1][..i] == lines[..i];
      totalCount := totalCount + 1;
      var outcome := Examine(lines[i]);
      if outcome.Returns? && outcome.value.Some? {
        matchCount := matchCount + 1;
        written := written + [outcome.value.value];
      }
    }
    assert lines[..|lines|] == lines;
  }

  /** A line is selected exactly when it parses to a dict whose
      `description` is a dict (or absent) holding a non-empty string `text`,
      whose `headline` is a string (or absent), and whose lowered
      `headline + " " + text` contains a literal keyword. */
  lemma ExamineSelects(line: Line)
    ensures (Examine(line).Returns? && Examine(line).value.Some?) <==>
      line.Parsed? && line.data.JObj? &&
      var headline := GetOr(line.data, "headline", JStr(""));
      var description := GetOr(line.data, "description", JObj([]));
      description.JObj? &&
      var adText := GetOr(description, "text", JStr(""));
      headline.JStr? && adText.JStr? && adText.s != "" &&
      exists k | 4 <= k < |KEYWORDS| :: Occurs(KEYWORDS[k], Lower(headline.s + " " + adText.s))
  {
    var r := Examine(line);
    if line.Parsed? && line.data.JObj? {
      var headline := GetOr(line.data, "headline", JStr(""));
      var description := GetOr(line.data, "description", JObj([]));
      if description.JObj? {
        var adText := GetOr(description, "text", JStr(""));
        if headline.JStr? && adText.JStr? {
          var text := headline.s + " " + adText.s;
          LoweredKeywordSearch(text);
          if adText.s != "" && Search(Lower(text)) {
            assert r.Returns? && r.value.Some?;
          } else {
            assert r == Returns(None);
          }
        } else {
          assert !(r.Returns? && r.value.Some?);
        }
      } else {
        assert r.Raises?;
      }
    } else {
      assert r.Raises?;
    }
  }

  /** A line is passed over, without raising, when its description text is
      missing or empty; a description stored as null or as anything but a
      dict, a headline that is not a string next to a non-empty text, and a
      text that is not a string all raise, and the line is passed over. */
  lemma ExamineSkips(line: Line)
    requires line.Parsed? && line.data.JObj?
    ensures var description := GetOr(line.data, "description", JObj([]));
      (!description.JObj? ==> Examine(line).Raises?) &&
      (description.JObj? && !Truthy(GetOr(description, "text", JStr(""))) ==> Examine(line) == Returns(None)) &&
      (description.JObj? && Truthy(GetOr(description, "text", JStr(""))) &&
         (!GetOr(line.data, "headline", JStr("")).JStr? || !GetOr(description, "text", JStr("")).JStr?) ==>
         Examine(line).Raises?)
  {
  }

  /** A selected record copies the listed fields of the line, the headline,
      and the description text. */
  lemma ExamineCopies(line: Line)
    requires Examine(line).Returns? && Examine(line).value.Some?
    ensures var ad, data := Examine(line).value.value, line.data;
      ad.id == Get(data, "id") && ad.employerName == Get(data, "employer_name") &&
      ad.publicationDate == Get(data, "publication_date") && ad.employmentType == Get(data, "employment_type") &&
      ad.municipality == Get(data, "municipality") && ad.county == Get(data, "county") &&
      ad.region == Get(data, "region") && ad.occupationLabel == Get(data, "occupation_label") &&
      JStr(ad.headline) == GetOr(data, "headline", JStr("")) &&
      JStr(ad.fullDescriptionText) == GetOr(GetOr(data, "description", JObj([])), "text", JStr(""))
  {
  }

  /** Lines are decided one at a time: the records for two stretches of
      lines are the records for the first followed by those for the
      second. */
  lemma {:induction false} SelectedConcat(a: seq<Line>, b: seq<Line>)
    decreases |b|
    ensures Selected(a + b) == Selected(a) + Selected(b)
  {
    if b == [] {
      assert a + b == a;
    } else {
      var init := b[..|b| - 1];
      assert (a + b)[..|a + b| - 1] == a + init;
      assert (a + b)[|a + b| - 1] == b[|b| - 1];
      SelectedConcat(a, init);
    }
  }

  /** Every record written has a non-empty description text in which, with
      the headline, a literal keyword occurs once lowered. */
  lemma {:induction false} SelectedMatch(lines: seq<Line>)
    decreases |lines|
    ensures forall x | x in Selected(lines) ::
      x.fullDescriptionText != "" &&
      exists k | 4 <= k < |KEYWORDS| :: Occurs(KEYWORDS[k], Lower(x.headline + " " + x.fullDescriptionText))
  {
    if lines != [] {
      SelectedMatch(lines[..|lines| - 1]);
      forall x | x in Selected(lines)
        ensures exists k | 4 <= k < |KEYWORDS| :: Occurs(KEYWORDS[k], Lower(x.headline + " " + x.fullDescriptionText))
      {
        if x !in Selected(lines[..|lines| - 1]) {
          LoweredKeywordSearch(x.headline + " " + x.fullDescriptionText);
        }
      }
    }
  }

  /** The keys of the schema that the filter reads hold the record's
      fields. */
  lemma RecordKeysPresent(n: NormalizedAd)
    ensures var m := ToJson(n).members;
      Lookup(m, "id") == Some(n.id) && Lookup(m, "headline") == Some(n.headline) &&
      Lookup(m, "employer_name") == Some(n.employerName) &&
      Lookup(m, "publication_date") == Some(n.publicationDate) &&
      Lookup(m, "description") == Some(n.description) &&
      Lookup(m, "employment_type") == Some(n.employmentType)
  {
    var m := ToJson(n).members;
    SchemaKeysDistinct(n);
    LookupDistinct(m, 0);
    LookupDistinct(m, 2);
    LookupDistinct(m, 3);
    LookupDistinct(m, 4);
    LookupDistinct(m, 7);
    LookupDistinct(m, 15);
  }

  /** A key that differs from every key of the schema in its length or
      its first letter is absent from a harvested record. */
  lemma RecordKeyAbsent(n: NormalizedAd, k: string)
    requires |k| > 0
    requires forall i | 0 <= i < |SCHEMA_KEYS| :: |SCHEMA_KEYS[i]| != |k| || SCHEMA_KEYS[i][0] != k[0]
    ensures Lookup(ToJson(n).members, k) == None
  {
    var m := ToJson(n).members;
    forall i | 0 <= i < |m| ensures m[i].0 != k {
      assert m[i].0 == SCHEMA_KEYS[i];
      if |SCHEMA_KEYS[i]| == |k| {
        assert SCHEMA_KEYS[i][0] != k[0];
      }
    }
    LookupUnbound(m, k);
  }

  /** The other keys the filter reads are not in the schema. */
  lemma RecordKeysAbsent(n: NormalizedAd)
    ensures var m := ToJson(n).members;
      Lookup(m, "municipality") == None && Lookup(m, "county") == None &&
      Lookup(m, "region") == None && Lookup(m, "occupation_label") == None
  {
    RecordKeyAbsent(n, "municipality");
    RecordKeyAbsent(n, "county");
    RecordKeyAbsent(n, "region");
    RecordKeyAbsent(n, "occupation_label");
  }

  /** A harvested record, read back by the filter: it is selected exactly
      when its headline and description text contain a literal keyword, and
      then its `id`, employer name, publication date and employment type
      are carried over, while `municipality`, `county`, `region` and
      `occupation_label`, which the harvester never writes, are null. */
  lemma FilterHarvested(n: NormalizedAd)
    requires n.headline.JStr? && n.description.JObj?
    requires var t := GetOr(n.description, "text", JStr("")); t.JStr? && t.s != ""
    ensures var h, t := n.headline.s, GetOr(n.description, "text", JStr("")).s;
      Examine(Parsed(ToJson(n))) ==
        if Search(Lower(h + " " + t)) then
          Returns(Some(FilteredAd(n.id, h, n.employerName, n.publicationDate, n.employmentType,
                                  JNull, JNull, JNull, JNull, t)))
        else Returns(None)
  {
    RecordKeysPresent(n);
    RecordKeysAbsent(n);
  }
}
