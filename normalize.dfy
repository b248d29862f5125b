/** Record normalisation of the historical harvester: the occupation-code
    extractor and the projection of a raw advertisement onto the fixed flat
    schema that is written, one record per line, to the corpus file. */
module AdNormalizer {
  import opened PyValues

  /** The primary and the fallback key of an occupation code. */
  const PRIMARY_CODE_KEY: string := "legacy_ams_taxonomy_id"
  const FALLBACK_CODE_KEY: string := "ssyk"

  /** The `source_type` written when the raw record has none. */
  const DEFAULT_SOURCE_TYPE: string := "historical_api"

  /** `occ.get(primary) or occ.get(fallback)` on an occupation dict. */
  function CodeIn(occ: Json): (code: Json)
    requires occ.JObj?
    ensures Truthy(code) <==> Truthy(Get(occ, PRIMARY_CODE_KEY)) || Truthy(Get(occ, FALLBACK_CODE_KEY))
  {
    Or(Get(occ, PRIMARY_CODE_KEY), Get(occ, FALLBACK_CODE_KEY))
  }

  /** `s[:4]`. */
  function Prefix4(s: string): (r: string)
    ensures |r| <= 4
    ensures r <= s
    ensures |s| >= 4 ==> |r| == 4
    ensures |s| <= 4 ==> r == s
  {
    if |s| <= 4 then s else s[..4]
  }

  /** The code an occupation dict yields: the first four characters of
      `str(code)` when the code is truthy. */
  function CodeFromMapping(occ: Json): (r: Option<string>)
    requires occ.JObj?
    ensures r.Some? <==> Truthy(CodeIn(occ))
  {
    var code := CodeIn(occ);
    if Truthy(code) then Some(Prefix4(Str(code))) else None
  }

  /** `extract_ssyk4(ad)`: a dict occupation is read directly, a non-empty
      list through its first element only, and anything else gives None. */
  function ExtractSsyk4(ad: Json): (r: Option<string>)
    requires ad.JObj?
    ensures r.Some? ==> |r.value| <= 4
  {
    var occ := Get(ad, "occupation");
    match occ
    case JObj(_) => CodeFromMapping(occ)
    case JList(items) => if items != [] && items[0].JObj? then CodeFromMapping(items[0]) else None
    case _ => None
  }

  /** One line of the corpus file: the keys of the flat schema, in the order
      the harvester writes them. */
  datatype NormalizedAd = NormalizedAd(
    id: Json,
    externalId: Json,
    headline: Json,
    employerName: Json,
    publicationDate: Json,
    lastPublicationDate: Json,
    applicationDeadline: Json,
    description: Json,
    mustHave: Json,
    niceToHave: Json,
    occupation: Json,
    salaryType: Json,
    duration: Json,
    salaryDescription: Json,
    workplaceAddress: Json,
    employmentType: Json,
    workingHoursType: Json,
    sourceType: Json,
    ssyk4: Option<string>)

  /** The keys of the flat schema, in order. */
  const SCHEMA_KEYS: seq<string> := [
    "id", "external_id", "headline", "employer_name", "publication_date",
    "last_publication_date", "application_deadline", "description", "must_have",
    "nice_to_have", "occupation", "salary_type", "duration", "salary_description",
    "workplace_address", "employment_type", "working_hours_type", "source_type", "ssyk4"]

  /** The raw keys a normalised record is read from. */
  const SOURCE_KEYS: set<string> := {
    "id", "external_id", "headline", "employer", "publication_date", "published",
    "last_publication_date", "application_deadline", "description", "must_have",
    "nice_to_have", "occupation", "salary_type", "duration", "salary_description",
    "workplace_address", "employment_type", "working_hours_type", "source_type"}

  /** `(ad.get("employer") or {}).get("name")`: raises AttributeError when the
      employer is a truthy value other than a dict. */
  function EmployerName(ad: Json): (r: Py<Json>)
    requires ad.JObj?
    ensures r.Raises? <==> Truthy(Get(ad, "employer")) && !Get(ad, "employer").JObj?
  {
    var employer := Or(Get(ad, "employer"), JObj([]));
    if employer.JObj? then Returns(Get(employer, "name")) else Raises
  }

  /** `normalize(ad)`. */
  function Normalize(ad: Json): (r: Py<NormalizedAd>)
    requires ad.JObj?
    ensures r.Raises? <==> EmployerName(ad).Raises?
    ensures r.Returns? ==> Truthy(r.value.sourceType)
    ensures r.Returns? ==> r.value.ssyk4 == ExtractSsyk4(ad)
  {
    var ssyk4 := ExtractSsyk4(ad);
    match EmployerName(ad)
    case Raises => Raises
    case Returns(employerName) =>
      Returns(NormalizedAd(
        id := Get(ad, "id"),
        externalId := Get(ad, "external_id"),
        headline := Get(ad, "headline"),
        employerName := employerName,
        publicationDate := Or(Get(ad, "publication_date"), Get(ad, "published")),
        lastPublicationDate := Get(ad, "last_publication_date"),
        applicationDeadline := Get(ad, "application_deadline"),
        description := Get(ad, "description"),
        mustHave := Get(ad, "must_have"),
        niceToHave := Get(ad, "nice_to_have"),
        occupation := Get(ad, "occupation"),
        salaryType := Get(ad, "salary_type"),
        duration := Get(ad, "duration"),
        salaryDescription := Get(ad, "salary_description"),
        workplaceAddress := Get(ad, "workplace_address"),
        employmentType := Get(ad, "employment_type"),
        workingHoursType := Get(ad, "working_hours_type"),
        sourceType := Or(Get(ad, "source_type"), JStr(DEFAULT_SOURCE_TYPE)),
        ssyk4 := ssyk4))
  }

  /** The occupation-code rule on the dict that is consulted (the occupation
      itself, or the first element of an occupation list): the primary key
      when it is truthy, otherwise the fallback key when that is truthy, and
      None when neither is. A falsy primary such as "" falls back too. */
  lemma Ssyk4FromConsultedMapping(ad: Json, occ: Json)
    requires ad.JObj? && occ.JObj?
    requires Get(ad, "occupation") == occ
          || (Get(ad, "occupation").JList? && Get(ad, "occupation").items != []
              && Get(ad, "occupation").items[0] == occ)
    ensures var primary, fallback := Get(occ, PRIMARY_CODE_KEY), Get(occ, FALLBACK_CODE_KEY);
      && (Truthy(primary) ==> ExtractSsyk4(ad) == Some(Prefix4(Str(primary))))
      && (!Truthy(primary) && Truthy(fallback) ==> ExtractSsyk4(ad) == Some(Prefix4(Str(fallback))))
      && (!Truthy(primary) && !Truthy(fallback) ==> ExtractSsyk4(ad) == None)
  {
  }

  /** Only the first element of an occupation list is consulted: two ads
      whose lists start with the same element get the same code, whatever
      follows it. */
  lemma Ssyk4IgnoresListTail(ad1: Json, ad2: Json)
    requires ad1.JObj? && ad2.JObj?
    requires Get(ad1, "occupation").JList? && Get(ad2, "occupation").JList?
    requires Get(ad1, "occupation").items != [] && Get(ad2, "occupation").items != []
    requires Get(ad1, "occupation").items[0] == Get(ad2, "occupation").items[0]
    ensures ExtractSsyk4(ad1) == ExtractSsyk4(ad2)
  {
  }

  /** No code when the occupation is neither a dict nor a non-empty list
      whose first element is a dict, even when later elements carry codes. */
  lemma Ssyk4NoneForOtherShapes(ad: Json)
    requires ad.JObj?
    requires var occ := Get(ad, "occupation");
      !occ.JObj? && !(occ.JList? && occ.items != [] && occ.items[0].JObj?)
    ensures ExtractSsyk4(ad) == None
  {
  }

  /** A string code of four or more characters is cut to its first four. */
  lemma Ssyk4OfStringCode(ad: Json, occ: Json, code: string)
    requires ad.JObj? && occ.JObj? && Get(ad, "occupation") == occ
    requires Get(occ, PRIMARY_CODE_KEY) == JStr(code) && |code| >= 4
    ensures ExtractSsyk4(ad) == Some(code[..4])
  {
    assert code[..4] == if |code| == 4 then code else code[..4];
  }

  lemma FourDigitNumeral(n: nat)
    requires 1000 <= n <= 9999
    ensures |NatDecimal(n)| == 4
  {
    var d1, d2, d3 := n / 1000, n / 100, n / 10;
    assert d2 / 10 == d1 && d3 / 10 == d2;
    assert |NatDecimal(d1)| == 1;
    assert |NatDecimal(d2)| == |NatDecimal(d1)| + 1;
    assert |NatDecimal(d3)| == |NatDecimal(d2)| + 1;
    assert |NatDecimal(n)| == |NatDecimal(d3)| + 1;
  }

  /** A four-digit numeric code (a JSON number such as 2512) becomes its
      four-character decimal string. */
  lemma Ssyk4OfNumericCode(ad: Json, occ: Json, code: int)
    requires ad.JObj? && occ.JObj? && Get(ad, "occupation") == occ
    requires Get(occ, PRIMARY_CODE_KEY) == JInt(code) && 1000 <= code <= 9999
    ensures ExtractSsyk4(ad) == Some(NatDecimal(code))
    ensures |ExtractSsyk4(ad).value| == 4
  {
    FourDigitNumeral(code);
  }

  /** The fields of a normalised record in terms of the raw ad: the scalar
      fields and the nested structures pass through unchanged, the employer
      name is None when there is no employer, the publication date falls
      back to "published", and the source type falls back to the default
      whenever the raw one is missing or falsy. */
  lemma NormalizeFields(ad: Json)
    requires ad.JObj? && Normalize(ad).Returns?
    ensures var n := Normalize(ad).value;
      && n.id == Get(ad, "id")
      && n.externalId == Get(ad, "external_id")
      && n.headline == Get(ad, "headline")
      && n.lastPublicationDate == Get(ad, "last_publication_date")
      && n.applicationDeadline == Get(ad, "application_deadline")
      && n.salaryType == Get(ad, "salary_type")
      && n.duration == Get(ad, "duration")
      && n.salaryDescription == Get(ad, "salary_description")
      && n.workplaceAddress == Get(ad, "workplace_address")
      && n.employmentType == Get(ad, "employment_type")
      && n.workingHoursType == Get(ad, "working_hours_type")
    ensures var n, employer, source := Normalize(ad).value, Get(ad, "employer"), Get(ad, "source_type");
      && n.description == Get(ad, "description")
      && n.mustHave == Get(ad, "must_have")
      && n.niceToHave == Get(ad, "nice_to_have")
      && n.occupation == Get(ad, "occupation")
      && (!Truthy(employer) ==> n.employerName == JNull)
      && (Truthy(employer) ==> employer.JObj? && n.employerName == Get(employer, "name"))
      && (Truthy(Get(ad, "publication_date")) ==> n.publicationDate == Get(ad, "publication_date"))
      && (!Truthy(Get(ad, "publication_date")) ==> n.publicationDate == Get(ad, "published"))
      && (n.sourceType == JStr(DEFAULT_SOURCE_TYPE) <==> !Truthy(source) || source == JStr(DEFAULT_SOURCE_TYPE))
      && (Truthy(source) ==> n.sourceType == source)
  {
    var employer := Get(ad, "employer");
    if !Truthy(employer) {
      GetAbsent(JObj([]), "name", JNull);
    }
  }

  /** An ad that has none of the keys the schema reads normalises to a
      record whose fields are all None, with the default source type and no
      occupation code. */
  lemma {:induction false} NormalizeBareAd(ad: Json)
    requires ad.JObj? && Keys(ad.members) !! SOURCE_KEYS
    ensures Normalize(ad) == Returns(NormalizedAd(
      JNull, JNull, JNull, JNull, JNull, JNull, JNull, JNull, JNull,
      JNull, JNull, JNull, JNull, JNull, JNull, JNull, JNull,
      JStr(DEFAULT_SOURCE_TYPE), None))
  {
    forall k | k in SOURCE_KEYS ensures Get(ad, k) == JNull {
      GetAbsent(ad, k, JNull);
    }
    GetAbsent(JObj([]), "name", JNull);
  }

  /** The dict `normalize` builds, as it is serialised. */
  function ToJson(n: NormalizedAd): (r: Json)
    ensures r.JObj?
    ensures |r.members| == |SCHEMA_KEYS|
    ensures forall i | 0 <= i < |SCHEMA_KEYS| :: r.members[i].0 == SCHEMA_KEYS[i]
  {
    JObj([
      ("id", n.id),
      ("external_id", n.externalId),
      ("headline", n.headline),
      ("employer_name", n.employerName),
      ("publication_date", n.publicationDate),
      ("last_publication_date", n.lastPublicationDate),
      ("application_deadline", n.applicationDeadline),
      ("description", n.description),
      ("must_have", n.mustHave),
      ("nice_to_have", n.niceToHave),
      ("occupation", n.occupation),
      ("salary_type", n.salaryType),
      ("duration", n.duration),
      ("salary_description", n.salaryDescription),
      ("workplace_address", n.workplaceAddress),
      ("employment_type", n.employmentType),
      ("working_hours_type", n.workingHoursType),
      ("source_type", n.sourceType),
      ("ssyk4", match n.ssyk4 case Some(c) => JStr(c) case None => JNull)])
  }

  /** Reading a corpus line back into the schema: the inverse of ToJson. */
  function FromJson(j: Json): NormalizedAd
    requires j.JObj?
  {
    NormalizedAd(
      id := Get(j, "id"),
      externalId := Get(j, "external_id"),
      headline := Get(j, "headline"),
      employerName := Get(j, "employer_name"),
      publicationDate := Get(j, "publication_date"),
      lastPublicationDate := Get(j, "last_publication_date"),
      applicationDeadline := Get(j, "application_deadline"),
      description := Get(j, "description"),
      mustHave := Get(j, "must_have"),
      niceToHave := Get(j, "nice_to_have"),
      occupation := Get(j, "occupation"),
      salaryType := Get(j, "salary_type"),
      duration := Get(j, "duration"),
      salaryDescription := Get(j, "salary_description"),
      workplaceAddress := Get(j, "workplace_address"),
      employmentType := Get(j, "employment_type"),
      workingHoursType := Get(j, "working_hours_type"),
      sourceType := Get(j, "source_type"),
      ssyk4 := match Get(j, "ssyk4") case JStr(c) => Some(c) case _ => None)
  }

  /** No two members bind the same key. */
  predicate DistinctKeys(members: seq<(string, Json)>) {
    forall i, j | 0 <= i < j < |members| :: members[i].0 != members[j].0
  }

  lemma {:induction false} LookupDistinct(members: seq<(string, Json)>, i: nat)
    requires DistinctKeys(members)
    requires i < |members|
    ensures Lookup(members, members[i].0) == Some(members[i].1)
  {
    var init := members[..|members| - 1];
    if i < |members| - 1 {
      assert init[i] == members[i];
      LookupDistinct(init, i);
    }
  }

  lemma SchemaKeysDistinct(n: NormalizedAd)
    ensures DistinctKeys(ToJson(n).members)
  {
    var m := ToJson(n).members;
    forall i, j | 0 <= i < j < |m| ensures m[i].0 != m[j].0 {
      assert m[i].0 == SCHEMA_KEYS[i] && m[j].0 == SCHEMA_KEYS[j];
    }
  }

  /** Reading key `SCHEMA_KEYS[i]` of a written record gives its i-th member. */
  lemma SchemaField(n: NormalizedAd, i: nat)
    requires i < |SCHEMA_KEYS|
    ensures Get(ToJson(n), SCHEMA_KEYS[i]) == ToJson(n).members[i].1
  {
    SchemaKeysDistinct(n);
    LookupDistinct(ToJson(n).members, i);
  }

  /** A written record binds exactly the keys of the schema. */
  lemma SchemaKeySet(n: NormalizedAd)
    ensures Keys(ToJson(n).members) == set k | k in SCHEMA_KEYS
  {
    var m := ToJson(n).members;
    forall k | k in SCHEMA_KEYS ensures k in Keys(m) {
      var i :| 0 <= i < |SCHEMA_KEYS| && SCHEMA_KEYS[i] == k;
      assert m[i] in m;
    }
  }

  /** Writing a normalised record and reading the line back gives the same
      record, field for field. */
  lemma {:induction false} RoundTrip(n: NormalizedAd)
    ensures FromJson(ToJson(n)) == n
  {
    SchemaField(n, 0); SchemaField(n, 1); SchemaField(n, 2); SchemaField(n, 3);
    SchemaField(n, 4); SchemaField(n, 5); SchemaField(n, 6); SchemaField(n, 7);
    SchemaField(n, 8); SchemaField(n, 9); SchemaField(n, 10); SchemaField(n, 11);
    SchemaField(n, 12); SchemaField(n, 13); SchemaField(n, 14); SchemaField(n, 15);
    SchemaField(n, 16); SchemaField(n, 17); SchemaField(n, 18);
  }
}
