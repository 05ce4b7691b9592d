/**
 * The government-scheme listing endpoints (backend/api/routers/schemes.py):
 * the MSP crop filter, the category filter and pagination of `/all`, and the
 * lookup of one scheme's details. The data are the fixed samples the
 * endpoints return.
 */
module SchemesRouter {
  import opened Wrappers
  import opened PyText
  import opened Http

  // ---------------------------------------------------------------------
  // Minimum support prices

  datatype MspCrop = MspCrop(cropName: string, variety: string, mspRate: int, unit: string, increaseFromPrevious: int)

  datatype MspRates = MspRates(year: string, crops: seq<MspCrop>)

  const SampleCrops: seq<MspCrop> := [
    MspCrop("Rice (Paddy)", "Common", 2183, "per quintal", 117),
    MspCrop("Wheat", "Common", 2275, "per quintal", 150),
    MspCrop("Cotton", "Medium Staple", 6620, "per quintal", 300)
  ]

  /** `crop_type.lower() in crop["crop_name"].lower()`. */
  predicate CropMatches(cropType: string, c: MspCrop) {
    Contains(Lower(c.cropName), Lower(cropType))
  }

  /** `get_msp_rates(crop_type)`: with a non-empty crop type, the crops whose
      name contains it ignoring case, in order; otherwise all of them. */
  function GetMspRates(cropType: Option<string>): (r: MspRates)
    ensures r.year == "2024-25"
    ensures cropType.None? || cropType.value == "" ==> r.crops == SampleCrops
    ensures cropType.Some? && cropType.value != "" ==>
      r.crops == Filter((c: MspCrop) => CropMatches(cropType.value, c), SampleCrops)
    ensures forall k :: 0 <= k < |r.crops| ==> r.crops[k] in SampleCrops
  {
    if cropType.Some? && cropType.value != "" then
      MspRates("2024-25", Filter((c: MspCrop) => CropMatches(cropType.value, c), SampleCrops))
    else
      MspRates("2024-25", SampleCrops)
  }

  /** Filtering by "RICE" finds "Rice (Paddy)" alone: the match ignores case. */
  lemma RiceFindsPaddy()
    ensures GetMspRates(Some("RICE")).crops == [SampleCrops[0]]
  {
    var p := (c: MspCrop) => CropMatches("RICE", c);
    RiceMatchesPaddy();
    RiceMissesOthers();
    FilterSnoc(p, [SampleCrops[0]], SampleCrops[1]);
    FilterSnoc(p, [SampleCrops[0], SampleCrops[1]], SampleCrops[2]);
    assert Filter(p, [SampleCrops[0]]) == [SampleCrops[0]] + Filter(p, []);
    assert [SampleCrops[0], SampleCrops[1], SampleCrops[2]] == SampleCrops;
  }

  lemma LowerRice()
    ensures Lower("RICE") == "rice"
  {
    var rice := Lower("RICE");
    assert |rice| == 4 && rice[0] == 'r' && rice[1] == 'i' && rice[2] == 'c' && rice[3] == 'e';
  }

  lemma RiceMatchesPaddy()
    ensures CropMatches("RICE", SampleCrops[0])
  {
    LowerRice();
    var name := SampleCrops[0].cropName;
    assert name[0] == 'R' && name[1] == 'i' && name[2] == 'c' && name[3] == 'e';
    LoweredPrefix(name, "rice");
  }

  /** A word that the lower-cased start of `s` spells occurs in `Lower(s)`. */
  lemma LoweredPrefix(s: string, word: string)
    requires |word| <= |s| && forall i :: 0 <= i < |word| ==> LowerChar(s[i]) == word[i]
    ensures Contains(Lower(s), word)
  {
    assert OccursAt(word, Lower(s), 0);
  }

  lemma RiceMissesOthers()
    ensures !CropMatches("RICE", SampleCrops[1]) && !CropMatches("RICE", SampleCrops[2])
  {
    LowerRice();
    var wheat, cotton := Lower("Wheat"), Lower("Cotton");
    assert forall i :: 0 <= i < |wheat| ==> wheat[i] != 'r' by {
      assert wheat[0] == 'w' && wheat[1] == 'h' && wheat[2] == 'e' && wheat[3] == 'a' && wheat[4] == 't';
    }
    NotContained(wheat, "rice");
    assert forall i :: 0 <= i < |cotton| ==> cotton[i] != 'r' by {
      assert cotton[0] == 'c' && cotton[1] == 'o' && cotton[2] == 't' && cotton[3] == 't';
      assert cotton[4] == 'o' && cotton[5] == 'n';
    }
    NotContained(cotton, "rice");
  }

  /** A word that starts with a letter absent from `s` does not occur in it. */
  lemma NotContained(s: string, word: string)
    requires word != [] && forall i :: 0 <= i < |s| ==> s[i] != word[0]
    ensures !Contains(s, word)
  {
    forall i | 0 <= i <= |s| - |word|
      ensures !OccursAt(word, s, i)
    {
      assert s[i..i + |word|][0] == s[i];
    }
  }

  // ---------------------------------------------------------------------
  // The scheme list

  datatype Scheme = Scheme(id: string, name: string, category: string)

  const SampleSchemes: seq<Scheme> := [
    Scheme("pm-kisan", "PM-KISAN (Pradhan Mantri Kisan Samman Nidhi)", "Direct Benefit Transfer"),
    Scheme("pm-fasal-bima", "Pradhan Mantri Fasal Bima Yojana (PMFBY)", "Crop Insurance"),
    Scheme("kcc", "Kisan Credit Card (KCC)", "Credit Support"),
    Scheme("soil-health-card", "Soil Health Card Scheme", "Soil Testing")
  ]

  predicate CategoryMatches(category: string, s: Scheme) {
    Contains(Lower(s.category), Lower(category))
  }

  /** The category filter of `get_all_schemes`: a non-empty category keeps,
      in order, the schemes whose category contains it ignoring case. */
  function FilterByCategory(category: Option<string>, schemes: seq<Scheme>): (r: seq<Scheme>)
    ensures category.None? || category.value == "" ==> r == schemes
    ensures category.Some? && category.value != "" ==>
      (forall k :: 0 <= k < |r| ==> r[k] in schemes && CategoryMatches(category.value, r[k]))
      && (forall k :: 0 <= k < |schemes| && CategoryMatches(category.value, schemes[k]) ==> schemes[k] in r)
  {
    if category.Some? && category.value != "" then Filter((s: Scheme) => CategoryMatches(category.value, s), schemes)
    else schemes
  }

  /** A non-empty category keeps the schemes in list order, each once:
      filtering around one scheme gives the matches before it, then that
      scheme if its category matches, then the matches after it. */
  lemma FilterByCategoryInOrder(category: string, before: seq<Scheme>, x: Scheme, after: seq<Scheme>)
    requires category != ""
    ensures FilterByCategory(Some(category), before + [x] + after) ==
      FilterByCategory(Some(category), before) +
      (if CategoryMatches(category, x) then [x] else []) +
      FilterByCategory(Some(category), after)
  {
    var p := (s: Scheme) => CategoryMatches(category, s);
    FilterAppend(p, before + [x], after);
    FilterSnoc(p, before, x);
  }

  /** The `n` consecutive items of `s` starting at `lo` (empty when they do not fit). */
  function Window<T>(s: seq<T>, lo: int, n: nat): seq<T>
  {
    if 0 <= lo && lo + n <= |s| then s[lo..lo + n] else []
  }

  /** `items[(page - 1) * limit : (page - 1) * limit + limit]`. */
  function Page<T>(items: seq<T>, page: int, limit: int): (r: seq<T>)
    ensures exists lo :: 0 <= lo <= |items| - |r| && r == Window(items, lo, |r|)
  {
    var lo := ClampIndex((page - 1) * limit, |items|);
    var r := Slice(items, (page - 1) * limit, (page - 1) * limit + limit);
    assert r == [] || r == Window(items, lo, |r|);
    assert r == [] ==> r == Window(items, 0, 0);
    r
  }

  /** A page never holds more than `limit` items, for any page number. */
  lemma PageBounded<T>(items: seq<T>, page: int, limit: int)
    ensures limit > 0 ==> |Page(items, page, limit)| <= limit
  {
    var start := (page - 1) * limit;
    if limit <= 0 {
    } else if page >= 1 {
      assert start >= 0;
    } else {
      assert (page - 1) * limit <= -limit;
    }
  }

  /** With a positive limit, page `p >= 1` is the p-th block of `limit` items. */
  lemma PageIsBlock<T>(items: seq<T>, page: int, limit: int)
    requires limit > 0 && page >= 1
    ensures var lo, hi := Min((page - 1) * limit, |items|), Min(page * limit, |items|);
      Page(items, page, limit) == items[lo..hi]
  {
    BlockBounds(page, limit);
    var start, end := (page - 1) * limit, page * limit;
    assert ClampIndex(start, |items|) == Min(start, |items|);
    assert ClampIndex(end, |items|) == Min(end, |items|);
  }

  /** Page `p >= 1` starts at a non-negative offset and ends `limit` later. */
  lemma BlockBounds(page: int, limit: int)
    requires limit > 0 && page >= 1
    ensures 0 <= (page - 1) * limit && (page - 1) * limit + limit == page * limit
  {
  }

  function Min(a: int, b: int): int {
    if a < b then a else b
  }

  /** `(total + limit - 1) // limit` is the ceiling of total / limit: the
      number of pages that hold every item, and no more. */
  lemma TotalPagesIsCeiling(total: nat, limit: int)
    requires limit != 0
    ensures var tp := FloorDiv(total + limit - 1, limit);
      limit > 0 ==> tp * limit >= total && (total > 0 ==> (tp - 1) * limit < total) && (total == 0 ==> tp == 0)
  {
    if limit < 0 {
      return;
    }
    var tp := FloorDiv(total + limit - 1, limit);
    assert limit * tp <= total + limit - 1 < limit * tp + limit;
    assert (tp - 1) * limit == limit * tp - limit;
  }

  datatype SchemeList = SchemeList(schemes: seq<Scheme>, total: int, page: int, limit: int, totalPages: int)

  /** `get_all_schemes(category, page, limit)` over the scheme list
      `schemes` (`SampleSchemes` in the service). A zero limit makes the
      page-count division raise, which the handler turns into a 500; every
      other input gives the requested page of the filtered list with its
      total and page count. */
  function GetAllSchemes(schemes: seq<Scheme>, category: Option<string>, page: int, limit: int)
    : (r: Result<SchemeList, HttpError>)
    ensures r.Err? <==> limit == 0
    ensures r.Err? ==> r.error == HttpError(InternalServerError, "integer division or modulo by zero")
    ensures r.Ok? ==> var filtered := FilterByCategory(category, schemes);
      r.value.total == |filtered| && r.value.page == page && r.value.limit == limit
      && r.value.schemes == Page(filtered, page, limit)
      && (limit > 0 ==> |r.value.schemes| <= limit && r.value.totalPages * limit >= r.value.total
                        && (r.value.total > 0 ==> (r.value.totalPages - 1) * limit < r.value.total))
  {
    var filtered := FilterByCategory(category, schemes);
    var paginated := Page(filtered, page, limit);
    if limit == 0 then Err(HttpError(InternalServerError, "integer division or modulo by zero"))
    else
      var tp := FloorDiv(|filtered| + limit - 1, limit);
      PageBounded(filtered, page, limit);
      TotalPagesIsCeiling(|filtered|, limit);
      Ok(SchemeList(paginated, |filtered|, page, limit, tp))
  }

  // ---------------------------------------------------------------------
  // Scheme details

  datatype SchemeDetails = SchemeDetails(id: string, name: string, category: string, benefitAmount: string, helpline: string)

  const PmKisanDetails := SchemeDetails(
    "pm-kisan", "PM-KISAN (Pradhan Mantri Kisan Samman Nidhi)", "Direct Benefit Transfer",
    "₹6,000 per year in 3 installments", "155261")

  /** `get_scheme_details(scheme_id)`: only "pm-kisan" has details; any other
      id is a 404 "Scheme not found", re-raised as it is rather than turned
      into a 500. */
  function GetSchemeDetails(schemeId: string): (r: Result<SchemeDetails, HttpError>)
    ensures r.Ok? <==> schemeId == "pm-kisan"
    ensures r.Ok? ==> r.value.id == schemeId
    ensures r.Err? ==> r.error == HttpError(NotFound, "Scheme not found")
  {
    var known: map<string, SchemeDetails> := map["pm-kisan" := PmKisanDetails];
    if schemeId !in known then Err(HttpError(NotFound, "Scheme not found"))
    else Ok(known[schemeId])
  }
}
