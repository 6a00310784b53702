/** Application settings that carry policy: the grade-by-category expense
    ceilings with their travel-mode allow-lists, the upload limits, and the two
    comma-separated lists (file extensions, CORS origins). */
module Settings {

  import opened Wrappers
  import opened Strings

  /** One category's entry in the rule table. `None` stands for a key the
      entry does not have; a category without an "allowed_modes" key reads as
      the empty list, as `dict.get("allowed_modes", [])` does. */
  datatype CategoryRule = CategoryRule(maxAmount: Option<real>, maxPerDay: Option<real>, allowedModes: seq<string>)

  /** grade -> category -> rule */
  type RuleTable = map<string, map<string, CategoryRule>>

  const Grades: seq<string> := ["A", "B", "C", "D"]

  const Categories: seq<string> := ["travel", "food", "accommodation", "medical", "communication", "other"]

  /** An ordinary category: the same ceiling per claim and per day, no modes. */
  function Capped(limit: real): CategoryRule
  {
    CategoryRule(Some(limit), Some(limit), [])
  }

  function TravelRule(limit: real, modes: seq<string>): CategoryRule
  {
    CategoryRule(Some(limit), Some(limit), modes)
  }

  const ExpenseRules: RuleTable := map[
    "A" := map[
      "travel" := TravelRule(1500.0, ["bus", "train"]),
      "food" := Capped(500.0),
      "accommodation" := Capped(2000.0),
      "medical" := Capped(1000.0),
      "communication" := Capped(300.0),
      "other" := Capped(500.0)],
    "B" := map[
      "travel" := TravelRule(2000.0, ["bus", "train", "cab"]),
      "food" := Capped(700.0),
      "accommodation" := Capped(3000.0),
      "medical" := Capped(1500.0),
      "communication" := Capped(500.0),
      "other" := Capped(700.0)],
    "C" := map[
      "travel" := TravelRule(3000.0, ["bus", "train", "cab", "flight_economy"]),
      "food" := Capped(1000.0),
      "accommodation" := Capped(5000.0),
      "medical" := Capped(2000.0),
      "communication" := Capped(700.0),
      "other" := Capped(1000.0)],
    "D" := map[
      "travel" := TravelRule(5000.0, ["bus", "train", "cab", "flight_economy", "flight_business"]),
      "food" := Capped(1500.0),
      "accommodation" := Capped(7000.0),
      "medical" := Capped(3000.0),
      "communication" := Capped(1000.0),
      "other" := Capped(1500.0)]
  ]

  /** Largest accepted upload, in bytes (10 MiB). */
  const MaxFileSize: nat := 10485760

  const AllowedExtensions: string := "pdf,jpg,jpeg,png"

  const CorsOrigins: string := "http://localhost:3000,http://localhost:8000"

  /** `rules.get(grade, {}).get(category, {})`, with `None` for the empty dict. */
  function LookupRule(rules: RuleTable, grade: string, category: string): (r: Option<CategoryRule>)
    ensures r.Some? <==> grade in rules && category in rules[grade]
    ensures r.Some? ==> r.value == rules[grade][category]
  {
    if grade in rules && category in rules[grade] then Some(rules[grade][category]) else None
  }

  /** `[part.strip() for part in raw.split(",")]`: one stripped piece per
      comma-separated field, in order. */
  function CommaList(raw: string): (items: seq<string>)
    ensures |items| == Count(raw, ',') + 1
    ensures forall k :: 0 <= k < |items| ==> items[k] == Strip(Split(raw, ',')[k])
  {
    var parts := Split(raw, ',');
    seq(|parts|, k requires 0 <= k < |parts| => Strip(parts[k]))
  }

  /** No piece of a comma list holds a comma. */
  lemma CommaListPieces(raw: string)
    ensures forall k :: 0 <= k < |CommaList(raw)| ==> ',' !in CommaList(raw)[k]
  {
    var parts := Split(raw, ',');
    forall k | 0 <= k < |parts|
      ensures ',' !in Strip(parts[k])
    {
      StripChars(parts[k]);
    }
  }

  /** `settings.allowed_extensions_list` */
  function AllowedExtensionsList(): (exts: seq<string>)
    ensures |exts| == Count(AllowedExtensions, ',') + 1
  {
    CommaList(AllowedExtensions)
  }

  /** The allow-list as `AllowedExtensionsList` reads it, written out. */
  const AllowedExtensionNames: seq<string> := ["pdf", "jpg", "jpeg", "png"]

  /** Parsing the extension setting gives the four extensions in order. */
  lemma AllowedExtensionsParsed()
    ensures AllowedExtensionsList() == AllowedExtensionNames
  {
    AllowedExtensionNamesLower();
    AllowedExtensionNamesJoined();
    CommaListOfJoin(AllowedExtensionNames);
  }

  /** The four extensions are lower-case words. */
  lemma AllowedExtensionNamesLower()
    ensures forall k :: 0 <= k < |AllowedExtensionNames| ==> LowerWord(AllowedExtensionNames[k])
  {
    var names := AllowedExtensionNames;
    assert LowerWord(names[0]) && LowerWord(names[1]) && LowerWord(names[2]) && LowerWord(names[3]);
  }

  /** Joined with commas, the four extensions are the setting. */
  lemma AllowedExtensionNamesJoined()
    ensures AllowedExtensions == Join(AllowedExtensionNames, ",")
  {
    var names := AllowedExtensionNames;
    assert Join(names[3..], ",") == "png";
    assert Join(names[2..], ",") == "jpeg,png";
    assert Join(names[1..], ",") == "jpg,jpeg,png";
  }

  /** The comma list of joined pieces that hold no comma and no whitespace
      is those pieces. */
  lemma {:induction false} CommaListOfJoin(names: seq<string>)
    requires |names| > 0
    requires forall k :: 0 <= k < |names| ==> LowerWord(names[k])
    ensures CommaList(Join(names, ",")) == names
  {
    forall k | 0 <= k < |names|
      ensures ',' !in names[k] && Strip(names[k]) == names[k]
    {
      var p := names[k];
      if |p| > 0 {
        assert p[0] in p && p[|p| - 1] in p;
      }
      TrimStartNoop(p);
      TrimEndNoop(p);
    }
    SplitJoin(names, ',');
  }

  /** A word of lower-case ASCII letters. */
  predicate LowerWord(w: string)
  {
    forall c :: c in w ==> 'a' <= c <= 'z'
  }

  /** `settings.cors_origins_list` */
  function CorsOriginsList(): (origins: seq<string>)
    ensures |origins| == Count(CorsOrigins, ',') + 1
  {
    CommaList(CorsOrigins)
  }

  /** A comma list without whitespace is recovered exactly by joining the
      pieces back with commas. */
  lemma {:induction false} CommaListJoin(raw: string)
    requires forall c :: c in raw ==> !IsSpace(c)
    ensures Join(CommaList(raw), ",") == raw
  {
    var parts := Split(raw, ',');
    forall k | 0 <= k < |parts|
      ensures Strip(parts[k]) == parts[k]
    {
      SplitPiecesAreInfixes(raw, ',', k);
      var p := parts[k];
      if |p| > 0 {
        assert p[0] in p && p[|p| - 1] in p;
      }
      TrimStartNoop(p);
      TrimEndNoop(p);
    }
    assert CommaList(raw) == parts;
    assert Join(parts, [',']) == raw;
  }

  /** Every character of a piece of `Split(s, sep)` is a character of `s`. */
  lemma {:induction false} SplitPiecesAreInfixes(s: string, sep: char, k: nat)
    requires k < |Split(s, sep)|
    ensures forall c :: c in Split(s, sep)[k] ==> c in s
    decreases |s|
  {
    if |s| > 0 {
      if s[0] == sep {
        if k > 0 {
          SplitPiecesAreInfixes(s[1..], sep, k - 1);
        }
      } else {
        SplitPiecesAreInfixes(s[1..], sep, k);
      }
    }
  }

  function Ceiling(grade: string, category: string): real
    requires grade in ExpenseRules && category in ExpenseRules[grade]
    requires ExpenseRules[grade][category].maxAmount.Some?
  {
    ExpenseRules[grade][category].maxAmount.value
  }

  /** Every grade lists the same six categories. */
  lemma SameSixCategories()
    ensures forall g :: g in ExpenseRules <==> g in Grades
    ensures forall g, c :: g in ExpenseRules ==> (c in ExpenseRules[g] <==> c in Categories)
  {
  }

  /** Every entry has a ceiling, and the per-claim and per-day ceilings agree. */
  lemma MaxAmountIsMaxPerDay()
    ensures forall g, c :: g in ExpenseRules && c in ExpenseRules[g] ==>
      ExpenseRules[g][c].maxAmount.Some? && ExpenseRules[g][c].maxAmount == ExpenseRules[g][c].maxPerDay
  {
  }

  predicate CeilingRises(c: string)
  {
    c in ExpenseRules["A"] && c in ExpenseRules["B"] && c in ExpenseRules["C"] && c in ExpenseRules["D"] &&
    ExpenseRules["A"][c].maxAmount.Some? && ExpenseRules["B"][c].maxAmount.Some? &&
    ExpenseRules["C"][c].maxAmount.Some? && ExpenseRules["D"][c].maxAmount.Some? &&
    Ceiling("A", c) < Ceiling("B", c) < Ceiling("C", c) < Ceiling("D", c)
  }

  /** For each category the ceiling rises strictly from grade A to B to C to D. */
  lemma CeilingsRiseWithGrade()
    ensures forall c :: c in Categories ==> CeilingRises(c)
  {
    TravelAndFoodCeilingsRise();
    LodgingAndMedicalCeilingsRise();
    OtherCeilingsRise();
    forall c | c in Categories
      ensures CeilingRises(c)
    {
      assert c == Categories[0] || c == Categories[1] || c == Categories[2] ||
             c == Categories[3] || c == Categories[4] || c == Categories[5];
    }
  }

  lemma TravelAndFoodCeilingsRise()
    ensures CeilingRises("travel") && CeilingRises("food")
  {
  }

  lemma LodgingAndMedicalCeilingsRise()
    ensures CeilingRises("accommodation") && CeilingRises("medical")
  {
  }

  lemma OtherCeilingsRise()
    ensures CeilingRises("communication") && CeilingRises("other")
  {
  }

  /** Travel modes only widen with grade, and grade A allows bus and train only. */
  lemma TravelModesNest()
    ensures ExpenseRules["A"]["travel"].allowedModes == ["bus", "train"]
    ensures forall m :: m in ExpenseRules["A"]["travel"].allowedModes ==> m in ExpenseRules["B"]["travel"].allowedModes
    ensures forall m :: m in ExpenseRules["B"]["travel"].allowedModes ==> m in ExpenseRules["C"]["travel"].allowedModes
    ensures forall m :: m in ExpenseRules["C"]["travel"].allowedModes ==> m in ExpenseRules["D"]["travel"].allowedModes
  {
  }
}
