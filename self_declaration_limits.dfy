/** Limits for claims filed without a bill ("self-declarations"): a per-claim
    ceiling, a monthly total and a monthly count per grade, and the categories
    that may or may not be self-declared. Unlike the ordinary expense rules,
    grade D is the strictest tier here, and unknown grades are read as D. */
module SelfDeclarationLimits {

  import opened Strings

  datatype Tier = Tier(perClaim: real, monthlyTotal: real, maxCount: real)

  const Limits: map<string, Tier> := map[
    "A" := Tier(300.0, 500.0, 3.0),
    "B" := Tier(250.0, 400.0, 3.0),
    "C" := Tier(200.0, 300.0, 3.0),
    "D" := Tier(150.0, 200.0, 3.0)
  ]

  const AllowedCategories: seq<string> := ["travel", "food", "transport", "miscellaneous"]

  const ForbiddenCategories: seq<string> := ["accommodation"]

  /** The tier a grade is looked up under: its upper-case form, or "D". */
  function TierName(grade: string): (t: string)
    ensures t in Limits
    ensures Upper(grade) in Limits ==> t == Upper(grade)
    ensures Upper(grade) !in Limits ==> t == "D"
  {
    var g := Upper(grade);
    if g in Limits then g else "D"
  }

  /** `get_self_declaration_limit(grade, limit_type)`; an unknown limit type
      reads as 0. */
  function GetSelfDeclarationLimit(grade: string, limitType: string): (v: real)
    ensures limitType != "per_claim" && limitType != "monthly_total" && limitType != "max_count" ==> v == 0.0
    ensures v >= 0.0
  {
    var tier := Limits[TierName(grade)];
    if limitType == "per_claim" then tier.perClaim
    else if limitType == "monthly_total" then tier.monthlyTotal
    else if limitType == "max_count" then tier.maxCount
    else 0.0
  }

  /** The three kinds of limit the claim route asks for. */
  predicate KnownKind(limitType: string)
  {
    limitType == "per_claim" || limitType == "monthly_total" || limitType == "max_count"
  }

  /** An unrecognised grade gets grade D's limits. */
  lemma UnknownGradeIsD(grade: string, limitType: string)
    requires Upper(grade) !in Limits
    ensures GetSelfDeclarationLimit(grade, limitType) == GetSelfDeclarationLimit("D", limitType)
  {
    assert Upper("D") == "D";
  }

  /** The grade is matched case-insensitively. */
  lemma {:induction false} GradeCaseInsensitive(grade: string, limitType: string)
    ensures GetSelfDeclarationLimit(grade, limitType) == GetSelfDeclarationLimit(Upper(grade), limitType)
  {
    UpperIdempotent(grade);
  }

  /** No grade, known or not, gets a limit below grade D's. */
  lemma DIsStrictest(grade: string, limitType: string)
    ensures GetSelfDeclarationLimit("D", limitType) <= GetSelfDeclarationLimit(grade, limitType)
  {
    assert Upper("D") == "D";
  }

  /** In every tier the per-claim ceiling is below the monthly total, both
      fall strictly from A to D, and the monthly count is 3 throughout. */
  lemma TiersOrdered()
    ensures forall g :: g in Limits ==> Limits[g].perClaim < Limits[g].monthlyTotal && Limits[g].maxCount == 3.0
    ensures Limits["A"].perClaim > Limits["B"].perClaim > Limits["C"].perClaim > Limits["D"].perClaim
    ensures Limits["A"].monthlyTotal > Limits["B"].monthlyTotal > Limits["C"].monthlyTotal > Limits["D"].monthlyTotal
  {
  }

  /** `is_category_allowed_for_self_declaration`: exactly the categories
      that read travel, food, transport or miscellaneous once lower-cased. */
  function IsCategoryAllowed(category: string): (allowed: bool)
    ensures allowed <==> Lower(category) in {"travel", "food", "transport", "miscellaneous"}
  {
    Lower(category) in AllowedCategories
  }

  /** `is_category_forbidden_for_self_declaration`: exactly the categories
      that read "accommodation" once lower-cased. */
  function IsCategoryForbidden(category: string): (forbidden: bool)
    ensures forbidden <==> Lower(category) == "accommodation"
  {
    Lower(category) in ForbiddenCategories
  }

  /** Both checks ignore case: a category, its lower-case and its upper-case
      form are allowed alike and forbidden alike. */
  lemma {:induction false} CategoryChecksIgnoreCase(category: string)
    ensures IsCategoryAllowed(Upper(category)) == IsCategoryAllowed(Lower(category)) == IsCategoryAllowed(category)
    ensures IsCategoryForbidden(Upper(category)) == IsCategoryForbidden(Lower(category)) == IsCategoryForbidden(category)
  {
    LowerOfUpper(category);
    LowerIdempotent(category);
  }

  /** No category is both allowed and forbidden. */
  lemma AllowedAndForbiddenDisjoint(category: string)
    ensures !(IsCategoryAllowed(category) && IsCategoryForbidden(category))
  {
  }
}
