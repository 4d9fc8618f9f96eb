/** The two pydantic schemas of the backend: `UserProfile`, whose fields
    are all optional, and `GarmentAnalysis`, the structured result of a
    garment analysis with its required fields and its score range. */
module Models {
  import opened Common

  /** A field of an incoming JSON object as pydantic sees it: left out,
      given as `null`, or given a value. */
  datatype Field<+T> = Absent | Null | Given(value: T)

  datatype UserProfile = UserProfile(
    name: Option<string>,
    budgetTier: Option<string>,
    styleKeywords: Option<seq<string>>,
    clothingTypesLiked: Option<seq<string>>,
    colors: Option<seq<string>>)

  datatype RawUserProfile = RawUserProfile(
    name: Field<string>,
    budgetTier: Field<string>,
    styleKeywords: Field<seq<string>>,
    clothingTypesLiked: Field<seq<string>>,
    colors: Field<seq<string>>)

  /** An `Optional[str]` field that defaults to `None`. */
  function OptionalText(f: Field<string>): Option<string>
  {
    if f.Given? then Some(f.value) else None
  }

  /** An `Optional[List[str]]` field whose default is a fresh empty list. */
  function OptionalList(f: Field<seq<string>>): Option<seq<string>>
  {
    match f
    case Absent => Some([])
    case Null => None
    case Given(l) => Some(l)
  }

  /** `UserProfile(**raw)`: every field is optional, so validation never
      fails; a left-out name or budget tier is `None` and a left-out list
      is empty. */
  function ParseUserProfile(raw: RawUserProfile): (p: UserProfile)
    ensures raw.name.Absent? ==> p.name == None
    ensures raw.budgetTier.Absent? ==> p.budgetTier == None
    ensures raw.styleKeywords.Absent? ==> p.styleKeywords == Some([])
    ensures raw.clothingTypesLiked.Absent? ==> p.clothingTypesLiked == Some([])
    ensures raw.colors.Absent? ==> p.colors == Some([])
    ensures raw.name.Given? ==> p.name == Some(raw.name.value)
    ensures raw.budgetTier.Given? ==> p.budgetTier == Some(raw.budgetTier.value)
    ensures raw.styleKeywords.Given? ==> p.styleKeywords == Some(raw.styleKeywords.value)
    ensures raw.clothingTypesLiked.Given? ==> p.clothingTypesLiked == Some(raw.clothingTypesLiked.value)
    ensures raw.colors.Given? ==> p.colors == Some(raw.colors.value)
    ensures raw.name.Null? ==> p.name == None
    ensures raw.budgetTier.Null? ==> p.budgetTier == None
    ensures raw.styleKeywords.Null? ==> p.styleKeywords == None
    ensures raw.clothingTypesLiked.Null? ==> p.clothingTypesLiked == None
    ensures raw.colors.Null? ==> p.colors == None
  {
    UserProfile(
      OptionalText(raw.name), OptionalText(raw.budgetTier),
      OptionalList(raw.styleKeywords), OptionalList(raw.clothingTypesLiked),
      OptionalList(raw.colors))
  }

  function DumpField<T>(o: Option<T>): Field<T>
  {
    if o.Some? then Given(o.value) else Null
  }

  /** `profile.model_dump()`: every field written, `None` as `null`. */
  function DumpUserProfile(p: UserProfile): RawUserProfile
  {
    RawUserProfile(
      DumpField(p.name), DumpField(p.budgetTier), DumpField(p.styleKeywords),
      DumpField(p.clothingTypesLiked), DumpField(p.colors))
  }

  /** Leaving a field out validates the same as giving its default: `null`
      for the name and the budget tier, `[]` for the lists. */
  lemma ProfileAbsentIsDefault(raw: RawUserProfile)
    ensures ParseUserProfile(raw.(name := Absent)) == ParseUserProfile(raw.(name := Null))
    ensures ParseUserProfile(raw.(budgetTier := Absent)) == ParseUserProfile(raw.(budgetTier := Null))
    ensures ParseUserProfile(raw.(styleKeywords := Absent)) == ParseUserProfile(raw.(styleKeywords := Given([])))
    ensures ParseUserProfile(raw.(clothingTypesLiked := Absent)) == ParseUserProfile(raw.(clothingTypesLiked := Given([])))
    ensures ParseUserProfile(raw.(colors := Absent)) == ParseUserProfile(raw.(colors := Given([])))
  {
  }

  /** Dumping a profile and validating the dump gives the same profile. */
  lemma ProfileRoundTrip(p: UserProfile)
    ensures ParseUserProfile(DumpUserProfile(p)) == p
  {
  }

  datatype GarmentAnalysis = GarmentAnalysis(
    category: string,
    garmentType: string,
    styleAesthetic: seq<string>,
    culturalElements: seq<string>,
    vibeMood: seq<string>,
    colors: seq<string>,
    patterns: seq<string>,
    preferenceScore: int,
    bodyShapeTips: seq<string>,
    stylingSuggestions: seq<string>)
  {
    /** The `ge=0, le=100` constraint on the preference score. */
    predicate Valid()
    {
      0 <= preferenceScore <= 100
    }
  }

  datatype RawGarmentAnalysis = RawGarmentAnalysis(
    category: Field<string>,
    garmentType: Field<string>,
    styleAesthetic: Field<seq<string>>,
    culturalElements: Field<seq<string>>,
    vibeMood: Field<seq<string>>,
    colors: Field<seq<string>>,
    patterns: Field<seq<string>>,
    preferenceScore: Field<int>,
    bodyShapeTips: Field<seq<string>>,
    stylingSuggestions: Field<seq<string>>)

  /** The fields of `GarmentAnalysis`, in declaration order. */
  datatype GarmentField =
    | CategoryField | TypeField | StyleAestheticField | CulturalElementsField
    | VibeMoodField | ColorsField | PatternsField | PreferenceScoreField
    | BodyShapeTipsField | StylingSuggestionsField

  /** The outcome of validation: the analysis, or the fields in error. */
  datatype Validation = Accepted(analysis: GarmentAnalysis) | Rejected(errors: seq<GarmentField>)

  /** A required field (`Field(...)`): neither left out nor `null`. */
  function Required<T>(f: Field<T>, tag: GarmentField): seq<GarmentField>
  {
    if f.Given? then [] else [tag]
  }

  /** A list field with `default_factory=list`: may be left out, but not
      given as `null`. */
  function Defaulted<T>(f: Field<T>, tag: GarmentField): seq<GarmentField>
  {
    if f.Null? then [tag] else []
  }

  /** The preference score: required, and within 0..100. */
  function ScoreErrors(f: Field<int>): seq<GarmentField>
  {
    if f.Given? && 0 <= f.value <= 100 then [] else [PreferenceScoreField]
  }

  /** Every field in error, in declaration order, as pydantic collects
      them all before it raises. */
  function GarmentErrors(raw: RawGarmentAnalysis): seq<GarmentField>
  {
    Required(raw.category, CategoryField)
    + Required(raw.garmentType, TypeField)
    + Required(raw.styleAesthetic, StyleAestheticField)
    + Defaulted(raw.culturalElements, CulturalElementsField)
    + Required(raw.vibeMood, VibeMoodField)
    + Required(raw.colors, ColorsField)
    + Defaulted(raw.patterns, PatternsField)
    + ScoreErrors(raw.preferenceScore)
    + Required(raw.bodyShapeTips, BodyShapeTipsField)
    + Required(raw.stylingSuggestions, StylingSuggestionsField)
  }

  /** `GarmentAnalysis(**raw)`. It is accepted exactly when every required
      field is given, no defaulted list is `null` and the score lies in
      0..100; an accepted analysis is valid, carries the given values and
      has empty lists for the left-out defaulted fields. */
  function ParseGarmentAnalysis(raw: RawGarmentAnalysis): (r: Validation)
    ensures r.Accepted? <==>
      && raw.category.Given? && raw.garmentType.Given? && raw.styleAesthetic.Given?
      && raw.vibeMood.Given? && raw.colors.Given? && raw.bodyShapeTips.Given?
      && raw.stylingSuggestions.Given?
      && !raw.culturalElements.Null? && !raw.patterns.Null?
      && raw.preferenceScore.Given? && 0 <= raw.preferenceScore.value <= 100
    ensures r.Accepted? ==> r.analysis.Valid()
    ensures r.Accepted? ==> r.analysis.preferenceScore == raw.preferenceScore.value
    ensures r.Accepted? && raw.culturalElements.Absent? ==> r.analysis.culturalElements == []
    ensures r.Accepted? && raw.patterns.Absent? ==> r.analysis.patterns == []
    ensures r.Accepted? && raw.culturalElements.Given? ==> r.analysis.culturalElements == raw.culturalElements.value
    ensures r.Accepted? && raw.patterns.Given? ==> r.analysis.patterns == raw.patterns.value
    ensures r.Accepted? ==>
      && r.analysis.category == raw.category.value
      && r.analysis.garmentType == raw.garmentType.value
      && r.analysis.styleAesthetic == raw.styleAesthetic.value
      && r.analysis.vibeMood == raw.vibeMood.value
      && r.analysis.colors == raw.colors.value
      && r.analysis.bodyShapeTips == raw.bodyShapeTips.value
      && r.analysis.stylingSuggestions == raw.stylingSuggestions.value
    ensures r.Rejected? ==> r.errors != []
  {
    var errors := GarmentErrors(raw);
    if errors != [] then Rejected(errors)
    else Accepted(GarmentAnalysis(
      raw.category.value, raw.garmentType.value, raw.styleAesthetic.value,
      if raw.culturalElements.Given? then raw.culturalElements.value else [],
      raw.vibeMood.value, raw.colors.value,
      if raw.patterns.Given? then raw.patterns.value else [],
      raw.preferenceScore.value, raw.bodyShapeTips.value, raw.stylingSuggestions.value))
  }

  /** Leaving out a defaulted list validates the same as giving `[]`. */
  lemma GarmentAbsentIsDefault(raw: RawGarmentAnalysis)
    ensures ParseGarmentAnalysis(raw.(culturalElements := Absent)) == ParseGarmentAnalysis(raw.(culturalElements := Given([])))
    ensures ParseGarmentAnalysis(raw.(patterns := Absent)) == ParseGarmentAnalysis(raw.(patterns := Given([])))
  {
  }

  /** `analysis.model_dump()`: every field given. */
  function DumpGarmentAnalysis(a: GarmentAnalysis): RawGarmentAnalysis
  {
    RawGarmentAnalysis(
      Given(a.category), Given(a.garmentType), Given(a.styleAesthetic),
      Given(a.culturalElements), Given(a.vibeMood), Given(a.colors), Given(a.patterns),
      Given(a.preferenceScore), Given(a.bodyShapeTips), Given(a.stylingSuggestions))
  }

  /** A dumped analysis validates back to itself exactly when its score is
      in range; otherwise only the score is in error. */
  lemma GarmentRoundTrip(a: GarmentAnalysis)
    ensures a.Valid() ==> ParseGarmentAnalysis(DumpGarmentAnalysis(a)) == Accepted(a)
    ensures !a.Valid() ==> ParseGarmentAnalysis(DumpGarmentAnalysis(a)) == Rejected([PreferenceScoreField])
  {
  }
}
