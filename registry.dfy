/**
  The tool catalogue that server.py's `list_tools` returns: nine descriptors,
  each with a name, a description and a JSON-Schema object for its arguments.
 */
module Registry {
  import opened Json
  import opened Schema

  const SkinTypes: seq<string> := ["oily", "dry", "combination", "sensitive", "normal"]

  /** The tool descriptions: short stand-ins for the listed prose. */
  const AnalyzeSkinFromPhotoDescription: string :=
    "[photo scan]"

  const SearchKbeautyBrandsDescription: string :=
    "[brands]"

  const RecommendRoutineDescription: string :=
    "[routine]"

  const AnalyzeIngredientsDescription: string :=
    "[ingredients]"

  const ProductComparisonDescription: string :=
    "[comparison]"

  const KbeautyTrendsDescription: string :=
    "[trends]"

  const SeasonalSkincareGuideDescription: string :=
    "[seasonal]"

  const DupesFinderDescription: string :=
    "[dupes]"

  const SkinConcernMatcherDescription: string :=
    "[concerns]"

  /** server.py's `list_tools`, in its order. */
  function ListTools(): (tools: seq<Tool>)
    ensures |tools| == 9
  {
    [ Tool("analyze_skin_from_photo",
           AnalyzeSkinFromPhotoDescription,
           SkinPhotoSchema),
      Tool("search_kbeauty_brands",
           SearchKbeautyBrandsDescription,
           BrandSearchSchema),
      Tool("recommend_routine",
           RecommendRoutineDescription,
           RoutineSchema),
      Tool("analyze_ingredients",
           AnalyzeIngredientsDescription,
           IngredientsSchema),
      Tool("product_comparison",
           ProductComparisonDescription,
           ComparisonSchema),
      Tool("kbeauty_trends",
           KbeautyTrendsDescription,
           TrendsSchema),
      Tool("seasonal_skincare_guide",
           SeasonalSkincareGuideDescription,
           SeasonalSchema),
      Tool("dupes_finder",
           DupesFinderDescription,
           DupesSchema),
      Tool("skin_concern_matcher",
           SkinConcernMatcherDescription,
           ConcernMatcherSchema)
    ]
  }

  const SkinPhotoProperties: map<string, Json> := map[
    "image_description" := StringProp("[context]"),
    "analysis_focus" := JObj(map[
      "type" := JStr("array"),
      "items" := JObj(map["type" := JStr("string"),
                          "enum" := Strings(["skin_tone", "pigmentation", "acne", "blackheads", "pores", "texture", "wrinkles", "dark_circles", "overall_condition"])]),
      "description" := JStr("[focus]")]),
    "user_age" := NumberProp("[age]"),
    "skin_type_self_assessment" := EnumProp(["oily", "dry", "combination", "sensitive", "normal", "unknown"], "[self-assessed]")]

  const SkinPhotoSchema: Json := ObjectSchema(SkinPhotoProperties, ["image_description"])

  const BrandSearchProperties: map<string, Json> :=
    map["brand_name" := StringProp("[brand]")]

  const BrandSearchSchema: Json := ObjectSchema(BrandSearchProperties, ["brand_name"])

  const RoutineProperties: map<string, Json> := map[
    "skin_type" := EnumProp(SkinTypes, "[skin type]"),
    "skin_concerns" := StringArrayProp("[concerns]"),
    "budget" := EnumProp(["budget", "mid-range", "luxury", "mixed"], "[budget]")]

  const RoutineSchema: Json := ObjectSchema(RoutineProperties, ["skin_type"])

  const IngredientsProperties: map<string, Json> := map[
    "ingredients" := StringArrayProp("[ingredients]"),
    "skin_type" := EnumProp(SkinTypes, "[skin type]")]

  const IngredientsSchema: Json := ObjectSchema(IngredientsProperties, ["ingredients"])

  const ComparisonProperties: map<string, Json> := map[
    "products" := StringArrayProp("[products]"),
    "comparison_criteria" := StringArrayProp("[criteria]")]

  const ComparisonSchema: Json := ObjectSchema(ComparisonProperties, ["products"])

  const TrendsProperties: map<string, Json> := map[
    "trend_type" := EnumProp(["ingredients", "brands", "products", "techniques"], "[trend type]"),
    "time_period" := EnumProp(["current", "2024", "2025", "emerging"], "[period]")]

  const TrendsSchema: Json := ObjectSchema(TrendsProperties, ["trend_type"])

  const SeasonalProperties: map<string, Json> := map[
    "season" := EnumProp(["spring", "summer", "fall", "winter"], "[season]"),
    "climate" := EnumProp(["humid", "dry", "temperate", "tropical"], "[climate]"),
    "skin_type" := EnumProp(SkinTypes, "[skin type]")]

  const SeasonalSchema: Json := ObjectSchema(SeasonalProperties, ["season", "skin_type"])

  const DupesProperties: map<string, Json> := map[
    "target_product" := StringProp("[product]"),
    "max_price" := NumberProp("[max price]")]

  const DupesSchema: Json := ObjectSchema(DupesProperties, ["target_product"])

  const ConcernMatcherProperties: map<string, Json> := map[
    "concerns" := StringArrayProp("[concerns]"),
    "severity" := EnumProp(["mild", "moderate", "severe"], "[severity]")]

  const ConcernMatcherSchema: Json := ObjectSchema(ConcernMatcherProperties, ["concerns"])

  /** The names of the registered tools, in registry order. */
  function ToolNames(): (names: seq<string>)
    ensures |names| == |ListTools()|
    ensures forall i | 0 <= i < |names| :: names[i] == ListTools()[i].name
  {
    var tools := ListTools();
    seq(|tools|, i requires 0 <= i < |tools| => tools[i].name)
  }

  /** The registered names, spelled out. */
  lemma ToolNamesAre()
    ensures ToolNames() == ["analyze_skin_from_photo", "search_kbeauty_brands", "recommend_routine",
                            "analyze_ingredients", "product_comparison", "kbeauty_trends",
                            "seasonal_skincare_guide", "dupes_finder", "skin_concern_matcher"]
  {
  }

  /** `name` is a string naming a registered tool. */
  predicate IsRegistered(name: Json) {
    name.JStr? && name.s in ToolNames()
  }

  /** The nine registered tools have pairwise distinct names. */
  lemma NamesDistinct()
    ensures forall i, j | 0 <= i < j < |ToolNames()| :: ToolNames()[i] != ToolNames()[j]
  {
  }

  /** In every descriptor, each name listed under `required` is a key of `properties`. */
  lemma RequiredAreDeclared()
    ensures forall i | 0 <= i < |ListTools()| :: WellFormed(ListTools()[i])
  {
    SkinPhotoWellFormed();
    BrandSearchWellFormed();
    RoutineWellFormed();
    IngredientsWellFormed();
    ComparisonWellFormed();
    TrendsWellFormed();
    SeasonalWellFormed();
    DupesWellFormed();
    ConcernMatcherWellFormed();
    forall i | 0 <= i < |ListTools()| ensures WellFormed(ListTools()[i]) {
      assert i == 0 || i == 1 || i == 2 || i == 3 || i == 4 || i == 5 || i == 6 || i == 7 || i == 8;
    }
  }

  lemma SkinPhotoWellFormed()
    ensures WellFormed(ListTools()[0])
  {
    ObjectSchemaWellFormed(ListTools()[0], SkinPhotoProperties, ["image_description"]);
  }

  lemma BrandSearchWellFormed()
    ensures WellFormed(ListTools()[1])
  {
    ObjectSchemaWellFormed(ListTools()[1], BrandSearchProperties, ["brand_name"]);
  }

  lemma RoutineWellFormed()
    ensures WellFormed(ListTools()[2])
  {
    ObjectSchemaWellFormed(ListTools()[2], RoutineProperties, ["skin_type"]);
  }

  lemma IngredientsWellFormed()
    ensures WellFormed(ListTools()[3])
  {
    ObjectSchemaWellFormed(ListTools()[3], IngredientsProperties, ["ingredients"]);
  }

  lemma ComparisonWellFormed()
    ensures WellFormed(ListTools()[4])
  {
    ObjectSchemaWellFormed(ListTools()[4], ComparisonProperties, ["products"]);
  }

  lemma TrendsWellFormed()
    ensures WellFormed(ListTools()[5])
  {
    ObjectSchemaWellFormed(ListTools()[5], TrendsProperties, ["trend_type"]);
  }

  lemma SeasonalWellFormed()
    ensures WellFormed(ListTools()[6])
  {
    ObjectSchemaWellFormed(ListTools()[6], SeasonalProperties, ["season", "skin_type"]);
  }

  lemma DupesWellFormed()
    ensures WellFormed(ListTools()[7])
  {
    ObjectSchemaWellFormed(ListTools()[7], DupesProperties, ["target_product"]);
  }

  lemma ConcernMatcherWellFormed()
    ensures WellFormed(ListTools()[8])
  {
    ObjectSchemaWellFormed(ListTools()[8], ConcernMatcherProperties, ["concerns"]);
  }

  lemma DeclaredProperties0()
    ensures PropertyNames(ListTools()[0]) == {"image_description", "analysis_focus", "user_age", "skin_type_self_assessment"}
  {
  }

  lemma DeclaredProperties1()
    ensures PropertyNames(ListTools()[1]) == {"brand_name"}
  {
  }

  lemma DeclaredProperties2()
    ensures PropertyNames(ListTools()[2]) == {"skin_type", "skin_concerns", "budget"}
  {
  }

  lemma DeclaredProperties3()
    ensures PropertyNames(ListTools()[3]) == {"ingredients", "skin_type"}
  {
  }

  lemma DeclaredProperties4()
    ensures PropertyNames(ListTools()[4]) == {"products", "comparison_criteria"}
  {
  }

  lemma DeclaredProperties5()
    ensures PropertyNames(ListTools()[5]) == {"trend_type", "time_period"}
  {
  }

  lemma DeclaredProperties6()
    ensures PropertyNames(ListTools()[6]) == {"season", "climate", "skin_type"}
  {
  }

  lemma DeclaredProperties7()
    ensures PropertyNames(ListTools()[7]) == {"target_product", "max_price"}
  {
  }

  lemma DeclaredProperties8()
    ensures PropertyNames(ListTools()[8]) == {"concerns", "severity"}
  {
  }
}
