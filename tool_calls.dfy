/**
  server.py's `call_tool`: dispatch on the tool name to one of the branches,
  and a fallback reply for any other name.
 */
module ToolCalls {
  import opened Json
  import opened Py
  import opened Templates
  import opened Handlers

  /** The reply to a name `call_tool` does not know. */
  function UnknownToolText(name: Json): (text: string)
    ensures text == "알 수 없는 도구: " + Str(name)
  {
    assert Concat([Str(name)]) == Str(name) + Concat([]);
    PieceText(Piece(UnknownTool, [Str(name)]))
  }

  /** The nine branches of `call_tool`, in the order it tests them. */
  datatype ToolKind =
    | SkinPhoto | BrandSearch | Routine | Ingredients | Comparison | Trends | Seasonal | Dupes | ConcernMatch

  /** The name each branch compares against. */
  function KindName(k: ToolKind): (name: string) {
    match k
    case SkinPhoto => "analyze_skin_from_photo"
    case BrandSearch => "search_kbeauty_brands"
    case Routine => "recommend_routine"
    case Ingredients => "analyze_ingredients"
    case Comparison => "product_comparison"
    case Trends => "kbeauty_trends"
    case Seasonal => "seasonal_skincare_guide"
    case Dupes => "dupes_finder"
    case ConcernMatch => "skin_concern_matcher"
  }

  /** The `if name == ... elif ...` chain: the first branch whose name equals `name`, if any. */
  function Lookup(name: Json): (r: Option<ToolKind>)
    ensures r.Some? ==> name == JStr(KindName(r.value))
  {
    if name == JStr("analyze_skin_from_photo") then Some(SkinPhoto)
    else if name == JStr("search_kbeauty_brands") then Some(BrandSearch)
    else if name == JStr("recommend_routine") then Some(Routine)
    else if name == JStr("analyze_ingredients") then Some(Ingredients)
    else if name == JStr("product_comparison") then Some(Comparison)
    else if name == JStr("kbeauty_trends") then Some(Trends)
    else if name == JStr("seasonal_skincare_guide") then Some(Seasonal)
    else if name == JStr("dupes_finder") then Some(Dupes)
    else if name == JStr("skin_concern_matcher") then Some(ConcernMatch)
    else None
  }

  /** The pieces a branch builds from the arguments. */
  function Reply(k: ToolKind, arguments: Json): (r: Result<seq<Piece>>)
    ensures r.Ok? ==> r.value != [] && r.value[0].template != UnknownTool
  {
    match k
    case SkinPhoto => SkinPhotoReply(arguments)
    case BrandSearch => BrandSearchReply(arguments)
    case Routine => RoutineReply(arguments)
    case Ingredients => IngredientsReply(arguments)
    case Comparison => ComparisonReply(arguments)
    case Trends => TrendsReply(arguments)
    case Seasonal => SeasonalReply(arguments)
    case Dupes => DupesReply(arguments)
    case ConcernMatch => ConcernMatcherReply(arguments)
  }

  /** `call_tool(name, arguments)`: dispatch on the name; any other name gets the fallback text. */
  function CallTool(name: Json, arguments: Json): (r: Result<seq<TextContent>>)
    ensures r.Ok? ==> |r.value| == 1 && r.value[0].kind == "text"
  {
    match Lookup(name)
    case Some(k) => AsContent(Reply(k, arguments))
    case None => Ok([TextContent("text", UnknownToolText(name))])
  }

  /** Each branch is reached by its own name. */
  lemma LookupKindName(k: ToolKind)
    ensures Lookup(JStr(KindName(k))) == Some(k)
  {
  }

  /** Every branch raises from its first `arguments.get` when the arguments are not a dictionary. */
  lemma NonDictArgumentsRaise(k: ToolKind, arguments: Json)
    requires !arguments.JObj?
    ensures Reply(k, arguments) == Err(AttributeError(NoAttribute(arguments, "get")))
  {
  }

  /** The defaults each branch passes to `arguments.get`. */
  function ArgumentDefaults(k: ToolKind): map<string, Json> {
    match k
    case SkinPhoto =>
      map["image_description" := JStr(""), "analysis_focus" := JArr([JStr("overall_condition")]),
          "user_age" := JNull, "skin_type_self_assessment" := JStr("unknown")]
    case BrandSearch => map["brand_name" := JStr("")]
    case Routine => map["skin_type" := JNull, "skin_concerns" := JArr([]), "budget" := JStr("mixed")]
    case Ingredients => map["ingredients" := JArr([]), "skin_type" := JNull]
    case Comparison =>
      map["products" := JArr([]),
          "comparison_criteria" := JArr([JStr("price"), JStr("ingredients"), JStr("effectiveness")])]
    case Trends => map["trend_type" := JNull, "time_period" := JStr("current")]
    case Seasonal => map["season" := JNull, "climate" := JStr("temperate"), "skin_type" := JNull]
    case Dupes => map["target_product" := JStr(""), "max_price" := JNull]
    case ConcernMatch => map["concerns" := JArr([]), "severity" := JStr("moderate")]
  }

  /** Two argument dictionaries that `get` reads alike for every key in `defaults`. */
  predicate ReadAlike(f1: map<string, Json>, f2: map<string, Json>, defaults: map<string, Json>) {
    forall k | k in defaults :: GetOr(f1, k, defaults[k]) == GetOr(f2, k, defaults[k])
  }

  /** `GetOr` agrees on `k` for two argument dictionaries that read alike. */
  lemma ReadAlikeAt(f1: map<string, Json>, f2: map<string, Json>, defaults: map<string, Json>, k: string)
    requires ReadAlike(f1, f2, defaults) && k in defaults
    ensures GetOr(f1, k, defaults[k]) == GetOr(f2, k, defaults[k])
  {
  }

  /**
    A branch's reply depends on its arguments only through what `get` returns
    for the keys it reads, with the defaults it passes.
   */
  lemma OnlyReadArgumentsMatter(k: ToolKind, f1: map<string, Json>, f2: map<string, Json>)
    requires ReadAlike(f1, f2, ArgumentDefaults(k))
    ensures Reply(k, JObj(f1)) == Reply(k, JObj(f2))
  {
    match k
    case SkinPhoto =>
      SkinPhotoReadAlike(f1, f2);
      SkinPhotoReplyReadsDeclared(f1, f2);
    case BrandSearch =>
      BrandSearchReadAlike(f1, f2);
      BrandSearchReplyReadsDeclared(f1, f2);
    case Routine =>
      RoutineReadAlike(f1, f2);
      RoutineReplyReadsDeclared(f1, f2);
    case Ingredients =>
      IngredientsReadAlike(f1, f2);
      IngredientsReplyReadsDeclared(f1, f2);
    case Comparison =>
      ComparisonReadAlike(f1, f2);
      ComparisonReplyReadsDeclared(f1, f2);
    case Trends =>
      TrendsReadAlike(f1, f2);
      TrendsReplyReadsDeclared(f1, f2);
    case Seasonal =>
      SeasonalReadAlike(f1, f2);
      SeasonalReplyReadsDeclared(f1, f2);
    case Dupes =>
      DupesReadAlike(f1, f2);
      DupesReplyReadsDeclared(f1, f2);
    case ConcernMatch =>
      ConcernMatchReadAlike(f1, f2);
      ConcernMatcherReplyReadsDeclared(f1, f2);
  }

  lemma SkinPhotoReadAlike(f1: map<string, Json>, f2: map<string, Json>)
    requires ReadAlike(f1, f2, ArgumentDefaults(SkinPhoto))
    ensures GetOr(f1, "image_description", JStr("")) == GetOr(f2, "image_description", JStr(""))
    ensures GetOr(f1, "analysis_focus", JArr([JStr("overall_condition")])) == GetOr(f2, "analysis_focus", JArr([JStr("overall_condition")]))
    ensures GetOr(f1, "user_age", JNull) == GetOr(f2, "user_age", JNull)
    ensures GetOr(f1, "skin_type_self_assessment", JStr("unknown")) == GetOr(f2, "skin_type_self_assessment", JStr("unknown"))
  {
    var d := ArgumentDefaults(SkinPhoto);
    ReadAlikeAt(f1, f2, d, "image_description");
    ReadAlikeAt(f1, f2, d, "analysis_focus");
    ReadAlikeAt(f1, f2, d, "user_age");
    ReadAlikeAt(f1, f2, d, "skin_type_self_assessment");
  }

  lemma BrandSearchReadAlike(f1: map<string, Json>, f2: map<string, Json>)
    requires ReadAlike(f1, f2, ArgumentDefaults(BrandSearch))
    ensures GetOr(f1, "brand_name", JStr("")) == GetOr(f2, "brand_name", JStr(""))
  {
    var d := ArgumentDefaults(BrandSearch);
    ReadAlikeAt(f1, f2, d, "brand_name");
  }

  lemma RoutineReadAlike(f1: map<string, Json>, f2: map<string, Json>)
    requires ReadAlike(f1, f2, ArgumentDefaults(Routine))
    ensures GetOr(f1, "skin_type", JNull) == GetOr(f2, "skin_type", JNull)
    ensures GetOr(f1, "skin_concerns", JArr([])) == GetOr(f2, "skin_concerns", JArr([]))
    ensures GetOr(f1, "budget", JStr("mixed")) == GetOr(f2, "budget", JStr("mixed"))
  {
    var d := ArgumentDefaults(Routine);
    ReadAlikeAt(f1, f2, d, "skin_type");
    ReadAlikeAt(f1, f2, d, "skin_concerns");
    ReadAlikeAt(f1, f2, d, "budget");
  }

  lemma IngredientsReadAlike(f1: map<string, Json>, f2: map<string, Json>)
    requires ReadAlike(f1, f2, ArgumentDefaults(Ingredients))
    ensures GetOr(f1, "ingredients", JArr([])) == GetOr(f2, "ingredients", JArr([]))
    ensures GetOr(f1, "skin_type", JNull) == GetOr(f2, "skin_type", JNull)
  {
    var d := ArgumentDefaults(Ingredients);
    ReadAlikeAt(f1, f2, d, "ingredients");
    ReadAlikeAt(f1, f2, d, "skin_type");
  }

  lemma ComparisonReadAlike(f1: map<string, Json>, f2: map<string, Json>)
    requires ReadAlike(f1, f2, ArgumentDefaults(Comparison))
    ensures GetOr(f1, "products", JArr([])) == GetOr(f2, "products", JArr([]))
    ensures GetOr(f1, "comparison_criteria", JArr([JStr("price"), JStr("ingredients"), JStr("effectiveness")])) == GetOr(f2, "comparison_criteria", JArr([JStr("price"), JStr("ingredients"), JStr("effectiveness")]))
  {
    var d := ArgumentDefaults(Comparison);
    ReadAlikeAt(f1, f2, d, "products");
    ReadAlikeAt(f1, f2, d, "comparison_criteria");
  }

  lemma TrendsReadAlike(f1: map<string, Json>, f2: map<string, Json>)
    requires ReadAlike(f1, f2, ArgumentDefaults(Trends))
    ensures GetOr(f1, "trend_type", JNull) == GetOr(f2, "trend_type", JNull)
    ensures GetOr(f1, "time_period", JStr("current")) == GetOr(f2, "time_period", JStr("current"))
  {
    var d := ArgumentDefaults(Trends);
    ReadAlikeAt(f1, f2, d, "trend_type");
    ReadAlikeAt(f1, f2, d, "time_period");
  }

  lemma SeasonalReadAlike(f1: map<string, Json>, f2: map<string, Json>)
    requires ReadAlike(f1, f2, ArgumentDefaults(Seasonal))
    ensures GetOr(f1, "season", JNull) == GetOr(f2, "season", JNull)
    ensures GetOr(f1, "climate", JStr("temperate")) == GetOr(f2, "climate", JStr("temperate"))
    ensures GetOr(f1, "skin_type", JNull) == GetOr(f2, "skin_type", JNull)
  {
    var d := ArgumentDefaults(Seasonal);
    ReadAlikeAt(f1, f2, d, "season");
    ReadAlikeAt(f1, f2, d, "climate");
    ReadAlikeAt(f1, f2, d, "skin_type");
  }

  lemma DupesReadAlike(f1: map<string, Json>, f2: map<string, Json>)
    requires ReadAlike(f1, f2, ArgumentDefaults(Dupes))
    ensures GetOr(f1, "target_product", JStr("")) == GetOr(f2, "target_product", JStr(""))
    ensures GetOr(f1, "max_price", JNull) == GetOr(f2, "max_price", JNull)
  {
    var d := ArgumentDefaults(Dupes);
    ReadAlikeAt(f1, f2, d, "target_product");
    ReadAlikeAt(f1, f2, d, "max_price");
  }

  lemma ConcernMatchReadAlike(f1: map<string, Json>, f2: map<string, Json>)
    requires ReadAlike(f1, f2, ArgumentDefaults(ConcernMatch))
    ensures GetOr(f1, "concerns", JArr([])) == GetOr(f2, "concerns", JArr([]))
    ensures GetOr(f1, "severity", JStr("moderate")) == GetOr(f2, "severity", JStr("moderate"))
  {
    var d := ArgumentDefaults(ConcernMatch);
    ReadAlikeAt(f1, f2, d, "concerns");
    ReadAlikeAt(f1, f2, d, "severity");
  }

  /** Leaving an argument out is the same as passing the branch's default for it. */
  lemma MissingArgumentTakesDefault(k: ToolKind, fields: map<string, Json>, key: string)
    requires key in ArgumentDefaults(k) && key !in fields
    ensures Reply(k, JObj(fields)) == Reply(k, JObj(fields[key := ArgumentDefaults(k)[key]]))
  {
    var d := ArgumentDefaults(k);
    assert ReadAlike(fields, fields[key := d[key]], d);
    OnlyReadArgumentsMatter(k, fields, fields[key := d[key]]);
  }

  /** An argument the branch does not read changes nothing. */
  lemma UnreadArgumentIgnored(k: ToolKind, fields: map<string, Json>, key: string, value: Json)
    requires key !in ArgumentDefaults(k)
    ensures Reply(k, JObj(fields[key := value])) == Reply(k, JObj(fields))
  {
    var d := ArgumentDefaults(k);
    assert ReadAlike(fields[key := value], fields, d);
    OnlyReadArgumentsMatter(k, fields[key := value], fields);
  }

  /** The branches in the order `list_tools` lists their tools. */
  const Kinds: seq<ToolKind> := [SkinPhoto, BrandSearch, Routine, Ingredients, Comparison, Trends, Seasonal, Dupes, ConcernMatch]

  lemma SkinPhotoReadsDeclaredProperties()
    ensures ArgumentDefaults(SkinPhoto).Keys == {"image_description", "analysis_focus", "user_age", "skin_type_self_assessment"}
  {
  }

  lemma BrandSearchReadsDeclaredProperties()
    ensures ArgumentDefaults(BrandSearch).Keys == {"brand_name"}
  {
  }

  lemma RoutineReadsDeclaredProperties()
    ensures ArgumentDefaults(Routine).Keys == {"skin_type", "skin_concerns", "budget"}
  {
  }

  lemma IngredientsReadsDeclaredProperties()
    ensures ArgumentDefaults(Ingredients).Keys == {"ingredients", "skin_type"}
  {
  }

  lemma ComparisonReadsDeclaredProperties()
    ensures ArgumentDefaults(Comparison).Keys == {"products", "comparison_criteria"}
  {
  }

  lemma TrendsReadsDeclaredProperties()
    ensures ArgumentDefaults(Trends).Keys == {"trend_type", "time_period"}
  {
  }

  lemma SeasonalReadsDeclaredProperties()
    ensures ArgumentDefaults(Seasonal).Keys == {"season", "climate", "skin_type"}
  {
  }

  lemma DupesReadsDeclaredProperties()
    ensures ArgumentDefaults(Dupes).Keys == {"target_product", "max_price"}
  {
  }

  lemma ConcernMatchReadsDeclaredProperties()
    ensures ArgumentDefaults(ConcernMatch).Keys == {"concerns", "severity"}
  {
  }

  /**
    `call_tool` as the gateway invokes it: the two handlers that build their
    text step by step run as methods, the others as their reply functions.
   */
  method RunCallTool(name: Json, arguments: Json) returns (r: Result<seq<TextContent>>)
    ensures r == CallTool(name, arguments)
  {
    var kind := Lookup(name);
    if kind == Some(Routine) {
      r := RecommendRoutine(arguments);
    } else if kind == Some(ConcernMatch) {
      r := SkinConcernMatcher(arguments);
    } else if kind.Some? {
      r := AsContent(Reply(kind.value, arguments));
    } else {
      r := Ok([TextContent("text", UnknownToolText(name))]);
    }
  }
}
