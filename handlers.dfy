/**
  The branches of server.py's `call_tool`: each reads its arguments with
  `arguments.get(key, default)` and builds one reply text.
 */
module Handlers {
  import opened Json
  import opened Py
  import opened Templates
  import opened ConcernMatcher

  /** `mcp.types.TextContent`; `kind` is its `type` field. */
  datatype TextContent = TextContent(kind: string, text: string)

  /** An optional line of a template: the line with its value, or nothing. */
  function Line(present: bool, t: Template, value: string): string {
    if present then PieceText(Piece(t, [value])) else ""
  }

  /** analyze_skin_from_photo. */
  function SkinPhotoReply(args: Json): (r: Result<seq<Piece>>)
    ensures r.Ok? ==> r.value != [] && r.value[0].template == SkinScanRequest
  {
    var fields :- Dict(args);
    var description := GetOr(fields, "image_description", JStr(""));
    var focus := GetOr(fields, "analysis_focus", JArr([JStr("overall_condition")]));
    var age := GetOr(fields, "user_age", JNull);
    var selfAssessed := GetOr(fields, "skin_type_self_assessment", JStr("unknown"));
    var focusText :- Join(focus);
    Ok([Piece(SkinScanRequest, [
      Line(Truthy(description), DescriptionLine, Str(description)),
      Line(Truthy(age), AgeLine, Str(age)),
      Line(selfAssessed != JStr("unknown"), SelfAssessmentLine, Str(selfAssessed)),
      focusText])])
  }

  /** search_kbeauty_brands. */
  function BrandSearchReply(args: Json): (r: Result<seq<Piece>>)
    ensures r.Ok? ==> r.value != [] && r.value[0].template == BrandSearchRequest
  {
    var fields :- Dict(args);
    var brand := GetOr(fields, "brand_name", JStr(""));
    Ok([Piece(BrandSearchRequest, [Str(brand)])])
  }

  /** The morning steps of recommend_routine for a skin type. */
  function MorningSteps(skinType: string): (t: Template)
    ensures t == OilyMorning <==> skinType == "oily"
    ensures t == DryMorning <==> skinType == "dry"
    ensures t == GenericMorning <==> skinType != "oily" && skinType != "dry"
  {
    if skinType == "oily" then OilyMorning
    else if skinType == "dry" then DryMorning
    else GenericMorning
  }

  /** recommend_routine: reads its three arguments. */
  function RoutineReply(args: Json): (r: Result<seq<Piece>>)
    ensures r.Ok? ==> r.value != [] && r.value[0].template == RoutineHeader
  {
    var fields :- Dict(args);
    RoutineText(GetOr(fields, "skin_type", JNull), GetOr(fields, "skin_concerns", JArr([])),
                GetOr(fields, "budget", JStr("mixed")))
  }

  /**
    The routine text: a header, the profile lines, the morning steps for the
    skin type, the evening steps and a budget note.
   */
  function RoutineText(skinType: Json, concerns: Json, budget: Json): (r: Result<seq<Piece>>)
    ensures r.Ok? ==> r.value != [] && r.value[0].template == RoutineHeader
  {
    var titledType :- TitleOf(skinType);
    var concernsLine :- ConcernsLineOf(concerns);
    var titledBudget :- TitleOf(budget);
    Ok(RoutinePieces(skinType.s, titledType, concernsLine, budget.s, titledBudget))
  }

  /** The concerns line: present only for truthy concerns, which must then join. */
  function ConcernsLineOf(concerns: Json): (r: Result<seq<Piece>>)
    ensures r.Ok? <==> !Truthy(concerns) || Join(concerns).Ok?
    ensures r.Ok? ==> (r.value != [] <==> Truthy(concerns))
    ensures r.Ok? ==> forall p | p in r.value :: p.template == ConcernsLine
  {
    if Truthy(concerns) then
      var listed :- Join(concerns);
      Ok([Piece(ConcernsLine, [listed])])
    else Ok([])
  }

  /** The pieces of a routine whose values have been worked out. */
  function RoutinePieces(skinType: string, titledType: string, concernsLine: seq<Piece>,
                         budget: string, titledBudget: string): seq<Piece>
  {
    [Piece(RoutineHeader, []), Piece(SkinTypeLine, [titledType])]
    + concernsLine
    + [ Piece(BudgetLine, [titledBudget]),
        Piece(MorningHeading, [skinType]),
        Piece(MorningSteps(skinType), []),
        Piece(EveningHeading, []),
        Piece(EveningSteps, []),
        Piece(BudgetNote, [budget]) ]
  }

  /**
    A routine opens with its header and the skin type, then the concerns line
    if any, the budget, the morning steps for the skin type, the evening steps,
    and closes with the budget note.
   */
  lemma RoutineLayout(skinType: string, titledType: string, concernsLine: seq<Piece>,
                      budget: string, titledBudget: string)
    ensures var r := RoutinePieces(skinType, titledType, concernsLine, budget, titledBudget);
            && |r| == |concernsLine| + 8
            && r[0] == Piece(RoutineHeader, []) && r[1] == Piece(SkinTypeLine, [titledType])
            && r[2..|concernsLine| + 2] == concernsLine
            && r[|concernsLine| + 2] == Piece(BudgetLine, [titledBudget])
            && r[|concernsLine| + 4] == Piece(MorningSteps(skinType), [])
            && r[|concernsLine| + 6] == Piece(EveningSteps, [])
            && r[|r| - 1] == Piece(BudgetNote, [budget])
  {
  }

  /** analyze_ingredients. */
  function IngredientsReply(args: Json): (r: Result<seq<Piece>>)
    ensures r.Ok? ==> r.value != [] && r.value[0].template == IngredientRequest
  {
    var fields :- Dict(args);
    var ingredients := GetOr(fields, "ingredients", JArr([]));
    var skinType := GetOr(fields, "skin_type", JNull);
    var listed :- Join(ingredients);
    Ok([Piece(IngredientRequest, [
      listed,
      if Truthy(skinType) then Str(skinType) else Opening(AnySkinType),
      Str(skinType)])])
  }

  /** product_comparison. */
  function ComparisonReply(args: Json): (r: Result<seq<Piece>>)
    ensures r.Ok? ==> r.value != [] && r.value[0].template == ComparisonRequest
  {
    var fields :- Dict(args);
    var products := GetOr(fields, "products", JArr([]));
    var criteria := GetOr(fields, "comparison_criteria",
                          JArr([JStr("price"), JStr("ingredients"), JStr("effectiveness")]));
    var listedProducts :- Join(products);
    var listedCriteria :- Join(criteria);
    Ok([Piece(ComparisonRequest, [listedProducts, listedCriteria])])
  }

  /** kbeauty_trends. */
  function TrendsReply(args: Json): (r: Result<seq<Piece>>)
    ensures r.Ok? ==> r.value != [] && r.value[0].template == TrendRequest
  {
    var fields :- Dict(args);
    var trendType := GetOr(fields, "trend_type", JNull);
    var period := GetOr(fields, "time_period", JStr("current"));
    Ok([Piece(TrendRequest, [Str(trendType), Str(period)])])
  }

  /** seasonal_skincare_guide: each of the three values appears twice. */
  function SeasonalReply(args: Json): (r: Result<seq<Piece>>)
    ensures r.Ok? ==> r.value != [] && r.value[0].template == SeasonalRequest
  {
    var fields :- Dict(args);
    var season := GetOr(fields, "season", JNull);
    var climate := GetOr(fields, "climate", JStr("temperate"));
    var skinType := GetOr(fields, "skin_type", JNull);
    Ok([Piece(SeasonalRequest, [Str(season), Str(climate), Str(skinType),
                                Str(season), Str(climate), Str(skinType)])])
  }

  /** dupes_finder. */
  function DupesReply(args: Json): (r: Result<seq<Piece>>)
    ensures r.Ok? ==> r.value != [] && r.value[0].template == DupeRequest
  {
    var fields :- Dict(args);
    var target := GetOr(fields, "target_product", JStr(""));
    var maxPrice := GetOr(fields, "max_price", JNull);
    Ok([Piece(DupeRequest, [Str(target), if Truthy(maxPrice) then Str(maxPrice) else Opening(NoPriceLimit)])])
  }

  /** skin_concern_matcher: reads its two arguments. */
  function ConcernMatcherReply(args: Json): (r: Result<seq<Piece>>)
    ensures r.Ok? ==> r.value != [] && r.value[0].template == ConcernHeader
  {
    var fields :- Dict(args);
    ConcernMatches(GetOr(fields, "concerns", JArr([])), GetOr(fields, "severity", JStr("moderate")))
  }

  /** The matcher text: a header, the concerns and severity, one section per matched concern, a search request. */
  function ConcernMatches(concerns: Json, severity: Json): (r: Result<seq<Piece>>)
    ensures r.Ok? ==> r.value != [] && r.value[0].template == ConcernHeader
  {
    var items :- StrItems(concerns);
    var listed := JoinStrings(items, ", ");
    Ok([Piece(ConcernHeader, []), Piece(ConcernSummary, [listed]), Piece(SeverityLine, [Str(severity)])]
       + Solutions(items)
       + [Piece(ConcernSearchRequest, [listed, Str(severity)])])
  }

  /** A handler's pieces as the one text block `call_tool` returns. */
  function AsContent(pieces: Result<seq<Piece>>): (r: Result<seq<TextContent>>)
    ensures r.Ok? <==> pieces.Ok?
    ensures r.Ok? ==> r.value == [TextContent("text", Render(pieces.value))]
  {
    var ps :- pieces;
    Ok([TextContent("text", Render(ps))])
  }

  lemma SkinPhotoReplyReadsDeclared(f1: map<string, Json>, f2: map<string, Json>)
    requires GetOr(f1, "image_description", JStr("")) == GetOr(f2, "image_description", JStr(""))
    requires GetOr(f1, "analysis_focus", JArr([JStr("overall_condition")])) == GetOr(f2, "analysis_focus", JArr([JStr("overall_condition")]))
    requires GetOr(f1, "user_age", JNull) == GetOr(f2, "user_age", JNull)
    requires GetOr(f1, "skin_type_self_assessment", JStr("unknown")) == GetOr(f2, "skin_type_self_assessment", JStr("unknown"))
    ensures SkinPhotoReply(JObj(f1)) == SkinPhotoReply(JObj(f2))
  {
  }

  lemma BrandSearchReplyReadsDeclared(f1: map<string, Json>, f2: map<string, Json>)
    requires GetOr(f1, "brand_name", JStr("")) == GetOr(f2, "brand_name", JStr(""))
    ensures BrandSearchReply(JObj(f1)) == BrandSearchReply(JObj(f2))
  {
  }

  lemma RoutineReplyReadsDeclared(f1: map<string, Json>, f2: map<string, Json>)
    requires GetOr(f1, "skin_type", JNull) == GetOr(f2, "skin_type", JNull)
    requires GetOr(f1, "skin_concerns", JArr([])) == GetOr(f2, "skin_concerns", JArr([]))
    requires GetOr(f1, "budget", JStr("mixed")) == GetOr(f2, "budget", JStr("mixed"))
    ensures RoutineReply(JObj(f1)) == RoutineReply(JObj(f2))
  {
  }

  lemma IngredientsReplyReadsDeclared(f1: map<string, Json>, f2: map<string, Json>)
    requires GetOr(f1, "ingredients", JArr([])) == GetOr(f2, "ingredients", JArr([]))
    requires GetOr(f1, "skin_type", JNull) == GetOr(f2, "skin_type", JNull)
    ensures IngredientsReply(JObj(f1)) == IngredientsReply(JObj(f2))
  {
  }

  lemma ComparisonReplyReadsDeclared(f1: map<string, Json>, f2: map<string, Json>)
    requires GetOr(f1, "products", JArr([])) == GetOr(f2, "products", JArr([]))
    requires GetOr(f1, "comparison_criteria", JArr([JStr("price"), JStr("ingredients"), JStr("effectiveness")])) == GetOr(f2, "comparison_criteria", JArr([JStr("price"), JStr("ingredients"), JStr("effectiveness")]))
    ensures ComparisonReply(JObj(f1)) == ComparisonReply(JObj(f2))
  {
  }

  lemma TrendsReplyReadsDeclared(f1: map<string, Json>, f2: map<string, Json>)
    requires GetOr(f1, "trend_type", JNull) == GetOr(f2, "trend_type", JNull)
    requires GetOr(f1, "time_period", JStr("current")) == GetOr(f2, "time_period", JStr("current"))
    ensures TrendsReply(JObj(f1)) == TrendsReply(JObj(f2))
  {
  }

  lemma SeasonalReplyReadsDeclared(f1: map<string, Json>, f2: map<string, Json>)
    requires GetOr(f1, "season", JNull) == GetOr(f2, "season", JNull)
    requires GetOr(f1, "climate", JStr("temperate")) == GetOr(f2, "climate", JStr("temperate"))
    requires GetOr(f1, "skin_type", JNull) == GetOr(f2, "skin_type", JNull)
    ensures SeasonalReply(JObj(f1)) == SeasonalReply(JObj(f2))
  {
  }

  lemma DupesReplyReadsDeclared(f1: map<string, Json>, f2: map<string, Json>)
    requires GetOr(f1, "target_product", JStr("")) == GetOr(f2, "target_product", JStr(""))
    requires GetOr(f1, "max_price", JNull) == GetOr(f2, "max_price", JNull)
    ensures DupesReply(JObj(f1)) == DupesReply(JObj(f2))
  {
  }

  lemma ConcernMatcherReplyReadsDeclared(f1: map<string, Json>, f2: map<string, Json>)
    requires GetOr(f1, "concerns", JArr([])) == GetOr(f2, "concerns", JArr([]))
    requires GetOr(f1, "severity", JStr("moderate")) == GetOr(f2, "severity", JStr("moderate"))
    ensures ConcernMatcherReply(JObj(f1)) == ConcernMatcherReply(JObj(f2))
  {
  }

  /** A routine that does not raise is built from the string skin type and budget and the concerns line. */
  lemma RoutineTextShape(skinType: Json, concerns: Json, budget: Json)
    requires RoutineText(skinType, concerns, budget).Ok?
    ensures skinType.JStr? && budget.JStr? && ConcernsLineOf(concerns).Ok?
    ensures RoutineText(skinType, concerns, budget).value
            == RoutinePieces(skinType.s, Title(skinType.s), ConcernsLineOf(concerns).value, budget.s, Title(budget.s))
  {
  }

  /** recommend_routine shows the oily-skin or dry-skin morning steps exactly for those skin types, and the general ones otherwise. */
  lemma RoutineMorningSteps(skinType: Json, concerns: Json, budget: Json)
    requires RoutineText(skinType, concerns, budget).Ok?
    ensures skinType.JStr?
    ensures Piece(OilyMorning, []) in RoutineText(skinType, concerns, budget).value <==> skinType == JStr("oily")
    ensures Piece(DryMorning, []) in RoutineText(skinType, concerns, budget).value <==> skinType == JStr("dry")
    ensures Piece(GenericMorning, []) in RoutineText(skinType, concerns, budget).value
            <==> skinType != JStr("oily") && skinType != JStr("dry")
  {
    RoutineTextShape(skinType, concerns, budget);
    MorningStepsOnce(skinType.s, Title(skinType.s), ConcernsLineOf(concerns).value, budget.s, Title(budget.s));
  }

  /** Of the three morning templates, a routine holds exactly the one for its skin type. */
  lemma MorningStepsOnce(skinType: string, titledType: string, concernsLine: seq<Piece>,
                         budget: string, titledBudget: string)
    requires forall p | p in concernsLine :: p.template == ConcernsLine
    ensures var ps := RoutinePieces(skinType, titledType, concernsLine, budget, titledBudget);
            && (Piece(OilyMorning, []) in ps <==> skinType == "oily")
            && (Piece(DryMorning, []) in ps <==> skinType == "dry")
            && (Piece(GenericMorning, []) in ps <==> skinType != "oily" && skinType != "dry")
  {
    var ps := RoutinePieces(skinType, titledType, concernsLine, budget, titledBudget);
    assert ps[|concernsLine| + 4] == Piece(MorningSteps(skinType), []);
  }

  /** recommend_routine shows a concerns line exactly when the concerns are truthy. */
  lemma RoutineConcernsLine(skinType: Json, concerns: Json, budget: Json)
    requires RoutineText(skinType, concerns, budget).Ok?
    ensures ConcernsLine in TemplatesOf(RoutineText(skinType, concerns, budget).value) <==> Truthy(concerns)
  {
    RoutineTextShape(skinType, concerns, budget);
    ConcernsLineShown(skinType.s, Title(skinType.s), ConcernsLineOf(concerns).value, budget.s, Title(budget.s));
  }

  /** A routine holds a concerns line exactly when it was given one. */
  lemma ConcernsLineShown(skinType: string, titledType: string, concernsLine: seq<Piece>,
                          budget: string, titledBudget: string)
    requires forall p | p in concernsLine :: p.template == ConcernsLine
    ensures ConcernsLine in TemplatesOf(RoutinePieces(skinType, titledType, concernsLine, budget, titledBudget))
            <==> concernsLine != []
  {
    var profile := [Piece(RoutineHeader, []), Piece(SkinTypeLine, [titledType])];
    var rest := [Piece(BudgetLine, [titledBudget]), Piece(MorningHeading, [skinType]),
                 Piece(MorningSteps(skinType), []), Piece(EveningHeading, []),
                 Piece(EveningSteps, []), Piece(BudgetNote, [budget])];
    TemplatesOfAppend(profile + concernsLine, rest);
    TemplatesOfAppend(profile, concernsLine);
    assert TemplatesOf(profile) == [RoutineHeader, SkinTypeLine];
    assert TemplatesOf(rest) == [BudgetLine, MorningHeading, MorningSteps(skinType), EveningHeading, EveningSteps, BudgetNote];
    if concernsLine != [] {
      assert TemplatesOf(concernsLine)[0] == ConcernsLine;
    }
  }

  /**
    recommend_routine raises exactly when the skin type or the budget is not a
    string, or the concerns are truthy but cannot be joined.
   */
  lemma RoutineRaises(skinType: Json, concerns: Json, budget: Json)
    ensures RoutineText(skinType, concerns, budget).Err?
            <==> !skinType.JStr? || (Truthy(concerns) && Join(concerns).Err?) || !budget.JStr?
  {
  }

  /** Without a skin type, recommend_routine raises on `None.title()`, although the schema marks it required. */
  lemma RoutineWithoutSkinTypeRaises(fields: map<string, Json>)
    requires "skin_type" !in fields
    ensures RoutineReply(JObj(fields)) == Err(AttributeError(NoAttribute(JNull, "title")))
  {
  }

  /**
    recommend_routine as the handler runs it: `result` grows by one `+=` per
    line, and the text is the rendering of the routine's pieces.
   */
  method RecommendRoutine(arguments: Json) returns (r: Result<seq<TextContent>>)
    ensures r == AsContent(RoutineReply(arguments))
  {
    var fields := Dict(arguments);
    if fields.Err? {
      return Err(fields.error);
    }
    var skinType := GetOr(fields.value, "skin_type", JNull);
    var concerns := GetOr(fields.value, "skin_concerns", JArr([]));
    var budget := GetOr(fields.value, "budget", JStr("mixed"));

    var result := PieceText(Piece(RoutineHeader, []));
    var titledType := TitleOf(skinType);
    if titledType.Err? {
      return Err(titledType.error);
    }
    result := result + PieceText(Piece(SkinTypeLine, [titledType.value]));
    ghost var profile := [Piece(RoutineHeader, []), Piece(SkinTypeLine, [titledType.value])];
    ProfileRendered(titledType.value);
    ghost var concernsLine: seq<Piece> := [];
    if Truthy(concerns) {
      var listed := Join(concerns);
      if listed.Err? {
        return Err(listed.error);
      }
      concernsLine := [Piece(ConcernsLine, [listed.value])];
      result := result + PieceText(Piece(ConcernsLine, [listed.value]));
      RenderSnoc(Render(profile), profile, Piece(ConcernsLine, [listed.value]));
    } else {
      assert profile + concernsLine == profile;
    }
    var titledBudget := TitleOf(budget);
    if titledBudget.Err? {
      return Err(titledBudget.error);
    }
    ghost var ps := profile + concernsLine;
    RenderSnoc(result, ps, Piece(BudgetLine, [titledBudget.value]));
    result, ps := result + PieceText(Piece(BudgetLine, [titledBudget.value])), ps + [Piece(BudgetLine, [titledBudget.value])];
    RenderSnoc(result, ps, Piece(MorningHeading, [skinType.s]));
    result, ps := result + PieceText(Piece(MorningHeading, [skinType.s])), ps + [Piece(MorningHeading, [skinType.s])];
    if skinType.s == "oily" {
      RenderSnoc(result, ps, Piece(OilyMorning, []));
      result, ps := result + PieceText(Piece(OilyMorning, [])), ps + [Piece(OilyMorning, [])];
    } else if skinType.s == "dry" {
      RenderSnoc(result, ps, Piece(DryMorning, []));
      result, ps := result + PieceText(Piece(DryMorning, [])), ps + [Piece(DryMorning, [])];
    } else {
      RenderSnoc(result, ps, Piece(GenericMorning, []));
      result, ps := result + PieceText(Piece(GenericMorning, [])), ps + [Piece(GenericMorning, [])];
    }
    RenderSnoc(result, ps, Piece(EveningHeading, []));
    result, ps := result + PieceText(Piece(EveningHeading, [])), ps + [Piece(EveningHeading, [])];
    RenderSnoc(result, ps, Piece(EveningSteps, []));
    result, ps := result + PieceText(Piece(EveningSteps, [])), ps + [Piece(EveningSteps, [])];
    RenderSnoc(result, ps, Piece(BudgetNote, [budget.s]));
    result, ps := result + PieceText(Piece(BudgetNote, [budget.s])), ps + [Piece(BudgetNote, [budget.s])];
    RoutinePiecesInOrder(skinType.s, titledType.value, concernsLine, budget.s, titledBudget.value);
    return Ok([TextContent("text", result)]);
  }

  /** The routine's pieces, one `+=` at a time. */
  lemma RoutinePiecesInOrder(skinType: string, titledType: string, concernsLine: seq<Piece>,
                             budget: string, titledBudget: string)
    ensures RoutinePieces(skinType, titledType, concernsLine, budget, titledBudget)
            == [Piece(RoutineHeader, []), Piece(SkinTypeLine, [titledType])] + concernsLine
               + [Piece(BudgetLine, [titledBudget])] + [Piece(MorningHeading, [skinType])]
               + [Piece(MorningSteps(skinType), [])] + [Piece(EveningHeading, [])]
               + [Piece(EveningSteps, [])] + [Piece(BudgetNote, [budget])]
  {
  }

  /** The two lines every routine opens with. */
  lemma ProfileRendered(titledType: string)
    ensures PieceText(Piece(RoutineHeader, [])) + PieceText(Piece(SkinTypeLine, [titledType]))
            == Render([Piece(RoutineHeader, []), Piece(SkinTypeLine, [titledType])])
  {
    RenderSnoc(PieceText(Piece(RoutineHeader, [])), [Piece(RoutineHeader, [])], Piece(SkinTypeLine, [titledType]));
    RenderSnoc("", [], Piece(RoutineHeader, []));
  }

  /**
    skin_concern_matcher as the handler runs it: the header lines, then the
    nested matching loop, then the search request.
   */
  method SkinConcernMatcher(arguments: Json) returns (r: Result<seq<TextContent>>)
    ensures r == AsContent(ConcernMatcherReply(arguments))
  {
    var fields := Dict(arguments);
    if fields.Err? {
      return Err(fields.error);
    }
    var concerns := GetOr(fields.value, "concerns", JArr([]));
    var severity := GetOr(fields.value, "severity", JStr("moderate"));
    var items := StrItems(concerns);
    if items.Err? {
      return Err(items.error);
    }
    var listed := JoinStrings(items.value, ", ");
    var opening := [Piece(ConcernHeader, []), Piece(ConcernSummary, [listed]), Piece(SeverityLine, [Str(severity)])];
    var closing := [Piece(ConcernSearchRequest, [listed, Str(severity)])];
    var result := Render(opening);
    result := AppendSolutions(result, items.value);
    result := result + Render(closing);
    RenderAppend(opening, Solutions(items.value));
    RenderAppend(opening + Solutions(items.value), closing);
    return Ok([TextContent("text", result)]);
  }
}
