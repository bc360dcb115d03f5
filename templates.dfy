/**
  The reply texts of server.py's `call_tool`. Each reply is a sequence of
  pieces, one per `result += ...` step or one for a whole f-string template;
  a piece names its fixed template and the values interpolated into it. The
  fixed prose of a template is opaque: `Opening` gives a short stand-in that
  begins with the same character as the source's text, which is all the model
  needs to tell replies apart.
 */
module Templates {

  /** The keys of `concern_mapping` in `skin_concern_matcher`. */
  datatype Concern = Acne | Aging | Pigmentation | Dryness | Sensitivity

  function ConcernKey(c: Concern): string {
    match c
    case Acne => "acne"
    case Aging => "aging"
    case Pigmentation => "pigmentation"
    case Dryness => "dryness"
    case Sensitivity => "sensitivity"
  }

  datatype Template =
      // analyze_skin_from_photo
    | SkinScanRequest | DescriptionLine | AgeLine | SelfAssessmentLine
      // search_kbeauty_brands
    | BrandSearchRequest
      // recommend_routine
    | RoutineHeader | SkinTypeLine | ConcernsLine | BudgetLine | MorningHeading
    | OilyMorning | DryMorning | GenericMorning | EveningHeading | EveningSteps | BudgetNote
      // analyze_ingredients
    | IngredientRequest | AnySkinType
      // product_comparison, kbeauty_trends, seasonal_skincare_guide
    | ComparisonRequest | TrendRequest | SeasonalRequest
      // dupes_finder
    | DupeRequest | NoPriceLimit
      // skin_concern_matcher
    | ConcernHeader | ConcernSummary | SeverityLine | SolutionSection(key: Concern) | ConcernSearchRequest
      // the fallback for an unknown tool name
    | UnknownTool

  /** The first character of a template's fixed text, as in the source. */
  function Lead(t: Template): char {
    match t
    case SkinScanRequest => '\n'
    case DescriptionLine => '사'
    case AgeLine => '나'
    case SelfAssessmentLine => '자'
    case BrandSearchRequest => '\n'
    case RoutineHeader => '#'
    case SkinTypeLine => '*'
    case ConcernsLine => '*'
    case BudgetLine => '*'
    case MorningHeading => '#'
    case OilyMorning => '1'
    case DryMorning => '1'
    case GenericMorning => '1'
    case EveningHeading => '#'
    case EveningSteps => '1'
    case BudgetNote => '\U{1F50D}'
    case IngredientRequest => '\n'
    case AnySkinType => '모'
    case ComparisonRequest => '\n'
    case TrendRequest => '\n'
    case SeasonalRequest => '\n'
    case DupeRequest => '\n'
    case NoPriceLimit => '제'
    case ConcernHeader => '#'
    case ConcernSummary => '*'
    case SeverityLine => '*'
    case SolutionSection(_) => '#'
    case ConcernSearchRequest => '\n'
    case UnknownTool => '알'
  }

  /**
    The fixed text a template starts with: its first character, then a
    stand-in for the rest of the source's prose. For `AnySkinType`,
    `NoPriceLimit` and `UnknownTool` the text is the source's own.
   */
  function Opening(t: Template): (r: string)
    ensures |r| > 0 && r[0] == Lead(t)
  {
    [Lead(t)] + Rest(t)
  }

  /** A stand-in for the rest of the fixed text. */
  function Rest(t: Template): string {
    match t
    case SkinScanRequest => "[skin scan request]"
    case DescriptionLine => "[user description] "
    case AgeLine => "[age] "
    case SelfAssessmentLine => "[self-assessed skin type] "
    case BrandSearchRequest => "[brand search request]"
    case RoutineHeader => "# [personal routine]\n\n"
    case SkinTypeLine => "*[skin type]** "
    case ConcernsLine => "*[skin concerns]** "
    case BudgetLine => "*[budget]** "
    case MorningHeading => "## [morning routine] "
    case OilyMorning => ". [oily-skin morning steps]\n\n"
    case DryMorning => ". [dry-skin morning steps]\n\n"
    case GenericMorning => ". [general morning steps]\n\n"
    case EveningHeading => "## [evening routine]\n"
    case EveningSteps => ". [evening steps]\n\n"
    case BudgetNote => " [budget note] "
    case IngredientRequest => "[ingredient search request]"
    case AnySkinType => "든 피부 타입"
    case ComparisonRequest => "[product comparison request]"
    case TrendRequest => "[trend search request]"
    case SeasonalRequest => "[seasonal guide request]"
    case DupeRequest => "[dupe search request]"
    case NoPriceLimit => "한 없음"
    case ConcernHeader => "# [concern solutions]\n\n"
    case ConcernSummary => "*[concerns]** "
    case SeverityLine => "*[severity]** "
    case SolutionSection(key) => "## [" + ConcernKey(key) + " solution] "
    case ConcernSearchRequest => "\n[concern search request]"
    case UnknownTool => " 수 없는 도구: "
  }

  /** A template with the values interpolated into it, in order. */
  datatype Piece = Piece(template: Template, slots: seq<string>)

  function Concat(ss: seq<string>): string {
    if ss == [] then "" else ss[0] + Concat(ss[1..])
  }

  function PieceText(p: Piece): (r: string)
    ensures |r| > 0 && r[0] == Lead(p.template)
  {
    Opening(p.template) + Concat(p.slots)
  }

  /** The text that `result += ...` accumulates from a sequence of pieces. */
  function Render(ps: seq<Piece>): (text: string) {
    if ps == [] then "" else PieceText(ps[0]) + Render(ps[1..])
  }

  /** Rendering distributes over appending pieces, so `+=` step by step renders the whole. */
  lemma {:induction false} RenderAppend(a: seq<Piece>, b: seq<Piece>)
    ensures Render(a + b) == Render(a) + Render(b)
  {
    if a == [] {
      assert a + b == b;
    } else {
      assert (a + b)[1..] == a[1..] + b;
      RenderAppend(a[1..], b);
    }
  }

  /** Appending the rendering of `more` to a text that renders `done` renders `done + more`. */
  lemma RenderAfter(prefix: string, done: seq<Piece>, more: seq<Piece>, before: string, after: string)
    requires before == prefix + Render(done) && after == before + Render(more)
    ensures after == prefix + Render(done + more)
  {
    RenderAppend(done, more);
    ConcatAssoc(prefix, Render(done), Render(more));
  }

  lemma ConcatAssoc(a: string, b: string, c: string)
    ensures (a + b) + c == a + (b + c)
  {
  }

  /** A text that renders `ps`, extended by one more piece, renders `ps + [p]`. */
  lemma RenderSnoc(text: string, ps: seq<Piece>, p: Piece)
    requires text == Render(ps)
    ensures text + PieceText(p) == Render(ps + [p])
  {
    RenderAppend(ps, [p]);
    assert Render([p]) == PieceText(p) + Render([]);
  }

  /** The templates of a sequence of pieces, in order. */
  function TemplatesOf(ps: seq<Piece>): (r: seq<Template>)
    ensures |r| == |ps| && forall i | 0 <= i < |ps| :: r[i] == ps[i].template
  {
    seq(|ps|, i requires 0 <= i < |ps| => ps[i].template)
  }

  /** The templates of two sequences of pieces, one after the other. */
  lemma TemplatesOfAppend(a: seq<Piece>, b: seq<Piece>)
    ensures TemplatesOf(a + b) == TemplatesOf(a) + TemplatesOf(b)
  {
  }

  /** No template but the fallback's starts with the fallback's first character. */
  lemma OnlyFallbackOpensLikeFallback(t: Template)
    requires t != UnknownTool
    ensures Lead(t) != Lead(UnknownTool)
  {
  }

  /** A reply starts with the first character of its first template. */
  lemma RenderStart(ps: seq<Piece>)
    requires ps != []
    ensures |Render(ps)| > 0 && Render(ps)[0] == Lead(ps[0].template)
  {
  }
}
