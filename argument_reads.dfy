/**
  The other half of "each branch of server.py's `call_tool` reads exactly its
  `arguments.get` keys": for every key a branch passes to `get`, some
  argument dictionary gives a different reply once that key is set.
 */
module ArgumentReads {
  import opened Json
  import opened Py
  import opened Templates
  import opened Handlers
  import opened ToolCalls

  /** Setting `key` changes the reply of branch `k` for some arguments: the branch reads `key`. */
  ghost predicate Reads(k: ToolKind, key: string) {
    exists fields: map<string, Json>, value: Json :: SettingChanges(k, fields, key, value)
  }

  /** Setting `key` to `value` in `fields` changes the reply of branch `k`. */
  predicate SettingChanges(k: ToolKind, fields: map<string, Json>, key: string, value: Json) {
    Reply(k, JObj(fields[key := value])) != Reply(k, JObj(fields))
  }

  /** A pair of argument dictionaries that differ only at `key` and get different replies. */
  lemma ReadsBy(k: ToolKind, fields: map<string, Json>, key: string, value: Json)
    requires Reply(k, JObj(fields[key := value])) != Reply(k, JObj(fields))
    ensures Reads(k, key)
  {
    assert SettingChanges(k, fields, key, value);
  }

  /** A branch reads a key exactly when it passes that key to `get`. */
  lemma ReadsIffGets(k: ToolKind, key: string)
    ensures Reads(k, key) <==> key in ArgumentDefaults(k)
  {
    if key in ArgumentDefaults(k) {
      match k
      case SkinPhoto => SkinPhotoReadsEveryKey(key);
      case BrandSearch => BrandSearchReadsEveryKey(key);
      case Routine => RoutineReadsEveryKey(key);
      case Ingredients => IngredientsReadsEveryKey(key);
      case Comparison => ComparisonReadsEveryKey(key);
      case Trends => TrendsReadsEveryKey(key);
      case Seasonal => SeasonalReadsEveryKey(key);
      case Dupes => DupesReadsEveryKey(key);
      case ConcernMatch => ConcernMatchReadsEveryKey(key);
    } else if Reads(k, key) {
      var fields, value :| SettingChanges(k, fields, key, value);
      UnreadArgumentIgnored(k, fields, key, value);
    }
  }

  lemma SkinPhotoReadsEveryKey(key: string)
    requires key in ArgumentDefaults(SkinPhoto)
    ensures Reads(SkinPhoto, key)
  {
    var none: map<string, Json> := map[];
    if key == "image_description" {
      assert Reply(SkinPhoto, JObj(none)).value[0].slots[0] == "";
      assert Reply(SkinPhoto, JObj(none[key := JStr("x")])).value[0].slots[0] != "";
      ReadsBy(SkinPhoto, none, key, JStr("x"));
    } else if key == "analysis_focus" {
      assert Reply(SkinPhoto, JObj(none[key := JNum(0)])).Err?;
      ReadsBy(SkinPhoto, none, key, JNum(0));
    } else if key == "user_age" {
      assert Reply(SkinPhoto, JObj(none)).value[0].slots[1] == "";
      assert Reply(SkinPhoto, JObj(none[key := JStr("x")])).value[0].slots[1] != "";
      ReadsBy(SkinPhoto, none, key, JStr("x"));
    } else {
      assert Reply(SkinPhoto, JObj(none)).value[0].slots[2] == "";
      assert Reply(SkinPhoto, JObj(none[key := JStr("x")])).value[0].slots[2] != "";
      ReadsBy(SkinPhoto, none, key, JStr("x"));
    }
  }

  lemma BrandSearchReadsEveryKey(key: string)
    requires key in ArgumentDefaults(BrandSearch)
    ensures Reads(BrandSearch, key)
  {
    var none: map<string, Json> := map[];
    assert Reply(BrandSearch, JObj(none)).value[0].slots[0] == "";
    assert Reply(BrandSearch, JObj(none[key := JStr("x")])).value[0].slots[0] == "x";
    ReadsBy(BrandSearch, none, key, JStr("x"));
  }

  lemma RoutineReadsEveryKey(key: string)
    requires key in ArgumentDefaults(Routine)
    ensures Reads(Routine, key)
  {
    if key == "skin_type" {
      RoutineReadsSkinType();
    } else if key == "skin_concerns" {
      RoutineReadsConcerns();
    } else {
      RoutineReadsBudget();
    }
  }

  /** Without `skin_type` the branch raises; with an empty one it answers. */
  lemma RoutineReadsSkinType()
    ensures Reads(Routine, "skin_type")
  {
    var none: map<string, Json> := map[];
    var typed := none["skin_type" := JStr("")];
    assert RoutineReply(JObj(none)) == RoutineText(JNull, JArr([]), JStr("mixed"));
    assert RoutineReply(JObj(typed)) == RoutineText(JStr(""), JArr([]), JStr("mixed"));
    RoutineRaises(JNull, JArr([]), JStr("mixed"));
    RoutineRaises(JStr(""), JArr([]), JStr("mixed"));
    ReadsBy(Routine, none, "skin_type", JStr(""));
  }

  /** With a skin type given, a number for `skin_concerns` makes the branch raise. */
  lemma RoutineReadsConcerns()
    ensures Reads(Routine, "skin_concerns")
  {
    var typed := map["skin_type" := JStr("")];
    var changed := typed["skin_concerns" := JNum(1)];
    assert GetOr(changed, "skin_type", JNull) == JStr("") && GetOr(changed, "skin_concerns", JArr([])) == JNum(1);
    assert GetOr(changed, "budget", JStr("mixed")) == JStr("mixed");
    assert RoutineReply(JObj(typed)) == RoutineText(JStr(""), JArr([]), JStr("mixed"));
    assert RoutineReply(JObj(changed)) == RoutineText(JStr(""), JNum(1), JStr("mixed"));
    RoutineRaises(JStr(""), JArr([]), JStr("mixed"));
    RoutineRaises(JStr(""), JNum(1), JStr("mixed"));
    ReadsBy(Routine, typed, "skin_concerns", JNum(1));
  }

  /** With a skin type given, a number for `budget` makes the branch raise. */
  lemma RoutineReadsBudget()
    ensures Reads(Routine, "budget")
  {
    var typed := map["skin_type" := JStr("")];
    var changed := typed["budget" := JNum(1)];
    assert GetOr(changed, "skin_type", JNull) == JStr("") && GetOr(changed, "budget", JStr("mixed")) == JNum(1);
    assert GetOr(changed, "skin_concerns", JArr([])) == JArr([]);
    assert RoutineReply(JObj(typed)) == RoutineText(JStr(""), JArr([]), JStr("mixed"));
    assert RoutineReply(JObj(changed)) == RoutineText(JStr(""), JArr([]), JNum(1));
    RoutineRaises(JStr(""), JArr([]), JStr("mixed"));
    RoutineRaises(JStr(""), JArr([]), JNum(1));
    ReadsBy(Routine, typed, "budget", JNum(1));
  }

  lemma IngredientsReadsEveryKey(key: string)
    requires key in ArgumentDefaults(Ingredients)
    ensures Reads(Ingredients, key)
  {
    var none: map<string, Json> := map[];
    if key == "ingredients" {
      assert Reply(Ingredients, JObj(none)).Ok?;
      assert Reply(Ingredients, JObj(none[key := JNum(0)])).Err?;
      ReadsBy(Ingredients, none, key, JNum(0));
    } else {
      assert Reply(Ingredients, JObj(none)).value[0].slots[2] == "None";
      assert Reply(Ingredients, JObj(none[key := JStr("x")])).value[0].slots[2] == "x";
      ReadsBy(Ingredients, none, key, JStr("x"));
    }
  }

  lemma ComparisonReadsEveryKey(key: string)
    requires key in ArgumentDefaults(Comparison)
    ensures Reads(Comparison, key)
  {
    var none: map<string, Json> := map[];
    assert Reply(Comparison, JObj(none)).Ok?;
    assert Reply(Comparison, JObj(none[key := JNum(0)])).Err?;
    ReadsBy(Comparison, none, key, JNum(0));
  }

  lemma TrendsReadsEveryKey(key: string)
    requires key in ArgumentDefaults(Trends)
    ensures Reads(Trends, key)
  {
    var none: map<string, Json> := map[];
    if key == "trend_type" {
      assert Reply(Trends, JObj(none)).value[0].slots[0] == "None";
      assert Reply(Trends, JObj(none[key := JStr("x")])).value[0].slots[0] == "x";
    } else {
      assert Reply(Trends, JObj(none)).value[0].slots[1] == "current";
      assert Reply(Trends, JObj(none[key := JStr("x")])).value[0].slots[1] == "x";
    }
    ReadsBy(Trends, none, key, JStr("x"));
  }

  lemma SeasonalReadsEveryKey(key: string)
    requires key in ArgumentDefaults(Seasonal)
    ensures Reads(Seasonal, key)
  {
    var none: map<string, Json> := map[];
    if key == "season" {
      assert Reply(Seasonal, JObj(none)).value[0].slots[0] == "None";
      assert Reply(Seasonal, JObj(none[key := JStr("x")])).value[0].slots[0] == "x";
    } else if key == "climate" {
      assert Reply(Seasonal, JObj(none)).value[0].slots[1] == "temperate";
      assert Reply(Seasonal, JObj(none[key := JStr("x")])).value[0].slots[1] == "x";
    } else {
      assert Reply(Seasonal, JObj(none)).value[0].slots[2] == "None";
      assert Reply(Seasonal, JObj(none[key := JStr("x")])).value[0].slots[2] == "x";
    }
    ReadsBy(Seasonal, none, key, JStr("x"));
  }

  lemma DupesReadsEveryKey(key: string)
    requires key in ArgumentDefaults(Dupes)
    ensures Reads(Dupes, key)
  {
    var none: map<string, Json> := map[];
    if key == "target_product" {
      assert Reply(Dupes, JObj(none)).value[0].slots[0] == "";
      assert Reply(Dupes, JObj(none[key := JStr("x")])).value[0].slots[0] == "x";
    } else {
      assert Reply(Dupes, JObj(none)).value[0].slots[1] == Opening(NoPriceLimit);
      assert Reply(Dupes, JObj(none[key := JStr("x")])).value[0].slots[1] == "x";
    }
    ReadsBy(Dupes, none, key, JStr("x"));
  }

  lemma ConcernMatchReadsEveryKey(key: string)
    requires key in ArgumentDefaults(ConcernMatch)
    ensures Reads(ConcernMatch, key)
  {
    var none: map<string, Json> := map[];
    if key == "concerns" {
      assert Reply(ConcernMatch, JObj(none)).Ok?;
      assert Reply(ConcernMatch, JObj(none[key := JNum(0)])).Err?;
      ReadsBy(ConcernMatch, none, key, JNum(0));
    } else {
      assert Reply(ConcernMatch, JObj(none)).value[2].slots[0] == "moderate";
      assert Reply(ConcernMatch, JObj(none[key := JStr("x")])).value[2].slots[0] == "x";
      ReadsBy(ConcernMatch, none, key, JStr("x"));
    }
  }
}
