/**
  How `call_tool`'s branches agree with what `list_tools` registers: the
  same names, and each branch reads exactly the declared arguments.
 */
module Registration {
  import opened Json
  import opened Py
  import opened Schema
  import opened Registry
  import opened Templates
  import opened Handlers
  import opened ToolCalls
  import opened ArgumentReads

  /** The branches of `call_tool` are exactly the tools `list_tools` registers. */
  lemma LookupIffRegistered(name: Json)
    ensures Lookup(name).Some? <==> IsRegistered(name)
  {
    ToolNamesAre();
  }

  /**
    `call_tool` answers with the fallback text exactly when the name is not
    one of the names `list_tools` registers; the fallback never raises and
    ignores the arguments.
   */
  lemma FallbackIffUnregistered(name: Json, arguments: Json)
    ensures CallTool(name, arguments) == Ok([TextContent("text", UnknownToolText(name))]) <==> !IsRegistered(name)
  {
    LookupIffRegistered(name);
    if Lookup(name).Some? {
      var pieces := Reply(Lookup(name).value, arguments);
      if pieces.Ok? {
        RenderStart(pieces.value);
        OnlyFallbackOpensLikeFallback(pieces.value[0].template);
      }
    }
  }

  /**
    The branch for the i-th registered tool reads exactly the argument names
    that tool's schema declares.
   */
  lemma HandlerMatchesRegistry(i: nat)
    requires i < |Kinds|
    ensures ArgumentDefaults(Kinds[i]).Keys == PropertyNames(ListTools()[i])
  {
    if i == 0 {
      SkinPhotoMatchesRegistry();
    } else if i == 1 {
      BrandSearchMatchesRegistry();
    } else if i == 2 {
      RoutineMatchesRegistry();
    } else if i == 3 {
      IngredientsMatchesRegistry();
    } else if i == 4 {
      ComparisonMatchesRegistry();
    } else if i == 5 {
      TrendsMatchesRegistry();
    } else if i == 6 {
      SeasonalMatchesRegistry();
    } else if i == 7 {
      DupesMatchesRegistry();
    } else {
      ConcernMatchMatchesRegistry();
    }
  }

  /**
    A key is a declared property of the i-th registered tool exactly when the
    branch for that tool reads it: setting it can change the reply, and
    setting any other key never does.
   */
  lemma DeclaredIffRead(i: nat, key: string)
    requires i < |Kinds|
    ensures key in PropertyNames(ListTools()[i]) <==> Reads(Kinds[i], key)
  {
    HandlerMatchesRegistry(i);
    ReadsIffGets(Kinds[i], key);
  }

  lemma SkinPhotoMatchesRegistry()
    ensures ArgumentDefaults(Kinds[0]).Keys == PropertyNames(ListTools()[0])
  {
    SkinPhotoReadsDeclaredProperties();
    DeclaredProperties0();
  }

  lemma BrandSearchMatchesRegistry()
    ensures ArgumentDefaults(Kinds[1]).Keys == PropertyNames(ListTools()[1])
  {
    assert Kinds[1] == BrandSearch;
    BrandSearchReadsDeclaredProperties();
    DeclaredProperties1();
  }

  lemma RoutineMatchesRegistry()
    ensures ArgumentDefaults(Kinds[2]).Keys == PropertyNames(ListTools()[2])
  {
    RoutineReadsDeclaredProperties();
    DeclaredProperties2();
  }

  lemma IngredientsMatchesRegistry()
    ensures ArgumentDefaults(Kinds[3]).Keys == PropertyNames(ListTools()[3])
  {
    IngredientsReadsDeclaredProperties();
    DeclaredProperties3();
  }

  lemma ComparisonMatchesRegistry()
    ensures ArgumentDefaults(Kinds[4]).Keys == PropertyNames(ListTools()[4])
  {
    ComparisonReadsDeclaredProperties();
    DeclaredProperties4();
  }

  lemma TrendsMatchesRegistry()
    ensures ArgumentDefaults(Kinds[5]).Keys == PropertyNames(ListTools()[5])
  {
    TrendsReadsDeclaredProperties();
    DeclaredProperties5();
  }

  lemma SeasonalMatchesRegistry()
    ensures ArgumentDefaults(Kinds[6]).Keys == PropertyNames(ListTools()[6])
  {
    SeasonalReadsDeclaredProperties();
    DeclaredProperties6();
  }

  lemma DupesMatchesRegistry()
    ensures ArgumentDefaults(Kinds[7]).Keys == PropertyNames(ListTools()[7])
  {
    DupesReadsDeclaredProperties();
    DeclaredProperties7();
  }

  lemma ConcernMatchMatchesRegistry()
    ensures ArgumentDefaults(Kinds[8]).Keys == PropertyNames(ListTools()[8])
  {
    ConcernMatchReadsDeclaredProperties();
    DeclaredProperties8();
  }

  /** The branches test the registered names, in registry order. */
  lemma KindNamesAreToolNames()
    ensures |Kinds| == |ToolNames()|
    ensures forall i | 0 <= i < |Kinds| :: KindName(Kinds[i]) == ToolNames()[i]
  {
    ToolNamesAre();
  }
}
