/**
  The solution sections of `skin_concern_matcher` (server.py): every concern is
  lower-cased and compared with the keys of `concern_mapping` in order; the
  first key that occurs in the concern, or that the concern occurs in, adds
  one section, and the inner loop stops there.
 */
module ConcernMatcher {
  import opened Json
  import opened Py
  import opened Templates

  /** The iteration order of `concern_mapping`. */
  const MappingOrder: seq<Concern> := [Acne, Aging, Pigmentation, Dryness, Sensitivity]

  /** `key in concern_lower or concern_lower in key`. */
  predicate Matches(key: Concern, lowered: string) {
    Contains(lowered, ConcernKey(key)) || Contains(ConcernKey(key), lowered)
  }

  /** A key matches exactly when it occurs in the concern or the concern occurs in it. */
  lemma MatchesAt(key: Concern, lowered: string)
    ensures Matches(key, lowered) <==>
              (exists i :: OccursAt(lowered, ConcernKey(key), i)) || (exists i :: OccursAt(ConcernKey(key), lowered, i))
  {
    ContainsAt(lowered, ConcernKey(key));
    ContainsAt(ConcernKey(key), lowered);
  }

  /** The first of `keys` that matches. */
  function FirstMatchIn(keys: seq<Concern>, lowered: string): Option<Concern> {
    if keys == [] then None
    else if Matches(keys[0], lowered) then Some(keys[0])
    else FirstMatchIn(keys[1..], lowered)
  }

  /** The first key of `concern_mapping` that matches. */
  function FirstMatch(lowered: string): Option<Concern> {
    FirstMatchIn(MappingOrder, lowered)
  }

  /** None of the first `i` keys matches. */
  predicate NoneBefore(keys: seq<Concern>, lowered: string, i: int) {
    forall k | 0 <= k < i && k < |keys| :: !Matches(keys[k], lowered)
  }

  /**
    The first-match function picks the key the inner loop breaks at: none
    when no key matches, and otherwise the earliest key that matches.
   */
  lemma {:induction false} FirstMatchInSpec(keys: seq<Concern>, lowered: string)
    ensures FirstMatchIn(keys, lowered).None? <==> NoneBefore(keys, lowered, |keys|)
    ensures forall c | FirstMatchIn(keys, lowered) == Some(c) ::
              exists i | 0 <= i < |keys| :: keys[i] == c && Matches(c, lowered) && NoneBefore(keys, lowered, i)
    ensures forall i | 0 <= i < |keys| && Matches(keys[i], lowered) && NoneBefore(keys, lowered, i) ::
              FirstMatchIn(keys, lowered) == Some(keys[i])
  {
    if keys != [] {
      FirstMatchInSpec(keys[1..], lowered);
      var first := keys[0];
      if Matches(first, lowered) {
        assert NoneBefore(keys, lowered, 0);
        forall i | 0 <= i < |keys| && Matches(keys[i], lowered) && NoneBefore(keys, lowered, i)
          ensures i == 0
        {
          assert i > 0 ==> !Matches(first, lowered);
        }
      } else {
        forall c | FirstMatchIn(keys, lowered) == Some(c)
          ensures exists i | 0 <= i < |keys| :: keys[i] == c && Matches(c, lowered) && NoneBefore(keys, lowered, i)
        {
          var i :| 0 <= i < |keys[1..]| && keys[1..][i] == c && Matches(c, lowered) && NoneBefore(keys[1..], lowered, i);
          assert NoneBefore(keys, lowered, i + 1);
        }
        forall i | 0 <= i < |keys| && Matches(keys[i], lowered) && NoneBefore(keys, lowered, i)
          ensures FirstMatchIn(keys, lowered) == Some(keys[i])
        {
          assert i > 0;
          assert NoneBefore(keys[1..], lowered, i - 1);
        }
        if NoneBefore(keys[1..], lowered, |keys| - 1) {
          assert NoneBefore(keys, lowered, |keys|);
        }
      }
    }
  }

  /** The first key of `concern_mapping` that matches: the earliest, or none. */
  lemma FirstMatchIsEarliest(lowered: string)
    ensures FirstMatch(lowered).None? <==> NoneBefore(MappingOrder, lowered, |MappingOrder|)
    ensures forall i | 0 <= i < |MappingOrder| ::
              FirstMatch(lowered) == Some(MappingOrder[i]) <==> Matches(MappingOrder[i], lowered) && NoneBefore(MappingOrder, lowered, i)
  {
    FirstMatchInSpec(MappingOrder, lowered);
    forall i | 0 <= i < |MappingOrder| && FirstMatch(lowered) == Some(MappingOrder[i])
      ensures Matches(MappingOrder[i], lowered) && NoneBefore(MappingOrder, lowered, i)
    {
      ChosenAt(lowered, i);
    }
  }

  /** Keys are distinct, so the key chosen sits at one position of the mapping order. */
  lemma ChosenAt(lowered: string, i: nat)
    requires i < |MappingOrder| && FirstMatch(lowered) == Some(MappingOrder[i])
    requires forall c | FirstMatch(lowered) == Some(c) ::
               exists k | 0 <= k < |MappingOrder| :: MappingOrder[k] == c && Matches(c, lowered) && NoneBefore(MappingOrder, lowered, k)
    ensures Matches(MappingOrder[i], lowered) && NoneBefore(MappingOrder, lowered, i)
  {
    var k :| 0 <= k < |MappingOrder| && MappingOrder[k] == MappingOrder[i] && Matches(MappingOrder[i], lowered)
             && NoneBefore(MappingOrder, lowered, k);
    assert k == i;
  }

  /** The section one concern contributes: none, or the one for its first matching key. */
  function Section(concern: string): (r: seq<Piece>)
    ensures |r| <= 1
  {
    match FirstMatch(Lower(concern))
    case None => []
    case Some(key) => [Piece(SolutionSection(key), [Title(concern)])]
  }

  /** The sections the outer loop appends, concern by concern. */
  function Solutions(concerns: seq<string>): (r: seq<Piece>)
    ensures |r| <= |concerns|
  {
    if concerns == [] then []
    else Solutions(concerns[..|concerns| - 1]) + Section(concerns[|concerns| - 1])
  }

  /** Some key of `concern_mapping` matches the lower-cased concern. */
  predicate Matched(concern: string) {
    FirstMatch(Lower(concern)).Some?
  }

  /** The number of concerns for which some key matches. */
  function MatchedCount(concerns: seq<string>): nat {
    if concerns == [] then 0
    else MatchedCount(concerns[..|concerns| - 1]) + (if Matched(concerns[|concerns| - 1]) then 1 else 0)
  }

  /** There is one section per matched concern, so every concern yields a section exactly when all match. */
  lemma {:induction false} SolutionsCount(concerns: seq<string>)
    ensures |Solutions(concerns)| == MatchedCount(concerns)
    ensures |Solutions(concerns)| == |concerns| <==> forall i | 0 <= i < |concerns| :: Matched(concerns[i])
  {
    SectionPerMatch(concerns);
    AllMatched(concerns);
  }

  lemma {:induction false} SectionPerMatch(concerns: seq<string>)
    ensures |Solutions(concerns)| == MatchedCount(concerns)
  {
    if concerns != [] {
      SectionPerMatch(concerns[..|concerns| - 1]);
    }
  }

  lemma {:induction false} AllMatched(concerns: seq<string>)
    ensures MatchedCount(concerns) <= |concerns|
    ensures MatchedCount(concerns) == |concerns| <==> forall i | 0 <= i < |concerns| :: Matched(concerns[i])
  {
    if concerns != [] {
      var init := concerns[..|concerns| - 1];
      AllMatched(init);
      assert forall i | 0 <= i < |init| :: init[i] == concerns[i];
    }
  }

  /** Every section names the first matching key of a concern, in concern order. */
  lemma {:induction false} SolutionsTemplates(concerns: seq<string>, k: nat)
    requires k < |Solutions(concerns)|
    ensures exists i | 0 <= i < |concerns| ::
              FirstMatch(Lower(concerns[i])).Some?
              && Solutions(concerns)[k] == Piece(SolutionSection(FirstMatch(Lower(concerns[i])).value), [Title(concerns[i])])
  {
    var init := concerns[..|concerns| - 1];
    if k < |Solutions(init)| {
      SolutionsTemplates(init, k);
      var i :| 0 <= i < |init| && FirstMatch(Lower(init[i])).Some?
               && Solutions(init)[k] == Piece(SolutionSection(FirstMatch(Lower(init[i])).value), [Title(init[i])]);
      assert init[i] == concerns[i];
    } else {
      var last := |concerns| - 1;
      assert Solutions(concerns)[k] == Section(concerns[last])[0];
    }
  }

  /**
    The outer loop of `skin_concern_matcher`: every concern, in order, adds
    its section to `result`.
   */
  method AppendSolutions(result: string, concerns: seq<string>) returns (r: string)
    ensures r == result + Render(Solutions(concerns))
  {
    r := result;
    ghost var done: seq<Piece> := [];
    var i := 0;
    while i < |concerns|
      invariant 0 <= i <= |concerns|
      invariant done == Solutions(concerns[..i])
      invariant r == result + Render(done)
    {
      ghost var before := r;
      r := AppendSection(r, concerns[i]);
      SolutionsSnoc(concerns, i);
      RenderAfter(result, done, Section(concerns[i]), before, r);
      done := done + Section(concerns[i]);
      i := i + 1;
    }
    assert concerns[..|concerns|] == concerns;
  }

  /**
    The inner loop: try the keys in mapping order, append the section of the
    first one that matches the lower-cased concern and break.
   */
  method AppendSection(result: string, concern: string) returns (r: string)
    ensures r == result + Render(Section(concern))
  {
    r := result;
    var lowered := Lower(concern);
    var j := 0;
    while j < |MappingOrder|
      invariant 0 <= j <= |MappingOrder|
      invariant r == result
      invariant FirstMatchIn(MappingOrder[j..], lowered) == FirstMatch(lowered)
    {
      var key := MappingOrder[j];
      assert MappingOrder[j..][1..] == MappingOrder[j + 1..];
      if Matches(key, lowered) {
        r := r + PieceText(Piece(SolutionSection(key), [Title(concern)]));
        break;
      }
      j := j + 1;
    }
    SectionRendered(concern, result, r, j);
  }

  /** What the inner loop leaves in `r`: the section of the concern, or nothing. */
  lemma SectionRendered(concern: string, before: string, r: string, j: nat)
    requires j <= |MappingOrder|
    requires j < |MappingOrder| ==> FirstMatch(Lower(concern)) == Some(MappingOrder[j])
                                    && r == before + PieceText(Piece(SolutionSection(MappingOrder[j]), [Title(concern)]))
    requires j == |MappingOrder| ==> FirstMatch(Lower(concern)) == None && r == before
    ensures r == before + Render(Section(concern))
  {
  }

  lemma SolutionsSnoc(concerns: seq<string>, i: nat)
    requires i < |concerns|
    ensures Solutions(concerns[..i + 1]) == Solutions(concerns[..i]) + Section(concerns[i])
  {
    assert concerns[..i + 1][..i] == concerns[..i];
  }

  /** An empty concern occurs in every key, so it always gets the acne section. */
  lemma EmptyConcernMatchesAcne()
    ensures FirstMatch(Lower("")) == Some(Acne)
  {
    assert Contains("acne", "");
  }

  /** A concern that contains several keys gets only the first of them in mapping order. */
  lemma SeveralKeysFirstWins()
    ensures FirstMatch(Lower("Aging and Acne")) == Some(Acne)
  {
    var lowered := Lower("Aging and Acne");
    assert lowered == "aging and acne";
    assert lowered[10..] == "acne";
    ContainsAt(lowered, "acne");
    assert OccursAt(lowered, "acne", 10);
  }
}
