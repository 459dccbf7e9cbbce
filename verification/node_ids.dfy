/**
 * The node-id formula. The graph builder spells it out wherever it needs an
 * id (resource nodes, association and dependency edge endpoints, DNS-zone
 * edges, cluster members) and the emitter recomputes it from node data when
 * it anchors cluster titles; here it is defined once and every site uses it.
 */
module NodeIds {
  import opened Text
  import opened Models

  /** The characters the formula rewrites to '_'. */
  predicate IsIdSeparator(c: char) {
    c == ' ' || c == '-' || c == '.'
  }

  /** Spaces, hyphens and dots become underscores, in three successive passes. */
  function Underscored(s: string): (r: string)
    ensures |r| == |s|
    ensures forall i :: 0 <= i < |s| ==> r[i] == (if IsIdSeparator(s[i]) then '_' else s[i])
    ensures forall c :: c in r ==> !IsIdSeparator(c)
  {
    ReplaceChar(ReplaceChar(ReplaceChar(s, ' ', '_'), '-', '_'), '.', '_')
  }

  lemma UnderscoredConcat(a: string, b: string)
    ensures Underscored(a + b) == Underscored(a) + Underscored(b)
  {
    assert |Underscored(a + b)| == |Underscored(a) + Underscored(b)|;
    forall i | 0 <= i < |a + b|
      ensures Underscored(a + b)[i] == (Underscored(a) + Underscored(b))[i]
    {
      if i >= |a| {
        assert (a + b)[i] == b[i - |a|];
      }
    }
  }

  /**
   * The lower-cased type suffix as the code computes it: the last '/' segment
   * when the type has a '/', otherwise the whole type.
   */
  function TypeSuffix(resourceType: string): (r: string)
    ensures '/' !in r
  {
    if '/' in resourceType then
      LastSegmentFree(resourceType, '/');
      LowerAbsent(LastSegment(resourceType, '/'), '/');
      Lower(LastSegment(resourceType, '/'))
    else
      LowerAbsent(resourceType, '/');
      Lower(resourceType)
  }

  /** The conditional is redundant: both branches are the lower-cased last '/' segment. */
  lemma TypeSuffixIsLastSegment(resourceType: string)
    ensures TypeSuffix(resourceType) == Lower(LastSegment(resourceType, '/'))
  {
    if '/' !in resourceType {
      LastSegmentNoSeparator(resourceType, '/');
    }
  }

  /** `f"{category.lower()}_{name.lower()}_{suffix}"` with the separator rewriting. */
  function NodeIdOf(category: string, name: string, resourceType: string): (id: string)
    ensures forall c :: c in id ==> !IsIdSeparator(c) && !IsUpper(c)
    ensures |id| == |category| + |name| + |TypeSuffix(resourceType)| + 2
  {
    var raw := Lower(category) + "_" + Lower(name) + "_" + TypeSuffix(resourceType);
    assert forall c :: c in raw ==> !IsUpper(c);
    Underscored(raw)
  }

  /** The id is three rewritten, lower-cased fields joined by '_'. */
  lemma NodeIdFields(category: string, name: string, resourceType: string)
    ensures NodeIdOf(category, name, resourceType)
         == Underscored(Lower(category)) + "_" + Underscored(Lower(name)) + "_" + Underscored(TypeSuffix(resourceType))
  {
    var a, b, c := Lower(category), Lower(name), TypeSuffix(resourceType);
    UnderscoredConcat(a + "_" + b + "_", c);
    UnderscoredConcat(a + "_" + b, "_");
    UnderscoredConcat(a + "_", b);
    UnderscoredConcat(a, "_");
  }

  /** The id of a resource's node. */
  function NodeId(r: Resource): (id: string)
    ensures forall c :: c in id ==> !IsIdSeparator(c)
  {
    NodeIdOf(r.category, r.name, r.resourceType)
  }

  /** Ids ignore case: resources differing only in letter case share a node id. */
  lemma NodeIdIgnoresCase(category: string, name: string, resourceType: string)
    ensures NodeIdOf(category, name, resourceType) == NodeIdOf(Lower(category), Lower(name), resourceType)
  {
    LowerIdempotent(category);
    LowerIdempotent(name);
  }

  /** Names that agree after lower-casing and rewriting give the same id. */
  lemma NodeIdSameRewrittenName(category: string, n1: string, n2: string, resourceType: string)
    requires Underscored(Lower(n1)) == Underscored(Lower(n2))
    ensures NodeIdOf(category, n1, resourceType) == NodeIdOf(category, n2, resourceType)
  {
    NodeIdFields(category, n1, resourceType);
    NodeIdFields(category, n2, resourceType);
  }

  /** Ids are not collision-free: a hyphen and an underscore in a name give the same id. */
  lemma NodeIdCollision(category: string, resourceType: string)
    ensures "a-b" != "a_b"
    ensures NodeIdOf(category, "a-b", resourceType) == NodeIdOf(category, "a_b", resourceType)
  {
    assert "a-b"[1] != "a_b"[1];
    assert Lower("a-b") == "a-b";
    assert Lower("a_b") == "a_b";
    assert Underscored("a-b") == "a_b";
    assert Underscored("a_b") == "a_b";
    NodeIdSameRewrittenName(category, "a-b", "a_b", resourceType);
  }
}
