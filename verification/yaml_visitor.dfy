/**
 * The YAML (Alice) visitor: a reference is rendered as the default
 * visitor's rendering with an '@' in front, which Alice resolves at load
 * time; an embedded object is not rendered at all.
 */
module YamlVisitor {
  import opened Wrappers

  const ReferenceSigil: char := '@'

  /** `visitReference`, over what the parent (default) visitor renders for the reference. */
  function VisitReference<R>(parentVisitReference: R -> string, reference: R): (r: string)
    ensures |r| == |parentVisitReference(reference)| + 1
    ensures r[0] == ReferenceSigil
    ensures r[1..] == parentVisitReference(reference)
  {
    [ReferenceSigil] + parentVisitReference(reference)
  }

  /** `visitObject`: always `null`, so no embedded object appears inline in YAML. */
  function VisitObject<O>(embedded: O): (r: Option<string>)
    ensures r == None
  {
    None
  }

  /** How a loader reads a rendered reference back: the target after the '@', if any. */
  function ReferenceTarget(rendered: string): (r: Option<string>)
    ensures r.Some? <==> |rendered| > 0 && rendered[0] == ReferenceSigil
  {
    if |rendered| > 0 && rendered[0] == ReferenceSigil then Some(rendered[1..]) else None
  }

  /** Reading a rendered reference back yields exactly the parent visitor's rendering. */
  lemma ReferenceRoundTrip<R>(parentVisitReference: R -> string, reference: R)
    ensures ReferenceTarget(VisitReference(parentVisitReference, reference)) == Some(parentVisitReference(reference))
  {
  }

  /** Two references render alike exactly when the parent visitor renders them alike. */
  lemma VisitReferenceInjective<R>(parentVisitReference: R -> string, a: R, b: R)
    ensures VisitReference(parentVisitReference, a) == VisitReference(parentVisitReference, b) <==>
      parentVisitReference(a) == parentVisitReference(b)
  {
    if VisitReference(parentVisitReference, a) == VisitReference(parentVisitReference, b) {
      assert VisitReference(parentVisitReference, a)[1..] == VisitReference(parentVisitReference, b)[1..];
    }
  }
}
