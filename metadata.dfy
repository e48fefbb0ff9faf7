/**
 * Per-test metadata read from the test method's annotations when the test starts:
 * the request to issue (`@TargetUri`) and whether telemetry is expected
 * (`@ExpectSomeTelemetry`).
 */
module Metadata {
  import opened Wrappers
  import opened Text

  /** A `@TargetUri(value, method)` annotation as written on the test method. */
  datatype TargetUriAnnotation = TargetUriAnnotation(value: string, httpMethod: string)

  /** The request the harness will issue; `None` stands for both fields being null. */
  datatype Target = Target(uri: string, httpMethod: string)

  /** Prefixes `/` unless the URI already starts with one. */
  function NormaliseUri(uri: string): (r: string)
    ensures "/" <= r
    ensures "/" <= uri ==> r == uri
    ensures !("/" <= uri) ==> r[1..] == uri
  {
    if "/" <= uri then uri else "/" + uri
  }

  lemma NormaliseUriIdempotent(uri: string)
    ensures NormaliseUri(NormaliseUri(uri)) == NormaliseUri(uri)
  {
  }

  /** The target-URI half of `theWatchman.starting`. */
  function TargetOf(annotation: Option<TargetUriAnnotation>): (t: Option<Target>)
    ensures t.None? <==> annotation.None?
    ensures t.Some? ==> "/" <= t.value.uri
    ensures t.Some? && "/" <= annotation.value.value ==> t.value.uri == annotation.value.value
    ensures t.Some? && !("/" <= annotation.value.value) ==> t.value.uri == "/" + annotation.value.value
    ensures t.Some? ==> |t.value.httpMethod| == |annotation.value.httpMethod|
    ensures t.Some? ==> forall i :: 0 <= i < |t.value.httpMethod| ==> !IsLowerAscii(t.value.httpMethod[i])
    ensures t.Some? ==> forall i :: 0 <= i < |annotation.value.httpMethod| ==>
              t.value.httpMethod[i] == UpperChar(annotation.value.httpMethod[i])
  {
    match annotation
    case None => None
    case Some(a) => Some(Target(NormaliseUri(a.value), ToUpper(a.httpMethod)))
  }

  /** `@TargetUri(value = "x", method = "get")` requests `/x` with GET. */
  lemma LowerCaseGetIsGet(value: string)
    requires !("/" <= value)
    ensures TargetOf(Some(TargetUriAnnotation(value, "get"))) == Some(Target("/" + value, "GET"))
  {
    var t := TargetOf(Some(TargetUriAnnotation(value, "get"))).value;
    assert t.httpMethod[0] == 'G' && t.httpMethod[1] == 'E' && t.httpMethod[2] == 'T';
    assert t.httpMethod == "GET";
  }

  /** Reading an already normalised annotation back in gives the same target. */
  lemma TargetOfIdempotent(a: TargetUriAnnotation)
    ensures var t := TargetOf(Some(a)).value;
            TargetOf(Some(TargetUriAnnotation(t.uri, t.httpMethod))) == Some(t)
  {
    ToUpperIdempotent(a.httpMethod);
  }

  /**
   * The expect-telemetry half of `theWatchman.starting`: `annotation == null ||
   * annotation.value()`, where `annotation` is `@ExpectSomeTelemetry(value)`.
   */
  function ExpectSomeTelemetry(annotation: Option<bool>): (expected: bool)
    ensures !expected <==> annotation == Some(false)
  {
    annotation.None? || annotation.value
  }
}
