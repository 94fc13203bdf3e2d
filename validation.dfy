/**
 * Mongoose schema validation: each path's validators run in order, `required` first,
 * and the first one that fails is that path's error; a document with any error is not saved.
 */
module Validation {

  datatype Rule =
    | Required(message: string)
    | MinLength(limit: nat, message: string)
    | MaxLength(limit: nat, message: string)
    | Pattern(message: string)
    | NotInEnum(allowed: set<string>)
    | BelowMin(min: int)
    | AboveMax(max: int)

  /** One entry of a ValidationError's `errors`. */
  datatype Violation = Violation(path: string, rule: Rule)

  /** One validator of a path: whether the value passes it, and the rule it reports otherwise. */
  datatype Check = Check(passes: bool, rule: Rule)

  /** The error of one path: the first failing validator, if any. */
  function PathErrors(path: string, checks: seq<Check>): (r: seq<Violation>)
    ensures |r| <= 1
    ensures r == [] <==> forall k :: 0 <= k < |checks| ==> checks[k].passes
    ensures r != [] ==> r[0].path == path
    ensures r != [] ==> exists k :: 0 <= k < |checks| && !checks[k].passes && r[0].rule == checks[k].rule
  {
    if checks == [] then []
    else if !checks[0].passes then [Violation(path, checks[0].rule)]
    else PathErrors(path, checks[1..])
  }

  /** A path with one validator reports nothing exactly when that validator passes. */
  lemma PathErrorsOne(path: string, a: Check)
    ensures PathErrors(path, [a]) == [] <==> a.passes
  {
  }

  /** A path with two validators reports nothing exactly when both pass. */
  lemma PathErrorsTwo(path: string, a: Check, b: Check)
    ensures PathErrors(path, [a, b]) == [] <==> a.passes && b.passes
  {
    assert [a, b][1..] == [b];
  }

  /** The outcome of building and saving a document. */
  datatype Saved<T> = Stored(value: T) | Invalid(violations: seq<Violation>)

  /** Mongoose's message for a `required` path that was given no custom one. */
  function DefaultRequired(path: string): string {
    "Path `" + path + "` is required."
  }
}
