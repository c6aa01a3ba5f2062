/** The document mapper's `required` and `enum` validators and their default messages. */
module Validation {
  import opened Wrappers
  import opened Seqs

  /** One failed validator, reported for the path it guards. */
  datatype FieldError<P> = Required(path: P) | NotInEnum(path: P, value: string)

  /** The default message of a failure on a path called `name`. */
  function ErrorMessage<P>(e: FieldError<P>, name: string): string {
    match e
    case Required(_) => "Path `" + name + "` is required."
    case NotInEnum(_, v) => "`" + v + "` is not a valid enum value for path `" + name + "`."
  }

  /** The paths that failed, in the order they are reported. */
  function Paths<P>(errs: seq<FieldError<P>>): seq<P> {
    if errs == [] then [] else [errs[0].path] + Paths(errs[1..])
  }

  lemma {:induction false} PathsConcat<P>(a: seq<FieldError<P>>, b: seq<FieldError<P>>)
    ensures Paths(a + b) == Paths(a) + Paths(b)
  {
    if a == [] {
      assert a + b == b;
    } else {
      assert (a + b)[1..] == a[1..] + b;
      PathsConcat(a[1..], b);
    }
  }

  /** Runs the validators of each path in `ps`, in order, collecting their errors. */
  function RunChecks<P>(ps: seq<P>, check: P -> seq<FieldError<P>>): seq<FieldError<P>>
    decreases |ps|
  {
    if ps == [] then [] else check(ps[0]) + RunChecks(ps[1..], check)
  }

  /**
   * When `check(p)` reports `p` exactly if `fails(p)`, the paths reported are the failing ones,
   * each once, in the order of `ps`.
   */
  lemma {:induction false} RunChecksPaths<P(!new)>(ps: seq<P>, check: P -> seq<FieldError<P>>, fails: P -> bool)
    requires forall p :: Paths(check(p)) == if fails(p) then [p] else []
    ensures Paths(RunChecks(ps, check)) == Keep(ps, fails)
    decreases |ps|
  {
    if ps != [] {
      RunChecksPaths(ps[1..], check, fails);
      PathsConcat(check(ps[0]), RunChecks(ps[1..], check));
    }
  }

  /** A required string is there and is not empty. */
  predicate Present(v: Option<string>) {
    v.Some? && v.value != ""
  }

  /** The `required` validator of a string path. */
  function CheckRequired<P>(path: P, v: Option<string>): (errs: seq<FieldError<P>>)
    ensures Paths(errs) == if Present(v) then [] else [path]
    ensures !Present(v) <==> errs == [Required(path)]
    ensures Present(v) <==> errs == []
  {
    if Present(v) then [] else [Required(path)]
  }

  /** The `required` validator of a number path: any number, zero included, is there. */
  function CheckRequiredNumber<P>(path: P, v: Option<int>): (errs: seq<FieldError<P>>)
    ensures Paths(errs) == if v.Some? then [] else [path]
    ensures v.None? <==> errs == [Required(path)]
    ensures v.Some? <==> errs == []
  {
    if v.Some? then [] else [Required(path)]
  }

  /** `required` first, then `enum`: a path reports only the first validator that fails. */
  function CheckEnum<P>(path: P, v: Option<string>, allowed: seq<string>): (errs: seq<FieldError<P>>)
    ensures Paths(errs) == if Present(v) && v.value in allowed then [] else [path]
    ensures !Present(v) <==> errs == [Required(path)]
    ensures Present(v) ==> (v.value !in allowed <==> errs == [NotInEnum(path, v.value)])
    ensures Present(v) && v.value in allowed <==> errs == []
  {
    if !Present(v) then [Required(path)]
    else if v.value !in allowed then [NotInEnum(path, v.value)]
    else []
  }
}
