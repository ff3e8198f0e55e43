/**
 * `error.rs`: what went wrong (`ErrorKind`), the partially built configuration handed
 * back to the caller (`PartialConfiguration`), and the error pairing the two.
 * The configuration types are parameters (entry, builder, group), as the source's are
 * parameters over the styler; the builder layer instantiates them.
 */
module Errors {

  /** The kinds available without the optional `log` and `indicatif` features. */
  datatype ErrorKind =
    | TargetAlreadyExists(target: string)
    | AnnotationOnEmptyLine
    | OverlappingAnnotation

  /** What the caller gets back to retry with: nothing, an entry, a builder or a group. */
  datatype PartialConfiguration<E, B, M> =
    | None
    | Entry(entry: E)
    | EntrySourceBuilder(builder: B)
    | MultiEntry(multi: M)

  datatype Error<E, B, M> = Error(kind: ErrorKind, partialConfiguration: PartialConfiguration<E, B, M>)

  /** `Display for ErrorKind`. */
  function Message(k: ErrorKind): (r: string)
    ensures k.TargetAlreadyExists? ==> |r| == |k.target| + 24
  {
    match k
    case TargetAlreadyExists(t) => "target `" + t + "` already exists"
    case AnnotationOnEmptyLine => "tried to annotate an empty line"
    case OverlappingAnnotation => "annotation overlaps with previous annotation"
  }

  /** Different kinds give different messages; the duplicate-target message names the target. */
  lemma MessageInjective(a: ErrorKind, b: ErrorKind)
    requires Message(a) == Message(b)
    ensures a == b
  {
    var m := Message(a);
    if a.TargetAlreadyExists? || b.TargetAlreadyExists? {
      assert m[1] == 'a';
      assert a.TargetAlreadyExists? && b.TargetAlreadyExists?;
      var ta, tb := a.target, b.target;
      assert |ta| == |tb|;
      assert ("target `" + ta + "` already exists")[8..8 + |ta|] == ta;
      assert ("target `" + tb + "` already exists")[8..8 + |tb|] == tb;
    }
  }

  /** `Display for Error` writes the kind's message only. */
  function Display<E, B, M>(e: Error<E, B, M>): string {
    Message(e.kind)
  }

  /** Two errors display alike exactly when they are of the same kind. */
  lemma DisplayTellsKinds<E, B, M>(e: Error<E, B, M>, e': Error<E, B, M>)
    ensures Display(e) == Display(e') <==> Kind(e) == Kind(e')
  {
    if Display(e) == Display(e') {
      MessageInjective(e.kind, e'.kind);
    }
  }

  /** `From<ErrorKind> for Error`: no configuration to hand back. */
  function FromKind<E, B, M>(k: ErrorKind): (r: Error<E, B, M>)
    ensures Kind(r) == k
    ensures IntoPartialConfiguration(r).None?
  {
    Error(k, None)
  }

  /** `Error::kind`. */
  function Kind<E, B, M>(e: Error<E, B, M>): ErrorKind {
    e.kind
  }

  /** `Error::set_partial_configuration` on an error owned by the caller: the updated error. */
  function SetPartialConfiguration<E, B, M>(e: Error<E, B, M>, c: PartialConfiguration<E, B, M>): (r: Error<E, B, M>)
    ensures Kind(r) == Kind(e)
  {
    e.(partialConfiguration := c)
  }

  /** `Error::into_partial_configuration`. */
  function IntoPartialConfiguration<E, B, M>(e: Error<E, B, M>): PartialConfiguration<E, B, M> {
    e.partialConfiguration
  }

  /** `ErrorKind::into_error_with_partial_configuration`. */
  function IntoErrorWithPartialConfiguration<E, B, M>(k: ErrorKind, c: PartialConfiguration<E, B, M>): (r: Error<E, B, M>)
    ensures Kind(r) == k
    ensures IntoPartialConfiguration(r) == c
  {
    Error(k, c)
  }

  /** The configuration set on an error is the one taken back out of it, and the kind stays. */
  lemma SetThenInto<E, B, M>(e: Error<E, B, M>, c: PartialConfiguration<E, B, M>)
    ensures IntoPartialConfiguration(SetPartialConfiguration(e, c)) == c
    ensures Kind(SetPartialConfiguration(e, c)) == Kind(e)
    ensures Display(SetPartialConfiguration(e, c)) == Display(e)
  {
  }

  /** Setting a configuration on an error made from a kind is making it with that configuration. */
  lemma SetOnFromKind<E, B, M>(k: ErrorKind, c: PartialConfiguration<E, B, M>)
    ensures SetPartialConfiguration(FromKind(k), c) == IntoErrorWithPartialConfiguration(k, c)
  {
  }
}
