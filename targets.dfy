/**
 * Targets: named sinks that count the errors and warnings logged to them, and the list
 * that keeps target names unique. A `Target` is shared by reference (the source hands out
 * clones of one set of shared counters), so it is a class; what a target writes to the
 * standard error stream is returned as the text it would write.
 */
module Targets {
  import opened Wrappers
  import Text
  import opened Kinds
  import opened Entries
  import Errors
  import Building

  /** For every entry kind, the amount added to the (errors, warnings) counters. */
  function ErrorStep(k: EntryKind): (n: nat)
    ensures n == 1 <==> k == Error
    ensures n <= 1
  {
    if k == Error then 1 else 0
  }

  function WarningStep(k: EntryKind): (n: nat)
    ensures n == 1 <==> k == Warning
    ensures n <= 1
  {
    if k == Warning then 1 else 0
  }

  class Target {
    const name: string
    var warnings: nat
    var errors: nat

    /** `Target::new`: both counters start at zero. */
    constructor (name: string)
      ensures this.name == name && warnings == 0 && errors == 0
    {
      this.name := name;
      warnings := 0;
      errors := 0;
    }

    /** `Target::warning_count`. */
    function WarningCount(): nat
      reads this
    {
      warnings
    }

    /** `Target::error_count`. */
    function ErrorCount(): nat
      reads this
    {
      errors
    }

    /** `log_entry`: an error bumps the error counter, a warning the warning counter,
        anything else neither; the entry is written at its default width. */
    method LogEntry(e: Entry) returns (r: Outcome<Building.Error>, written: string)
      modifies this
      ensures errors == old(errors) + ErrorStep(e.kind)
      ensures warnings == old(warnings) + WarningStep(e.kind)
      ensures written == Text.Render(EntryRows(e, None))
      ensures r == Pass
    {
      match e.kind {
        case Error => errors := errors + 1;
        case Warning => warnings := warnings + 1;
        case _ =>
      }
      written := RenderEntry(e, None);
      r := Pass;
    }

    /** `log_multi_entry`: the group counts once, as its worst kind. */
    method LogMultiEntry(m: MultiEntry) returns (r: Outcome<Building.Error>, written: string)
      modifies this
      ensures errors == old(errors) + ErrorStep(GroupKind(m.entries))
      ensures warnings == old(warnings) + WarningStep(GroupKind(m.entries))
      ensures written == Text.Render(GroupRows(m.entries))
      ensures r == Pass
    {
      match GroupKind(m.entries) {
        case Error => errors := errors + 1;
        case Warning => warnings := warnings + 1;
        case _ =>
      }
      written := m.Display();
      r := Pass;
    }

    /** `log_inline_entry`: a task row, counted nowhere. */
    method LogInlineEntry(t: Task) returns (r: Outcome<Building.Error>, written: string)
      ensures written == Text.Render([TaskRow(t, None)])
      ensures r == Pass
    {
      written := TaskRow(t, None) + "\n";
      Text.RenderOne(TaskRow(t, None));
      r := Pass;
    }

    /** `if_warnings`: the count the callback is invoked with, or `None` when it is not
        invoked (and `Ok(())` is returned). */
    function IfWarnings(): (call: Option<nat>)
      reads this
      ensures call.Some? <==> WarningCount() > 0
      ensures call.Some? ==> call.value == WarningCount()
    {
      if warnings > 0 then Some(warnings) else None
    }

    /** `if_errors`: as `IfWarnings`, for the error counter. */
    function IfErrors(): (call: Option<nat>)
      reads this
      ensures call.Some? <==> ErrorCount() > 0
      ensures call.Some? ==> call.value == ErrorCount()
    {
      if errors > 0 then Some(errors) else None
    }
  }

  /** The first target of `list` named `name`. */
  function FindIn(list: seq<Target>, name: string): (r: Option<Target>)
    ensures r.None? <==> forall i :: 0 <= i < |list| ==> list[i].name != name
    ensures r.Some? ==> exists i :: 0 <= i < |list| && list[i] == r.value &&
                                   r.value.name == name &&
                                   forall j :: 0 <= j < i ==> list[j].name != name
  {
    if list == [] then None
    else if list[0].name == name then Some(list[0])
    else
      var r := FindIn(list[1..], name);
      assert forall i :: 0 <= i < |list[1..]| ==> list[1..][i] == list[i + 1];
      if r.Some? then
        var i :| 0 <= i < |list[1..]| && list[1..][i] == r.value && r.value.name == name &&
                 forall j :: 0 <= j < i ==> list[1..][j].name != name;
        assert list[i + 1] == r.value;
        r
      else r
  }

  /** No two targets of `list` share a name. */
  predicate UniqueNames(list: seq<Target>) {
    forall i, j :: 0 <= i < j < |list| ==> list[i].name != list[j].name
  }

  /** With unique names, a target in the list is what looking up its name finds. */
  lemma {:induction false} FindInUnique(list: seq<Target>, i: nat)
    requires UniqueNames(list)
    requires i < |list|
    ensures FindIn(list, list[i].name) == Some(list[i])
  {
    var r := FindIn(list, list[i].name);
    assert r.Some?;
    var k :| 0 <= k < |list| && list[k] == r.value && r.value.name == list[i].name &&
             forall j :: 0 <= j < k ==> list[j].name != list[i].name;
    assert !(i < k);
    assert k == i;
  }

  class TargetList {
    var list: seq<Target>

    /** `TargetList::new`. */
    constructor ()
      ensures list == []
    {
      list := [];
    }

    /** The invariant `add_target` keeps: one target per name. */
    predicate Valid()
      reads this
    {
      UniqueNames(list)
    }

    /** `TargetList::find`: the first target with that name (the same shared target). */
    function Find(name: string): (r: Option<Target>)
      reads this
      ensures r.None? <==> forall i :: 0 <= i < |list| ==> list[i].name != name
      ensures r.Some? ==> r.value in list && r.value.name == name
    {
      FindIn(list, name)
    }

    /** `TargetList::add_target`: refused, with the list unchanged, when a target of that
        name is already present; otherwise the target goes at the end. */
    method AddTarget(t: Target) returns (r: Outcome<Building.Error>)
      modifies this
      ensures old(Find(t.name)).Some? ==>
        r == Fail(Errors.FromKind(Errors.TargetAlreadyExists(t.name))) && list == old(list)
      ensures old(Find(t.name)).None? ==> r == Pass && list == old(list) + [t]
      ensures old(Valid()) ==> Valid()
    {
      var other := Find(t.name);
      if other.Some? {
        return Fail(Errors.FromKind(Errors.TargetAlreadyExists(other.value.name)));
      }
      list := list + [t];
      r := Pass;
    }

    /** `TargetList::create_target`: a fresh target with zeroed counters, added to the list;
        refused when the name is taken. */
    method CreateTarget(name: string) returns (r: Result<Target, Building.Error>)
      modifies this
      ensures old(Find(name)).Some? ==>
        r == Failure(Errors.FromKind(Errors.TargetAlreadyExists(name))) && list == old(list)
      ensures old(Find(name)).None? ==>
        r.Success? && fresh(r.value) && r.value.name == name &&
        r.value.warnings == 0 && r.value.errors == 0 && list == old(list) + [r.value]
      ensures old(Valid()) ==> Valid()
    {
      var t := new Target(name);
      var added := AddTarget(t);
      if added.Fail? {
        return Failure(added.error);
      }
      r := Success(t);
    }
  }

  /** Log an entry, keeping only its effect on the counters. */
  method Count(t: Target, e: Entry)
    modifies t
    ensures t.errors == old(t.errors) + ErrorStep(e.kind)
    ensures t.warnings == old(t.warnings) + WarningStep(e.kind)
  {
    var r, written := t.LogEntry(e);
  }

  /** Log a group, keeping only its effect on the counters. */
  method CountGroup(t: Target, m: MultiEntry)
    modifies t
    ensures t.errors == old(t.errors) + ErrorStep(GroupKind(m.entries))
    ensures t.warnings == old(t.warnings) + WarningStep(GroupKind(m.entries))
  {
    var r, written := t.LogMultiEntry(m);
  }

  /** Log a task, which leaves the counters alone. */
  method Announce(t: Target, task: Task) {
    var r, written := t.LogInlineEntry(task);
  }

  /** The crate's introductory example: a task, then the unused-`mut` warning, logged to
      `example`; the summary warning goes to the global target, so `example` keeps one
      warning and no error. */
  method IntroductionExample() returns (errorsCall: Option<nat>, warningsCall: Option<nat>, globalWarnings: nat)
    ensures errorsCall == None
    ensures warningsCall == Some(1)
    ensures globalWarnings == 1
  {
    var global := new Target("");
    var target := new Target("example");
    Announce(target, Task("Compiling", "example v0.1.0"));
    var e := Building.UnusedMutExample();
    Count(target, e);
    errorsCall := target.IfErrors();
    warningsCall := target.IfWarnings();
    Count(global, NewWarning("`example` (bin) generated 1 warning"));
    assert target.WarningCount() == 1;
    globalWarnings := global.WarningCount();
  }

  /** `examples/simple.rs`: two targets created in a list, a duplicate name refused, and
      two warnings logged through the target the list finds, which is the one created. */
  method SimpleExample() returns (duplicate: Result<Target, Building.Error>, errors: nat, warnings: nat,
                                  warningsCall: Option<nat>)
    ensures duplicate == Failure(Errors.FromKind(Errors.TargetAlreadyExists("simple")))
    ensures errors == 0 && warnings == 2 && warningsCall == Some(2)
  {
    var logger := new TargetList();
    var created := logger.CreateTarget("simple");
    var global := logger.CreateTarget("");
    assert logger.list == [created.value, global.value];
    assert logger.Valid();
    duplicate := logger.CreateTarget("simple");
    var simple := created.value;
    Count(simple, NewWarning("starting `simple.rs` -- the following is NOT generated by `cargo`"));
    Announce(simple, Task("Running", "example `simple.rs`"));
    var e := Building.SimpleExample();
    Count(simple, e);
    var found := logger.Find("simple");
    FindInUnique(logger.list, 0);
    assert found == Some(simple);
    errors := found.value.ErrorCount();
    warnings := found.value.WarningCount();
    warningsCall := found.value.IfWarnings();
  }

  /** A group counts once, as its worst entry: a warning with a note adds one warning. */
  method GroupExample() returns (errors: nat, warnings: nat)
    ensures errors == 0 && warnings == 1
  {
    var target := new Target("example");
    var m := new MultiEntry();
    m.AddEntry(NewWarning("missing documentation for an associated function"));
    m.AddEntry(NewNote("the lint level is defined here"));
    CountGroup(target, m);
    errors := target.ErrorCount();
    warnings := target.WarningCount();
  }
}
