/**
 * The synchronize_on_fields decorator of generic_sample.py: the rule that decides
 * whether a field-bound method of a sample may run, and the lock discipline around it.
 * A pipeline slot holds Some(pipeline) while a pipeline on that field is active.
 */
module Samples {
  import opened Outcomes
  import opened Exceptions

  /** Some field of fieldNames has a slot in the pipeline map and that slot holds a pipeline. */
  predicate HasActivePipeline<P>(pipelines: map<string, Option<P>>, fieldNames: set<string>) {
    exists f :: f in fieldNames && f in pipelines && pipelines[f].Some?
  }

  /**
   * The check synchronize_on_fields makes, with the locks held, before it calls the
   * wrapped method: with checkPipeline it raises AnotherActivePipelineException for
   * the first field it meets whose pipeline is active; otherwise the method runs.
   */
  method CheckPipelines<P>(pipelines: map<string, Option<P>>, fieldNames: set<string>, checkPipeline: bool)
    returns (r: Outcome<Error>)
    ensures r.Fail? <==> checkPipeline && HasActivePipeline(pipelines, fieldNames)
    ensures r.Fail? ==> r.error.AnotherActivePipeline? && r.error.field in fieldNames
                        && r.error.field in pipelines && pipelines[r.error.field].Some?
  {
    if !checkPipeline {
      return Pass;
    }
    var rest := fieldNames;
    while rest != {}
      invariant rest <= fieldNames
      invariant forall f :: f in fieldNames && f !in rest && f in pipelines ==> pipelines[f].None?
      decreases |rest|
    {
      var f :| f in rest;
      if f in pipelines && pipelines[f].Some? {
        return Fail(AnotherActivePipeline(f));
      }
      rest := rest - {f};
    }
    return Pass;
  }

  /** A field the pipeline map has no slot for (a field that is not an ndarray) never blocks a method. */
  lemma FieldsWithoutSlotNeverBlock<P>(pipelines: map<string, Option<P>>, fieldNames: set<string>)
    requires fieldNames !! pipelines.Keys
    ensures !HasActivePipeline(pipelines, fieldNames)
  {
  }

  /** The reentrant locks held on a sample's fields, as a multiset of field names. */
  type HeldLocks = multiset<string>

  /** Acquiring the lock of every field in fieldNames. */
  function Acquire(held: HeldLocks, fieldNames: set<string>): (r: HeldLocks)
    ensures forall f :: f in fieldNames ==> r[f] == held[f] + 1
    ensures forall f :: f !in fieldNames ==> r[f] == held[f]
  {
    held + multiset(fieldNames)
  }

  /** Releasing the lock of every field in fieldNames. */
  function Release(held: HeldLocks, fieldNames: set<string>): (r: HeldLocks)
    ensures forall f :: f in fieldNames ==> r[f] == if held[f] == 0 then 0 else held[f] - 1
    ensures forall f :: f !in fieldNames ==> r[f] == held[f]
  {
    held - multiset(fieldNames)
  }

  /** The finally clause of synchronize_on_fields gives back exactly the locks the wrapper took. */
  lemma ReleaseUndoesAcquire(held: HeldLocks, fieldNames: set<string>)
    ensures Release(Acquire(held, fieldNames), fieldNames) == held
  {
  }
}
