/** components/InsightTool.tsx: the question-by-question stepper of an insight module, its
    result and the "save summary" action.  The four React state cells are the fields of
    `InsightTool`; rendering is not modelled. */
module InsightStepper {
  import opened Wrappers
  import opened InsightTypes
  import opened InsightModules
  import opened InsightsSaved
  import I18n

  class InsightTool {
    /** The module found for the page's slug (the component renders nothing without one). */
    const m: InsightModule
    const locale: I18n.Locale
    var step: int
    var answers: Answers
    var done: bool
    var saved: bool

    /** `step` always names a question (or is 0 for a module without questions). */
    predicate Valid()
      reads this
    {
      0 <= step && (step == 0 || step < |m.questions|)
    }

    constructor (m: InsightModule, locale: I18n.Locale)
      ensures this.m == m && this.locale == locale
      ensures step == 0 && answers == map[] && !done && !saved
      ensures Valid()
    {
      this.m := m;
      this.locale := locale;
      step := 0;
      answers := map[];
      done := false;
      saved := false;
    }

    /** `questions[step]`, absent when `step` is past the end. */
    function Current(): (r: Option<InsightQuestion>)
      reads this
      ensures r.Some? <==> 0 <= step < |m.questions|
      ensures r.Some? ==> r.value == m.questions[step]
    {
      if 0 <= step < |m.questions| then Some(m.questions[step]) else None
    }

    /** `canContinue()`: there is a current question and its answer is a non-empty string. */
    function CanContinue(): (r: bool)
      reads this
      ensures r <==> Current().Some? && Current().value.id in answers
                     && answers[Current().value.id] != ""
    {
      match Current()
      case None => false
      case Some(q) => q.id in answers && answers[q.id] != ""
    }

    /** The `result` memo: nothing until the run is done, then the module's evaluation of
        the answers. */
    function Result(): (r: Option<InsightResult>)
      reads this
      ensures !done ==> r.None?
      ensures done ==> r == Some(Evaluate(m, answers, locale))
      ensures done ==> r.value.score == InsightEngine.Score(m.questions, answers)
    {
      if done then Some(Evaluate(m, answers, locale)) else None
    }

    /** `onSelect(qid, oid)`: records one answer and leaves every other one as it was; an
        answer to the current question enables Continue. */
    method OnSelect(qid: string, oid: string)
      modifies this
      ensures answers == old(answers)[qid := oid]
      ensures forall k :: k in old(answers) && k != qid ==> k in answers && answers[k] == old(answers)[k]
      ensures step == old(step) && done == old(done) && saved == old(saved)
      ensures Current().Some? && Current().value.id == qid && oid != "" ==> CanContinue()
    {
      answers := answers[qid := oid];
    }

    /** `next()`: moves to the following question, or on the last one finishes the run. */
    method Next()
      requires Valid()
      modifies this
      ensures Valid()
      ensures answers == old(answers)
      ensures old(step) < |m.questions| - 1 ==>
        step == old(step) + 1 && done == old(done) && saved == old(saved)
      ensures old(step) >= |m.questions| - 1 ==> step == old(step) && done && !saved
    {
      if step < |m.questions| - 1 {
        step := step + 1;
        return;
      }
      done := true;
      saved := false;
    }

    /** `back()`: from the result, back to the first question with the answers kept;
        otherwise one question back, never below the first. */
    method Back()
      requires Valid()
      modifies this
      ensures Valid()
      ensures answers == old(answers) && saved == old(saved)
      ensures old(done) ==> !done && step == 0
      ensures !old(done) ==> !done && step == if old(step) > 0 then old(step) - 1 else 0
    {
      if done {
        done := false;
        step := 0;
        return;
      }
      step := if step - 1 > 0 then step - 1 else 0;
    }

    /** `reset()`: an empty answer set at the first question. */
    method Reset()
      modifies this
      ensures Valid()
      ensures answers == map[] && step == 0 && !done && !saved
    {
      answers := map[];
      done := false;
      step := 0;
      saved := false;
    }

    /** The Continue button: disabled unless `canContinue()`. */
    method PressContinue()
      requires Valid()
      modifies this
      ensures Valid()
      ensures !old(CanContinue()) ==> step == old(step) && done == old(done) && saved == old(saved)
      ensures old(CanContinue()) && old(step) < |m.questions| - 1 ==> step == old(step) + 1 && done == old(done)
      ensures old(CanContinue()) && old(step) == |m.questions| - 1 ==> done && !saved
      ensures answers == old(answers)
    {
      if CanContinue() {
        Next();
      }
    }

    /** The Back button: disabled at the first question. */
    method PressBack()
      requires Valid()
      modifies this
      ensures Valid()
      ensures old(step) == 0 ==> step == 0 && done == old(done)
      ensures old(step) != 0 && !old(done) ==> step == old(step) - 1
      ensures answers == old(answers) && saved == old(saved)
    {
      if step != 0 {
        Back();
      }
    }

    /** `onSave()` at time `at`: does nothing without a result; otherwise saves the summary
        of the result under the module's slug and marks it saved. */
    method OnSave(store: SavedStore, at: int)
      modifies this, store
      ensures step == old(step) && answers == old(answers) && done == old(done)
      ensures old(Result()).None? ==> saved == old(saved) && store.slot == old(store.slot)
      ensures old(Result()).Some? ==> saved
      ensures old(Result()).Some? && store.hasWindow ==>
        var r := old(Result()).value;
        store.slot == Json(JsValues.JArr(EncodeAll(SaveList(old(store.Load()),
                                                   NewEntry(m.slug, at, r.level, r.summary)))))
      ensures !store.hasWindow ==> store.slot == old(store.slot)
      ensures store.hasWindow == old(store.hasWindow)
    {
      var result := Result();
      if result.None? {
        return;
      }
      store.SaveInsight(m.slug, at, result.value.level, result.value.summary);
      saved := true;
    }
  }
}
