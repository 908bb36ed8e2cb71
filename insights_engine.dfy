/** lib/insights/engine.ts: scoring an answer set against a module's questions, and attaching
    the collected red flags to a result. */
module InsightEngine {
  import opened Wrappers
  import opened InsightTypes

  /** `q.options.find((o) => o.id === selectedId)`: the first option with that id. */
  function FindOption(options: seq<InsightOption>, id: string): (r: Option<InsightOption>)
    ensures r.Some? ==> r.value in options && r.value.id == id
    ensures r.None? ==> forall o :: o in options ==> o.id != id
  {
    if options == [] then None
    else if options[0].id == id then Some(options[0])
    else FindOption(options[1..], id)
  }

  /** The option an answer set selects for `q`; `None` when the question is unanswered or its
      answer is no option's id. */
  function Selected(q: InsightQuestion, answers: Answers): (r: Option<InsightOption>)
    ensures r.Some? ==> q.id in answers && r.value in q.options && r.value.id == answers[q.id]
    ensures r.None? ==> q.id !in answers || forall o :: o in q.options ==> o.id != answers[q.id]
  {
    if q.id in answers then FindOption(q.options, answers[q.id]) else None
  }

  /** What one question adds to the score. */
  function Points(q: InsightQuestion, answers: Answers): int {
    match Selected(q, answers)
    case Some(o) => o.score
    case None => 0
  }

  /** The score of the questions `qs`: the selected weights summed in question order. */
  function Score(qs: seq<InsightQuestion>, answers: Answers): int {
    if qs == [] then 0 else Score(qs[..|qs| - 1], answers) + Points(qs[|qs| - 1], answers)
  }

  /** The red flag one question contributes, if its selected option carries one. */
  function FlagOf(q: InsightQuestion, answers: Answers): Option<Localized> {
    match Selected(q, answers)
    case Some(o) => o.redFlag
    case None => None
  }

  /** The red flags of the selected options of `qs`, in question order. */
  function SelectedFlags(qs: seq<InsightQuestion>, answers: Answers): seq<Localized> {
    if qs == [] then []
    else
      var rest := SelectedFlags(qs[..|qs| - 1], answers);
      match FlagOf(qs[|qs| - 1], answers)
      case Some(f) => rest + [f]
      case None => rest
  }

  function EnTexts(fs: seq<Localized>): (r: seq<string>)
    ensures |r| == |fs| && forall k :: 0 <= k < |fs| ==> r[k] == fs[k].en
  {
    seq(|fs|, k requires 0 <= k < |fs| => fs[k].en)
  }

  function ArTexts(fs: seq<Localized>): (r: seq<string>)
    ensures |r| == |fs| && forall k :: 0 <= k < |fs| ==> r[k] == fs[k].ar
  {
    seq(|fs|, k requires 0 <= k < |fs| => fs[k].ar)
  }

  /** `redFlagsByLocale`: the en and ar texts of the same flags, so always of equal length. */
  function RedFlags(qs: seq<InsightQuestion>, answers: Answers): (r: LocalizedList)
    ensures |r.en| == |r.ar| == |SelectedFlags(qs, answers)|
    ensures forall k :: 0 <= k < |r.en| ==>
      Localized(r.en[k], r.ar[k]) == SelectedFlags(qs, answers)[k]
  {
    var fs := SelectedFlags(qs, answers);
    LocalizedList(EnTexts(fs), ArTexts(fs))
  }

  /** `computeScore`: one pass over `module.questions` accumulating the score and pushing the
      red flags of the selected options. */
  method ComputeScore(m: InsightModule, answers: Answers) returns (score: int, redFlagsByLocale: LocalizedList)
    ensures score == Score(m.questions, answers)
    ensures redFlagsByLocale == RedFlags(m.questions, answers)
  {
    var qs := m.questions;
    score := 0;
    var en: seq<string> := [];
    var ar: seq<string> := [];
    ghost var flags: seq<Localized> := [];
    var i := 0;
    while i < |qs|
      invariant 0 <= i <= |qs|
      invariant score == Score(qs[..i], answers)
      invariant flags == SelectedFlags(qs[..i], answers)
      invariant en == EnTexts(flags) && ar == ArTexts(flags)
    {
      var q := qs[i];
      assert qs[..i + 1][..i] == qs[..i];
      var opt := if q.id in answers then FindOption(q.options, answers[q.id]) else None;
      if opt.Some? {
        score := score + opt.value.score;
        if opt.value.redFlag.Some? {
          var f := opt.value.redFlag.value;
          en := en + [f.en];
          ar := ar + [f.ar];
          flags := flags + [f];
        }
      }
      i := i + 1;
    }
    assert qs[..i] == qs;
    redFlagsByLocale := LocalizedList(en, ar);
  }

  /** `withRedFlags`: the result itself when no flag was collected, otherwise the same result
      with `redFlags` set to both lists. */
  function WithRedFlags(result: InsightResult, flags: LocalizedList): (r: InsightResult)
    ensures flags.en == [] && flags.ar == [] ==> r == result
    ensures (flags.en != [] || flags.ar != []) ==>
      r.redFlags == Some(flags) &&
      r.level == result.level && r.score == result.score && r.summary == result.summary &&
      r.explanation == result.explanation && r.nextSteps == result.nextSteps
  {
    var has := |flags.en| > 0 || |flags.ar| > 0;
    if !has then result else result.(redFlags := Some(flags))
  }

  // ---- properties of the score ----

  /** An unanswered or unmatched question adds nothing and no flag, wherever it stands. */
  lemma {:induction false} UnmatchedQuestionIsNeutral(pre: seq<InsightQuestion>, q: InsightQuestion,
                                                      post: seq<InsightQuestion>, answers: Answers)
    requires Selected(q, answers).None?
    ensures Score(pre + [q] + post, answers) == Score(pre + post, answers)
    ensures SelectedFlags(pre + [q] + post, answers) == SelectedFlags(pre + post, answers)
    decreases |post|
  {
    if post == [] {
      assert (pre + [q] + post)[..|pre + [q] + post| - 1] == pre;
      assert pre + post == pre;
    } else {
      var init := post[..|post| - 1];
      var last := post[|post| - 1];
      UnmatchedQuestionIsNeutral(pre, q, init, answers);
      assert pre + [q] + post == (pre + [q] + init) + [last];
      assert pre + post == (pre + init) + [last];
      assert (pre + [q] + init + [last])[..|pre + [q] + post| - 1] == pre + [q] + init;
      assert (pre + init + [last])[..|pre + post| - 1] == pre + init;
    }
  }

  /** The answer set matters only through each question's own entry: other keys (and the order
      in which answers were given) change nothing. */
  lemma {:induction false} ScoreDependsOnlyOnOwnAnswers(qs: seq<InsightQuestion>, a1: Answers, a2: Answers)
    requires forall q :: q in qs ==> (q.id in a1 <==> q.id in a2)
    requires forall q :: q in qs && q.id in a1 ==> a1[q.id] == a2[q.id]
    ensures Score(qs, a1) == Score(qs, a2)
    ensures SelectedFlags(qs, a1) == SelectedFlags(qs, a2)
    ensures RedFlags(qs, a1) == RedFlags(qs, a2)
  {
    if qs != [] {
      var init := qs[..|qs| - 1];
      assert forall q :: q in init ==> q in qs;
      ScoreDependsOnlyOnOwnAnswers(init, a1, a2);
      assert Selected(qs[|qs| - 1], a1) == Selected(qs[|qs| - 1], a2);
    }
  }

  /** The score is the plain sum over the questions, whatever way the list is split. */
  lemma {:induction false} ScoreAppend(xs: seq<InsightQuestion>, ys: seq<InsightQuestion>, answers: Answers)
    ensures Score(xs + ys, answers) == Score(xs, answers) + Score(ys, answers)
    ensures SelectedFlags(xs + ys, answers) == SelectedFlags(xs, answers) + SelectedFlags(ys, answers)
    decreases |ys|
  {
    if ys == [] {
      assert xs + ys == xs;
    } else {
      var init := ys[..|ys| - 1];
      ScoreAppend(xs, init, answers);
      assert (xs + ys)[..|xs + ys| - 1] == xs + init;
    }
  }

  /** The score of a list is its first question's points plus the score of the rest. */
  lemma ScoreCons(q: InsightQuestion, qs: seq<InsightQuestion>, answers: Answers)
    ensures Score([q] + qs, answers) == Points(q, answers) + Score(qs, answers)
    ensures SelectedFlags([q] + qs, answers) ==
      (match FlagOf(q, answers) case Some(f) => [f] case None => []) + SelectedFlags(qs, answers)
  {
    ScoreAppend([q], qs, answers);
    assert [q][..0] == [];
  }

  /** The weights of a list of options, summed. */
  function SumWeights(picks: seq<InsightOption>): int {
    if picks == [] then 0 else picks[0].score + SumWeights(picks[1..])
  }

  /** The red flags a list of options carries, in list order. */
  function FlagsOf(picks: seq<InsightOption>): seq<Localized> {
    if picks == [] then []
    else (match picks[0].redFlag case Some(f) => [f] case None => []) + FlagsOf(picks[1..])
  }

  lemma SumWeightsCons(p: InsightOption, ps: seq<InsightOption>)
    ensures SumWeights([p] + ps) == p.score + SumWeights(ps)
    ensures FlagsOf([p] + ps) == FlagsOf([p]) + FlagsOf(ps)
  {
    assert ([p] + ps)[1..] == ps;
    assert [p][1..] == [];
  }

  /** When every question is answered with one of its options, the score is the sum of the
      chosen weights and the flags are the chosen options' flags, both in question order. */
  lemma {:induction false} ScoreOfSelected(qs: seq<InsightQuestion>, answers: Answers, picks: seq<InsightOption>)
    requires |picks| == |qs|
    requires forall i :: 0 <= i < |qs| ==> Selected(qs[i], answers) == Some(picks[i])
    ensures Score(qs, answers) == SumWeights(picks)
    ensures SelectedFlags(qs, answers) == FlagsOf(picks)
  {
    if qs != [] {
      ScoreOfSelected(qs[1..], answers, picks[1..]);
      ScoreCons(qs[0], qs[1..], answers);
      assert [qs[0]] + qs[1..] == qs;
    }
  }

  function MaxWeight(options: seq<InsightOption>): int {
    if options == [] then 0
    else if |options| == 1 then options[0].score
    else
      var m := MaxWeight(options[1..]);
      if options[0].score > m then options[0].score else m
  }

  function MinWeight(options: seq<InsightOption>): int {
    if options == [] then 0
    else if |options| == 1 then options[0].score
    else
      var m := MinWeight(options[1..]);
      if options[0].score < m then options[0].score else m
  }

  lemma {:induction false} WeightWithinBounds(options: seq<InsightOption>, o: InsightOption)
    requires o in options
    ensures MinWeight(options) <= o.score <= MaxWeight(options)
  {
    if |options| > 1 && o != options[0] {
      WeightWithinBounds(options[1..], o);
    }
  }

  /** The sum of each question's largest weight: the highest score a module can give. */
  function MaxScore(qs: seq<InsightQuestion>): int {
    if qs == [] then 0 else MaxScore(qs[..|qs| - 1]) + MaxWeight(qs[|qs| - 1].options)
  }

  /** The sum of each question's smallest weight: the lowest score of a complete answer set. */
  function MinScore(qs: seq<InsightQuestion>): int {
    if qs == [] then 0 else MinScore(qs[..|qs| - 1]) + MinWeight(qs[|qs| - 1].options)
  }

  predicate NonNegativeWeights(qs: seq<InsightQuestion>) {
    forall q, o :: q in qs && o in q.options ==> o.score >= 0
  }

  /** Every question is answered with one of its options. */
  predicate Complete(qs: seq<InsightQuestion>, answers: Answers) {
    forall q :: q in qs ==> Selected(q, answers).Some?
  }

  lemma {:induction false} NonNegativeMaxWeight(options: seq<InsightOption>)
    requires forall o :: o in options ==> o.score >= 0
    ensures MaxWeight(options) >= 0
  {
    if |options| > 1 {
      NonNegativeMaxWeight(options[1..]);
    }
  }

  /** With non-negative weights the score lies between 0 and the sum of the largest weights. */
  lemma {:induction false} ScoreBounds(qs: seq<InsightQuestion>, answers: Answers)
    requires NonNegativeWeights(qs)
    ensures 0 <= Score(qs, answers) <= MaxScore(qs)
  {
    if qs != [] {
      var init := qs[..|qs| - 1];
      var q := qs[|qs| - 1];
      assert forall x :: x in init ==> x in qs;
      ScoreBounds(init, answers);
      NonNegativeMaxWeight(q.options);
      if Selected(q, answers).Some? {
        WeightWithinBounds(q.options, Selected(q, answers).value);
      }
    }
  }

  /** A complete answer set scores at least the sum of the smallest weights. */
  lemma {:induction false} CompleteScoreAtLeastMin(qs: seq<InsightQuestion>, answers: Answers)
    requires Complete(qs, answers)
    ensures Score(qs, answers) >= MinScore(qs)
  {
    if qs != [] {
      var init := qs[..|qs| - 1];
      var q := qs[|qs| - 1];
      assert forall x :: x in init ==> x in qs;
      CompleteScoreAtLeastMin(init, answers);
      WeightWithinBounds(q.options, Selected(q, answers).value);
    }
  }
}
