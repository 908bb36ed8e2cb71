/** lib/insights/types.ts: the schema of insight modules and their results. */
module InsightTypes {
  import opened Wrappers
  import I18n

  /** A `Record<Locale, string>`: one text per locale. */
  datatype Localized = Localized(en: string, ar: string) {
    function In(l: I18n.Locale): string {
      match l
      case En => en
      case Ar => ar
    }
  }

  /** A `Record<Locale, string[]>`. */
  datatype LocalizedList = LocalizedList(en: seq<string>, ar: seq<string>)

  /** `InsightLevel`, in increasing order of concern. */
  datatype Level = Informational | Evaluation | Priority {
    function Rank(): nat {
      match this
      case Informational => 0
      case Evaluation => 1
      case Priority => 2
    }
    /** The string the level is stored and compared as. */
    function Name(): string {
      match this
      case Informational => "informational"
      case Evaluation => "evaluation"
      case Priority => "priority"
    }
  }

  datatype InsightOption = InsightOption(id: string, text: Localized, score: int, redFlag: Option<Localized>)

  datatype InsightQuestion = InsightQuestion(id: string, title: Localized, helper: Option<Localized>,
                                             options: seq<InsightOption>)

  datatype InsightResult = InsightResult(level: Level, score: int, summary: Localized,
                                         explanation: Localized, nextSteps: LocalizedList,
                                         redFlags: Option<LocalizedList>)

  /** The summary text of each level. */
  datatype TierText = TierText(priority: Localized, evaluation: Localized, informational: Localized)

  /** How a module builds `nextSteps`: either fixed steps followed by one tip that depends on
      whether the level is informational, or a constant list. */
  datatype StepsRule =
    | TieredSteps(fixedEn: seq<string>, fixedAr: seq<string>, informationalTip: Localized, consultTip: Localized)
    | FixedSteps(steps: LocalizedList)

  /** What each module's `evaluate` closes over: its (high, mid) thresholds and text tables. */
  datatype Rules = Rules(high: int, mid: int, summary: TierText, explanation: Localized, nextSteps: StepsRule)

  datatype InsightModule = InsightModule(slug: string, title: Localized, description: Localized,
                                         questions: seq<InsightQuestion>, rules: Rules)

  /** `Record<string, string>`: question id to selected option id. */
  type Answers = map<string, string>
}
