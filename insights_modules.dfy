/** lib/insights/modules.ts: the seven insight modules (questions, weights, thresholds and
    tier text), their shared `evaluate` logic, the registry and its lookup by slug.

    Each module's `evaluate` closure in the source has the same shape: score the answers,
    pick a level from the module's own (high, mid) pair, pick the summary by level, keep the
    explanation constant and build the next steps.  Here that shape is written once, as
    `Evaluate`, over the module's `Rules` record. */
module InsightModules {
  import opened Wrappers
  import opened InsightTypes
  import opened InsightEngine
  import I18n

  // ---- the tier classifier and the result composer ----

  /** `score >= high ? 'priority' : score >= mid ? 'evaluation' : 'informational'`:
      half-open ranges, so each boundary value belongs to the higher tier. */
  function LevelFor(score: int, high: int, mid: int): (r: Level)
    ensures r == Priority <==> score >= high
    ensures r == Evaluation <==> mid <= score < high
    ensures r == Informational <==> score < mid && score < high
  {
    if score >= high then Priority else if score >= mid then Evaluation else Informational
  }

  /** The summary written for a level. */
  function SummaryFor(t: TierText, level: Level): (r: Localized)
    ensures level == Priority ==> r == t.priority
    ensures level == Evaluation ==> r == t.evaluation
    ensures level == Informational ==> r == t.informational
  {
    match level
    case Priority => t.priority
    case Evaluation => t.evaluation
    case Informational => t.informational
  }

  /** The next steps for a level: the fixed steps followed by the informational tip or the
      consultation tip, or the module's constant list. */
  function StepsFor(rule: StepsRule, level: Level): (r: LocalizedList)
    ensures rule.TieredSteps? ==>
      var tip := if level == Informational then rule.informationalTip else rule.consultTip;
      r.en == rule.fixedEn + [tip.en] && r.ar == rule.fixedAr + [tip.ar]
    ensures rule.FixedSteps? ==> r == rule.steps
  {
    match rule
    case TieredSteps(fixedEn, fixedAr, informationalTip, consultTip) =>
      var tip := if level == Informational then informationalTip else consultTip;
      LocalizedList(fixedEn + [tip.en], fixedAr + [tip.ar])
    case FixedSteps(steps) => steps
  }

  /** A module's `evaluate(answers, locale)`.  The locale is accepted and not used: every text of
      the result is bilingual. */
  function Evaluate(m: InsightModule, answers: Answers, locale: I18n.Locale): (r: InsightResult)
    ensures r.score == Score(m.questions, answers)
    ensures r.level == Priority <==> r.score >= m.rules.high
    ensures r.level == Evaluation <==> m.rules.mid <= r.score < m.rules.high
    ensures r.level == Informational <==> r.score < m.rules.mid && r.score < m.rules.high
    ensures r.summary == SummaryFor(m.rules.summary, r.level)
    ensures r.explanation == m.rules.explanation
    ensures r.nextSteps == StepsFor(m.rules.nextSteps, r.level)
    ensures r.redFlags.None? <==> SelectedFlags(m.questions, answers) == []
    ensures r.redFlags.Some? ==> r.redFlags.value == RedFlags(m.questions, answers)
  {
    var score := Score(m.questions, answers);
    var level := LevelFor(score, m.rules.high, m.rules.mid);
    var result := InsightResult(level, score, SummaryFor(m.rules.summary, level), m.rules.explanation,
                                StepsFor(m.rules.nextSteps, level), None);
    WithRedFlags(result, RedFlags(m.questions, answers))
  }

  // ---- the seven modules ----

  /** `acne` (acne). */
  const Acne: InsightModule :=
    InsightModule(
      "acne",
      Localized("Acne Insight",
        "إرشادات حب الشباب"),
      Localized("A structured, educational tool to understand patterns and when a medical review is helpful.",
        "أداة تعليمية منظمة لفهم نمط الحالة ومتى قد يفيد التقييم الطبي."),
      [
        InsightQuestion("duration",
          Localized("How long have the breakouts been present?",
                    "منذ متى توجد الحبوب؟"),
          None,
          [
          InsightOption("lt3", Localized("Less than 3 months",
                          "أقل من 3 أشهر"),
            1, None),
          InsightOption("3to12", Localized("3–12 months",
                          "من 3 إلى 12 شهرًا"),
            3, None),
          InsightOption("gt12", Localized("More than 1 year",
                          "أكثر من سنة"),
            4, None)
          ]),
        InsightQuestion("location",
          Localized("Where is it most prominent?",
                    "أين تتركز أكثر؟"),
          None,
          [
          InsightOption("forehead", Localized("Forehead / T‑zone",
                          "الجبهة / منطقة الـT"),
            1, None),
          InsightOption("cheeks", Localized("Cheeks",
                          "الخدين"),
            2, None),
          InsightOption("jaw", Localized("Jawline / chin",
                          "الفك / الذقن"),
            3, None),
          InsightOption("trunk", Localized("Back / chest",
                          "الظهر / الصدر"),
            3, None)
          ]),
        InsightQuestion("type",
          Localized("What describes the lesions best?",
                    "ما الوصف الأقرب للحبوب؟"),
          None,
          [
          InsightOption("comedones", Localized("Mostly blackheads / whiteheads",
                          "رؤوس سوداء / بيضاء"),
            1, None),
          InsightOption("inflamed", Localized("Inflamed bumps / pustules",
                          "حبوب ملتهبة"),
            3, None),
          InsightOption("nodules", Localized("Deep painful nodules",
                          "عُقَد مؤلمة عميقة"),
            5, Some(Localized("Painful deep nodules and early scarring benefit from earlier medical evaluation.",
                          "العُقَد المؤلمة العميقة وبدء الندبات قد تستدعي تقييمًا طبيًا مبكرًا.")))
          ]),
        InsightQuestion("marks",
          Localized("Do you notice marks or scarring?",
                    "هل توجد آثار أو ندبات؟"),
          None,
          [
          InsightOption("none", Localized("No",
                          "لا"),
            0, None),
          InsightOption("pigment", Localized("Post‑inflammatory marks",
                          "آثار تصبغ بعد الالتهاب"),
            2, None),
          InsightOption("scar", Localized("Scarring",
                          "ندبات"),
            5, Some(Localized("When scarring is developing, early structured treatment can reduce long‑term impact.",
                          "عند بدء الندبات، قد يقلّل التدخل المنظم مبكرًا من الأثر طويل المدى.")))
          ]),
        InsightQuestion("treat",
          Localized("What best describes prior treatment?",
                    "ما وصف العلاج السابق؟"),
          None,
          [
          InsightOption("none", Localized("None / minimal",
                          "لا يوجد / بسيط"),
            1, None),
          InsightOption("otc", Localized("Over‑the‑counter products",
                          "منتجات بدون وصفة"),
            2, None),
          InsightOption("rx", Localized("Prescription treatment in the past",
                          "علاج بوصفة سابقًا"),
            2, None)
          ])
      ],
      Rules(14, 9,
        TierText(Localized("Your answers suggest a more persistent or inflammatory acne pattern.", "تشير إجاباتك إلى نمط حب شباب أكثر استمرارية أو التهابيًا."),
          Localized("Your answers suggest acne that may benefit from a structured plan.", "تشير إجاباتك إلى حب شباب قد يستفيد من خطة علاج منظمة."),
          Localized("Your answers suggest a milder breakout pattern.", "تشير إجاباتك إلى نمط حبوب خفيف نسبيًا.")),
        Localized("Acne can behave like a chronic inflammatory condition. When lesions persist, become painful, or leave marks, intermittent product changes often underperform compared with structured medical planning.",
          "قد يتصرف حب الشباب كحالة التهابية مزمنة. عند استمرار الحبوب أو ألمها أو تركها آثارًا، غالبًا ما يكون النهج المنظم أكثر فعالية من تغيير المنتجات بشكل متكرر."),
        TieredSteps(["Keep routines simple: gentle cleanser, non‑comedogenic moisturizer, daily sunscreen.",
          "Avoid frequent “rotation” of active products when irritation is present."],
        ["اجعل الروتين بسيطًا: غسول لطيف، مرطب مناسب، واقي شمس يوميًا.",
          "تجنب تبديل العلاجات النشطة بشكل متكرر خاصة عند وجود تهيج."],
        Localized("If breakouts persist beyond 8–12 weeks, consider a professional evaluation.",
          "إذا استمرت الحبوب لأكثر من 8–12 أسبوعًا، فكّر في تقييم متخصص."),
        Localized("Consider a consultation for a structured plan and follow‑up.",
          "قد يفيد حجز استشارة لوضع خطة منظمة ومتابعة."))))

  /** `hairLoss` (hair-loss). */
  const HairLoss: InsightModule :=
    InsightModule(
      "hair-loss",
      Localized("Hair Loss Insight",
        "إرشادات تساقط الشعر"),
      Localized("A structured guide to understand common patterns and when evaluation is recommended.",
        "دليل منظم لفهم الأنماط الشائعة ومتى يُنصح بالتقييم."),
      [
        InsightQuestion("tempo",
          Localized("How did it start?",
                    "كيف بدأ التساقط؟"),
          None,
          [
          InsightOption("gradual", Localized("Gradual over months",
                          "تدريجي خلال أشهر"),
            2, None),
          InsightOption("sudden", Localized("Sudden increase in shedding",
                          "زيادة مفاجئة في التساقط"),
            3, None),
          InsightOption("patchy", Localized("Patchy / localized loss",
                          "فراغات موضعية"),
            5, Some(Localized("Patchy hair loss is a pattern that benefits from timely clinical evaluation.",
                          "الفراغات الموضعية نمط قد يستفيد من تقييم متخصص في وقت مبكر.")))
          ]),
        InsightQuestion("duration",
          Localized("How long has it been ongoing?",
                    "منذ متى؟"),
          None,
          [
          InsightOption("lt2", Localized("Less than 2 months",
                          "أقل من شهرين"),
            1, None),
          InsightOption("2to6", Localized("2–6 months",
                          "من شهرين إلى 6 أشهر"),
            3, None),
          InsightOption("gt6", Localized("More than 6 months",
                          "أكثر من 6 أشهر"),
            4, None)
          ]),
        InsightQuestion("symptoms",
          Localized("Any scalp symptoms?",
                    "هل توجد أعراض بفروة الرأس؟"),
          None,
          [
          InsightOption("none", Localized("No",
                          "لا"),
            0, None),
          InsightOption("itch", Localized("Itching / dandruff",
                          "حكة / قشرة"),
            2, None),
          InsightOption("pain", Localized("Pain / burning",
                          "ألم / حرقان"),
            4, Some(Localized("Pain or burning can signal inflammatory scalp conditions that warrant assessment.",
                          "الألم أو الحرقان قد يشير إلى التهاب بفروة الرأس ويستدعي تقييمًا.")))
          ]),
        InsightQuestion("context",
          Localized("Any recent trigger in the last 3–4 months?",
                    "هل حدث عامل مُحفّز خلال 3–4 أشهر؟"),
          Some(Localized("Examples: stress, illness, surgery, rapid weight change, postpartum.",
             "مثل: توتر شديد، مرض، عملية، تغير وزن سريع، بعد الولادة.")),
          [
          InsightOption("no", Localized("No / not sure",
                          "لا / غير متأكد"),
            1, None),
          InsightOption("yes", Localized("Yes",
                          "نعم"),
            2, None)
          ])
      ],
      Rules(12, 7,
        TierText(Localized("Your answers suggest a pattern that benefits from timely evaluation.", "تشير إجاباتك إلى نمط قد يستفيد من تقييم في وقت قريب."),
          Localized("Your answers suggest hair shedding that may benefit from structured assessment.", "تشير إجاباتك إلى تساقط قد يستفيد من تقييم منظم."),
          Localized("Your answers suggest a mild or early shedding pattern.", "تشير إجاباتك إلى نمط تساقط خفيف أو مبكر.")),
        Localized("Hair loss often reflects more than one factor. A structured approach focuses on pattern, timeline, scalp health, and medical context — then selects investigations or treatments only when appropriate.",
          "غالبًا ما ينتج تساقط الشعر عن أكثر من عامل. النهج المنظم يركز على النمط والزمن وصحة فروة الرأس والسياق الطبي، ثم يحدد الفحوصات أو العلاج عند الحاجة."),
        TieredSteps(["Avoid aggressive pulling, heat, or frequent harsh chemical treatments.",
          "Prioritize scalp health: manage dandruff/itch when present."],
        ["تجنب الشد القوي والحرارة والمواد الكيميائية القاسية بشكل متكرر.",
          "اهتم بصحة فروة الرأس وعلاج القشرة/الحكة عند وجودها."],
        Localized("If shedding persists beyond 8–12 weeks, consider evaluation.",
          "إذا استمر التساقط لأكثر من 8–12 أسبوعًا، فكّر في تقييم متخصص."),
        Localized("Consider a consultation for pattern assessment and tailored plan.",
          "قد يفيد حجز استشارة لتقييم النمط ووضع خطة مناسبة."))))

  /** `pigmentation` (pigmentation). */
  const Pigmentation: InsightModule :=
    InsightModule(
      "pigmentation",
      Localized("Pigmentation Insight",
        "إرشادات التصبغات"),
      Localized("Understand common pigmentation patterns and the role of sun protection and planning.",
        "فهم أنماط التصبغات الشائعة ودور واقي الشمس والخطة العلاجية."),
      [
        InsightQuestion("onset",
          Localized("How did the pigmentation start?",
                    "كيف بدأت التصبغات؟"),
          None,
          [
          InsightOption("gradual", Localized("Gradual",
                          "تدريجيًا"),
            2, None),
          InsightOption("afterInflamm", Localized("After acne/irritation",
                          "بعد حبوب/تهيج"),
            3, None),
          InsightOption("preg", Localized("During/after pregnancy or hormones",
                          "مع الحمل/الهرمونات"),
            3, None)
          ]),
        InsightQuestion("site",
          Localized("Where is it mainly located?",
                    "أين تتركز؟"),
          None,
          [
          InsightOption("face", Localized("Face",
                          "الوجه"),
            2, None),
          InsightOption("body", Localized("Body / exposed areas",
                          "الجسم / مناطق مكشوفة"),
            2, None),
          InsightOption("newMole", Localized("New changing spot / mole",
                          "بقعة/شامة جديدة تتغير"),
            6, Some(Localized("A new or changing pigmented lesion should be assessed clinically.",
                          "أي بقعة مصطبغة جديدة أو متغيرة يُنصح بتقييمها إكلينيكيًا.")))
          ]),
        InsightQuestion("sun",
          Localized("How consistent is sun protection?",
                    "ما مدى الالتزام بواقي الشمس؟"),
          None,
          [
          InsightOption("daily", Localized("Daily and re-applied",
                          "يوميًا مع إعادة"),
            0, None),
          InsightOption("sometimes", Localized("Sometimes",
                          "أحيانًا"),
            2, None),
          InsightOption("rare", Localized("Rarely",
                          "نادرًا"),
            4, None)
          ]),
        InsightQuestion("irritation",
          Localized("Do products cause irritation/burning?",
                    "هل تسبب المنتجات تهيجًا/حرقانًا؟"),
          None,
          [
          InsightOption("no", Localized("No",
                          "لا"),
            0, None),
          InsightOption("some", Localized("Occasionally",
                          "أحيانًا"),
            2, None),
          InsightOption("yes", Localized("Frequently",
                          "غالبًا"),
            3, None)
          ])
      ],
      Rules(12, 7,
        TierText(Localized("Your answers suggest pigmentation that benefits from professional evaluation.", "تشير إجاباتك إلى تصبغات قد تستفيد من تقييم متخصص."),
          Localized("Your answers suggest pigmentation that may benefit from a structured plan.", "تشير إجاباتك إلى تصبغات قد تستفيد من خطة منظمة."),
          Localized("Your answers suggest a mild pigmentation pattern.", "تشير إجاباتك إلى تصبغات خفيفة نسبيًا.")),
        Localized("Pigmentation improves best with consistency: sun protection, barrier-friendly routines, and stepwise treatment. Irritation can worsen pigmentation, so planning matters more than intensity.",
          "تتحسن التصبغات أكثر بالاستمرارية: واقي الشمس، روتين لطيف يحافظ على الحاجز، وعلاج تدريجي. التهيج قد يزيد التصبغ، لذا التخطيط أهم من الشدة."),
        TieredSteps(["Use broad-spectrum sunscreen daily and re-apply with outdoor exposure.",
          "Avoid aggressive actives if irritation occurs; support the skin barrier first."],
        ["استخدم واقي شمس واسع الطيف يوميًا وأعد وضعه عند التعرض للشمس.",
          "تجنب العلاجات القوية عند حدوث تهيج وابدأ بدعم حاجز الجلد."],
        Localized("If pigmentation persists or spreads, consider evaluation to tailor a plan.",
          "إذا استمر التصبغ أو زاد، قد يفيد التقييم لتحديد خطة."),
        Localized("Consider a consultation to confirm the pattern and build a stepwise plan.",
          "قد يفيد حجز استشارة لتأكيد النمط ووضع خطة تدريجية."))))

  /** `rosacea` (rosacea). */
  const Rosacea: InsightModule :=
    InsightModule(
      "rosacea",
      Localized("Rosacea & Redness Insight",
        "إرشادات الوردية والاحمرار"),
      Localized("A structured guide to understand facial redness, flushing triggers, and when evaluation helps.",
        "دليل منظم لفهم احمرار الوجه ومحفزات التورد ومتى يفيد التقييم المتخصص."),
      [
        InsightQuestion("pattern",
          Localized("What best describes the redness?",
                    "ما الوصف الأقرب للاحمرار؟"),
          None,
          [
          InsightOption("episodic", Localized("Comes and goes",
                          "يظهر ويختفي"),
            2, None),
          InsightOption("persistent", Localized("Persistent central facial redness",
                          "احمرار مستمر بمنتصف الوجه"),
            4, None),
          InsightOption("bumps", Localized("Redness with bumps/pustules",
                          "احمرار مع حبوب/بثور"),
            5, None)
          ]),
        InsightQuestion("triggers",
          Localized("Do common triggers make it worse?",
                    "هل تزيدها المحفزات الشائعة؟"),
          Some(Localized("Examples: heat, sun, spicy food, hot drinks, stress.",
             "مثل: الحرارة، الشمس، الأكل الحار، المشروبات الساخنة، التوتر.")),
          [
          InsightOption("no", Localized("Not clearly",
                          "ليس بوضوح"),
            1, None),
          InsightOption("some", Localized("Sometimes",
                          "أحيانًا"),
            2, None),
          InsightOption("yes", Localized("Yes, clearly",
                          "نعم بوضوح"),
            3, None)
          ]),
        InsightQuestion("sensitivity",
          Localized("How reactive is the skin?",
                    "ما مدى حساسية الجلد؟"),
          None,
          [
          InsightOption("mild", Localized("Mild sensitivity",
                          "حساسية بسيطة"),
            1, None),
          InsightOption("sting", Localized("Burning/stinging with products",
                          "حرقان/لسع مع المنتجات"),
            3, None),
          InsightOption("severe", Localized("Frequent irritation and flushing",
                          "تهيج وتورد متكرر"),
            4, None)
          ]),
        InsightQuestion("eyes",
          Localized("Any eye symptoms with it?",
                    "هل توجد أعراض بالعين مع الاحمرار؟"),
          None,
          [
          InsightOption("no", Localized("No",
                          "لا"),
            0, None),
          InsightOption("mild", Localized("Dry/gritty eyes",
                          "جفاف/إحساس بالرمل"),
            3, None),
          InsightOption("pain", Localized("Painful or very irritated eyes",
                          "ألم أو تهيج شديد بالعين"),
            6, Some(Localized("Eye irritation with facial redness can benefit from earlier medical assessment.",
                          "أعراض العين مع احمرار الوجه قد تستفيد من تقييم طبي مبكر.")))
          ])
      ],
      Rules(13, 8,
        TierText(Localized("Your answers suggest redness that may benefit from earlier evaluation.", "تشير إجاباتك إلى احمرار قد يستفيد من تقييم مبكر."),
          Localized("Your answers suggest a rosacea-like pattern that may benefit from a structured plan.", "تشير إجاباتك إلى نمط يشبه الوردية وقد يستفيد من خطة منظمة."),
          Localized("Your answers suggest a mild redness/flushing pattern.", "تشير إجاباتك إلى نمط احمرار/تورد خفيف.")),
        Localized("Facial redness is often trigger-sensitive. Consistent sun protection, gentle skincare, and identifying flushing triggers usually matter more than frequent product changes.",
          "غالبًا ما يكون احمرار الوجه حساسًا للمحفزات. واقي الشمس المنتظم، والروتين اللطيف، ومعرفة المحفزات أهم عادة من تبديل المنتجات بشكل متكرر."),
        TieredSteps(["Use gentle skincare and daily sunscreen; avoid harsh scrubs and frequent exfoliation.",
          "Track common triggers such as heat, sun, spicy food, and stress."],
        ["استخدم روتينًا لطيفًا وواقي شمس يوميًا وتجنب المقشرات القاسية.",
          "راقب المحفزات الشائعة مثل الحرارة والشمس والأكل الحار والتوتر."],
        Localized("If redness becomes persistent or develops bumps, consider evaluation.",
          "إذا أصبح الاحمرار مستمرًا أو ظهر معه حبوب، فكّر في تقييم متخصص."),
        Localized("Consider a consultation to confirm the pattern and tailor trigger-focused treatment.",
          "قد يفيد حجز استشارة لتأكيد النمط ووضع علاج مناسب للمحفزات."))))

  /** `eczema` (eczema). */
  const Eczema: InsightModule :=
    InsightModule(
      "eczema",
      Localized("Eczema Insight",
        "إرشادات الإكزيما"),
      Localized("A structured guide to itch, dryness, flare patterns, and when earlier review is useful.",
        "دليل منظم للحكة والجفاف ونمط النوبات ومتى تكون المراجعة المبكرة مفيدة."),
      [
        InsightQuestion("itch",
          Localized("How troublesome is the itch?",
                    "ما شدة الحكة؟"),
          None,
          [
          InsightOption("mild", Localized("Mild",
                          "بسيطة"),
            1, None),
          InsightOption("moderate", Localized("Moderate",
                          "متوسطة"),
            3, None),
          InsightOption("severe", Localized("Severe / disturbing sleep",
                          "شديدة / تؤثر على النوم"),
            5, None)
          ]),
        InsightQuestion("pattern",
          Localized("What best describes the rash?",
                    "ما الوصف الأقرب للطفح؟"),
          None,
          [
          InsightOption("dry", Localized("Dry, rough patches",
                          "بقع جافة وخشنة"),
            2, None),
          InsightOption("recurrent", Localized("Recurrent flares",
                          "نوبات متكررة"),
            3, None),
          InsightOption("oozing", Localized("Crusting/oozing areas",
                          "مناطق بها إفرازات/قشور"),
            6, Some(Localized("Oozing or crusted eczema can need earlier review to assess infection or stronger inflammation.",
                          "الإكزيما المصحوبة بإفرازات أو قشور قد تحتاج مراجعة مبكرة لتقييم العدوى أو شدة الالتهاب.")))
          ]),
        InsightQuestion("spread",
          Localized("How widespread is it?",
                    "ما مدى انتشارها؟"),
          None,
          [
          InsightOption("small", Localized("Small areas only",
                          "مناطق محدودة"),
            1, None),
          InsightOption("several", Localized("Several body areas",
                          "عدة مناطق بالجسم"),
            3, None),
          InsightOption("large", Localized("Large/widespread areas",
                          "مناطق واسعة/منتشرة"),
            5, None)
          ]),
        InsightQuestion("response",
          Localized("How has basic care worked so far?",
                    "كيف كانت الاستجابة للعناية الأساسية؟"),
          Some(Localized("Examples: moisturizer, fragrance avoidance, gentle cleansers.",
             "مثل: الترطيب، تجنب العطور، واستخدام غسول لطيف.")),
          [
          InsightOption("better", Localized("It improved",
                          "تحسنت"),
            1, None),
          InsightOption("partial", Localized("Only partial improvement",
                          "تحسن جزئي فقط"),
            3, None),
          InsightOption("none", Localized("Little or no improvement",
                          "تحسن بسيط جدًا أو لا يوجد"),
            4, None)
          ])
      ],
      Rules(14, 9,
        TierText(Localized("Your answers suggest eczema that may benefit from earlier medical review.", "تشير إجاباتك إلى إكزيما قد تستفيد من مراجعة طبية مبكرة."),
          Localized("Your answers suggest eczema that may benefit from a structured treatment plan.", "تشير إجاباتك إلى إكزيما قد تستفيد من خطة علاج منظمة."),
          Localized("Your answers suggest a mild eczema pattern.", "تشير إجاباتك إلى نمط إكزيما خفيف.")),
        Localized("Eczema control usually depends on barrier repair, trigger reduction, and timely treatment during flares. Recurrent or widespread disease often needs a more structured plan.",
          "يعتمد التحكم في الإكزيما غالبًا على إصلاح حاجز الجلد وتقليل المحفزات والعلاج المناسب أثناء النوبات. الحالات المتكررة أو الواسعة قد تحتاج خطة أكثر تنظيمًا."),
        TieredSteps(["Prioritize frequent moisturizer use and avoid fragranced or harsh products.",
          "Use lukewarm showers and reduce friction from scratching when possible."],
        ["اهتم باستخدام المرطب بانتظام وتجنب المنتجات المعطرة أو القاسية.",
          "استخدم ماءً فاترًا وقلل الاحتكاك الناتج عن الحك قدر الإمكان."],
        Localized("If flares become frequent or spread, consider evaluation.",
          "إذا أصبحت النوبات متكررة أو منتشرة، فكّر في تقييم متخصص."),
        Localized("Consider a consultation to confirm the trigger pattern and adjust treatment intensity.",
          "قد يفيد حجز استشارة لتحديد المحفزات وضبط شدة العلاج."))))

  /** `psoriasis` (psoriasis). */
  const Psoriasis: InsightModule :=
    InsightModule(
      "psoriasis",
      Localized("Psoriasis Insight",
        "إرشادات الصدفية"),
      Localized("A structured guide to plaque patterns, scalp/nail involvement, and when a broader plan is helpful.",
        "دليل منظم لأنماط اللويحات ومشاركة فروة الرأس أو الأظافر ومتى تكون الخطة الأوسع مفيدة."),
      [
        InsightQuestion("plaques",
          Localized("What best describes the skin changes?",
                    "ما الوصف الأقرب لتغيرات الجلد؟"),
          None,
          [
          InsightOption("small", Localized("Small dry plaques",
                          "لويحات صغيرة جافة"),
            2, None),
          InsightOption("thick", Localized("Thicker/scaly plaques",
                          "لويحات أكثر سماكة وتقشرًا"),
            4, None),
          InsightOption("widespread", Localized("Multiple or widespread plaques",
                          "لويحات متعددة أو واسعة"),
            5, None)
          ]),
        InsightQuestion("sites",
          Localized("Where is it affecting you most?",
                    "أين تؤثر أكثر؟"),
          None,
          [
          InsightOption("limited", Localized("Elbows/knees only",
                          "الأكواع/الركبتان فقط"),
            2, None),
          InsightOption("scalp", Localized("Scalp or face involvement",
                          "فروة الرأس أو الوجه"),
            4, None),
          InsightOption("nails", Localized("Nails and other areas too",
                          "الأظافر ومناطق أخرى أيضًا"),
            5, None)
          ]),
        InsightQuestion("joints",
          Localized("Any joint symptoms with the skin disease?",
                    "هل توجد أعراض بالمفاصل مع الجلد؟"),
          None,
          [
          InsightOption("no", Localized("No",
                          "لا"),
            0, None),
          InsightOption("some", Localized("Some stiffness/ache",
                          "تيبس/ألم بسيط"),
            4, None),
          InsightOption("clear", Localized("Clear swelling or morning stiffness",
                          "تورم واضح أو تيبس صباحي"),
            7, Some(Localized("Joint symptoms alongside psoriasis should be assessed clinically.",
                          "وجود أعراض بالمفاصل مع الصدفية يستدعي تقييمًا إكلينيكيًا.")))
          ]),
        InsightQuestion("control",
          Localized("How has it responded to treatment so far?",
                    "كيف كانت الاستجابة للعلاج حتى الآن؟"),
          None,
          [
          InsightOption("good", Localized("Usually controlled",
                          "غالبًا تحت السيطرة"),
            1, None),
          InsightOption("partial", Localized("Partial or short-lived control",
                          "تحكم جزئي أو مؤقت"),
            3, None),
          InsightOption("poor", Localized("Persistent despite treatment",
                          "مستمرة رغم العلاج"),
            5, None)
          ])
      ],
      Rules(15, 9,
        TierText(Localized("Your answers suggest psoriasis that may benefit from earlier review.", "تشير إجاباتك إلى صدفية قد تستفيد من مراجعة مبكرة."),
          Localized("Your answers suggest psoriasis that may benefit from a more structured plan.", "تشير إجاباتك إلى صدفية قد تستفيد من خطة أكثر تنظيمًا."),
          Localized("Your answers suggest a limited psoriasis pattern.", "تشير إجاباتك إلى نمط صدفية محدود.")),
        Localized("Psoriasis is usually managed as a chronic inflammatory condition. Extent, scalp or nail involvement, and joint symptoms all influence how intensive treatment needs to be.",
          "تُدار الصدفية عادة كحالة التهابية مزمنة. مدى الانتشار، ومشاركة فروة الرأس أو الأظافر، وأعراض المفاصل كلها تؤثر على شدة الخطة العلاجية."),
        TieredSteps(["Keep routines consistent and avoid picking or overly aggressive scrubbing of plaques.",
          "Note whether scalp, nails, or joints are affected, since that changes planning."],
        ["حافظ على روتين ثابت وتجنب العبث باللويحات أو فركها بعنف.",
          "سجل ما إذا كانت فروة الرأس أو الأظافر أو المفاصل متأثرة لأن ذلك يغير الخطة."],
        Localized("If plaques spread or recur frequently, consider evaluation.",
          "إذا انتشرت اللويحات أو تكررت كثيرًا، فكّر في تقييم متخصص."),
        Localized("Consider a consultation to assess extent and decide whether broader control is needed.",
          "قد يفيد حجز استشارة لتقييم مدى الحالة وتحديد الحاجة لخطة أوسع."))))

  /** `whenToConsult` (when-to-consult). */
  const WhenToConsult: InsightModule :=
    InsightModule(
      "when-to-consult",
      Localized("When to Consult",
        "متى أزور طبيب الجلدية؟"),
      Localized("A structured guide to help decide when professional evaluation is recommended.",
        "دليل منظم يساعد على تحديد متى يُنصح بزيارة طبيب الجلدية."),
      [
        InsightQuestion("duration",
          Localized("How long has the issue been present?",
                    "منذ متى توجد المشكلة؟"),
          None,
          [
          InsightOption("lt2w", Localized("Less than 2 weeks",
                          "أقل من أسبوعين"),
            1, None),
          InsightOption("2to8w", Localized("2–8 weeks",
                          "من أسبوعين إلى 8 أسابيع"),
            3, None),
          InsightOption("gt8w", Localized("More than 8 weeks",
                          "أكثر من 8 أسابيع"),
            4, None)
          ]),
        InsightQuestion("symptoms",
          Localized("Any of the following?",
                    "هل يوجد أي مما يلي؟"),
          Some(Localized("Rapid change, bleeding, severe pain, widespread rash, or fever.",
             "تغير سريع، نزف، ألم شديد، طفح منتشر، أو حرارة.")),
          [
          InsightOption("no", Localized("No",
                          "لا"),
            0, None),
          InsightOption("yes", Localized("Yes",
                          "نعم"),
            8, Some(Localized("If there is rapid change, bleeding, severe pain, widespread rash, or fever, seek prompt evaluation.",
                          "عند وجود تغير سريع أو نزف أو ألم شديد أو طفح منتشر أو حرارة، يُنصح بتقييم عاجل.")))
          ]),
        InsightQuestion("impact",
          Localized("How much does it affect daily life?",
                    "ما مدى تأثيرها على الحياة اليومية؟"),
          None,
          [
          InsightOption("low", Localized("Mild",
                          "بسيط"),
            1, None),
          InsightOption("mid", Localized("Moderate",
                          "متوسط"),
            2, None),
          InsightOption("high", Localized("High",
                          "شديد"),
            4, None)
          ])
      ],
      Rules(10, 6,
        TierText(Localized("Your answers suggest you should seek evaluation promptly.", "تشير إجاباتك إلى أن التقييم العاجل قد يكون مناسبًا."),
          Localized("Your answers suggest a consultation may be helpful.", "تشير إجاباتك إلى أن الاستشارة قد تكون مفيدة."),
          Localized("Your answers suggest monitoring may be reasonable.", "تشير إجاباتك إلى أن المتابعة قد تكون كافية.")),
        Localized("Many skin concerns improve with time and basic care. Persistent problems, rapid change, significant symptoms, or high impact on daily life are good reasons to seek professional evaluation.",
          "قد تتحسن كثير من مشكلات الجلد مع الوقت والرعاية الأساسية. لكن الاستمرار أو التغير السريع أو الأعراض الشديدة أو التأثير الكبير على الحياة اليومية هي أسباب وجيهة لطلب تقييم متخصص."),
        FixedSteps(LocalizedList(["If you notice rapid change, bleeding, or severe symptoms, seek prompt evaluation.",
          "If the issue persists beyond several weeks, a structured assessment can clarify the diagnosis.",
          "Bring photos (if changes fluctuate) and a list of products/medications used."],
        ["عند وجود تغير سريع أو نزف أو أعراض شديدة، يُنصح بتقييم عاجل.",
          "إذا استمرت المشكلة لعدة أسابيع، قد يفيد تقييم منظم لتوضيح التشخيص.",
          "أحضر صورًا (إن كانت الحالة تتغير) وقائمة بالمنتجات/الأدوية المستخدمة."]))))

  /** `insightModules`, in registry order. */
  function AllModules(): seq<InsightModule> {
    [Acne, HairLoss, Pigmentation, Rosacea, Eczema, Psoriasis, WhenToConsult]
  }

  function Slugs(ms: seq<InsightModule>): (r: seq<string>)
    ensures |r| == |ms| && forall k :: 0 <= k < |ms| ==> r[k] == ms[k].slug
  {
    if ms == [] then [] else [ms[0].slug] + Slugs(ms[1..])
  }

  /** `insightModules.find((m) => m.slug === slug)` over any list of modules. */
  function FindBySlug(ms: seq<InsightModule>, slug: string): (r: Option<InsightModule>)
    ensures r.Some? ==> r.value in ms && r.value.slug == slug
    ensures r.None? <==> slug !in Slugs(ms)
  {
    if ms == [] then None
    else if ms[0].slug == slug then Some(ms[0])
    else FindBySlug(ms[1..], slug)
  }

  /** `getInsightModule`. */
  function GetInsightModule(slug: string): (r: Option<InsightModule>)
    ensures r.Some? ==> r.value in AllModules() && r.value.slug == slug
    ensures r.None? <==> slug !in Slugs(AllModules())
  {
    FindBySlug(AllModules(), slug)
  }

  // ---- properties of the registry and of the evaluation ----

  /** The (high, mid) pair of each module; high lies above mid in every one. */
  lemma ModuleThresholds()
    ensures Acne.rules.high == 14 && Acne.rules.mid == 9
    ensures HairLoss.rules.high == 12 && HairLoss.rules.mid == 7
    ensures Pigmentation.rules.high == 12 && Pigmentation.rules.mid == 7
    ensures Rosacea.rules.high == 13 && Rosacea.rules.mid == 8
    ensures Eczema.rules.high == 14 && Eczema.rules.mid == 9
    ensures Psoriasis.rules.high == 15 && Psoriasis.rules.mid == 9
    ensures WhenToConsult.rules.high == 10 && WhenToConsult.rules.mid == 6
    ensures forall m :: m in AllModules() ==> m.rules.high > m.rules.mid
  {
  }

  /** A higher score never gives a lower tier. */
  lemma EvaluateMonotone(m: InsightModule, a1: Answers, a2: Answers, l1: I18n.Locale, l2: I18n.Locale)
    requires Score(m.questions, a1) <= Score(m.questions, a2)
    ensures Evaluate(m, a1, l1).level.Rank() <= Evaluate(m, a2, l2).level.Rank()
  {
  }

  /** The locale argument changes nothing in the result. */
  lemma EvaluateIgnoresLocale(m: InsightModule, answers: Answers)
    ensures Evaluate(m, answers, I18n.En) == Evaluate(m, answers, I18n.Ar)
  {
  }

  /** Every module but when-to-consult has three next steps per locale: the first two fixed,
      the third chosen only by whether the level is informational. */
  lemma TieredNextSteps(m: InsightModule, answers: Answers, locale: I18n.Locale)
    requires m in AllModules() && m != WhenToConsult
    ensures m.rules.nextSteps.TieredSteps?
    ensures var r := Evaluate(m, answers, locale);
      var rule := m.rules.nextSteps;
      |r.nextSteps.en| == 3 && |r.nextSteps.ar| == 3 &&
      r.nextSteps.en[..2] == rule.fixedEn && r.nextSteps.ar[..2] == rule.fixedAr &&
      (r.level == Informational ==>
         r.nextSteps.en[2] == rule.informationalTip.en && r.nextSteps.ar[2] == rule.informationalTip.ar) &&
      (r.level != Informational ==>
         r.nextSteps.en[2] == rule.consultTip.en && r.nextSteps.ar[2] == rule.consultTip.ar)
  {
    var rule := m.rules.nextSteps;
    assert rule.TieredSteps? && |rule.fixedEn| == 2 && |rule.fixedAr| == 2;
  }

  /** When-to-consult gives the same three steps whatever the answers. */
  lemma WhenToConsultStepsConstant(answers: Answers, locale: I18n.Locale)
    ensures Evaluate(WhenToConsult, answers, locale).nextSteps == WhenToConsult.rules.nextSteps.steps
    ensures |WhenToConsult.rules.nextSteps.steps.en| == 3 && |WhenToConsult.rules.nextSteps.steps.ar| == 3
  {
  }

  // One lemma per module keeps each proof to that module's own data.
  lemma AcneWeightsNonNegative() ensures NonNegativeWeights(Acne.questions) {}
  lemma HairLossWeightsNonNegative() ensures NonNegativeWeights(HairLoss.questions) {}
  lemma PigmentationWeightsNonNegative() ensures NonNegativeWeights(Pigmentation.questions) {}
  lemma RosaceaWeightsNonNegative() ensures NonNegativeWeights(Rosacea.questions) {}
  lemma EczemaWeightsNonNegative() ensures NonNegativeWeights(Eczema.questions) {}
  lemma PsoriasisWeightsNonNegative() ensures NonNegativeWeights(Psoriasis.questions) {}
  lemma WhenToConsultWeightsNonNegative() ensures NonNegativeWeights(WhenToConsult.questions) {}

  /** Every weight of every module is non-negative. */
  lemma WeightsNonNegative(m: InsightModule)
    requires m in AllModules()
    ensures NonNegativeWeights(m.questions)
  {
    if m == Acne {
      AcneWeightsNonNegative();
    } else if m == HairLoss {
      HairLossWeightsNonNegative();
    } else if m == Pigmentation {
      PigmentationWeightsNonNegative();
    } else if m == Rosacea {
      RosaceaWeightsNonNegative();
    } else if m == Eczema {
      EczemaWeightsNonNegative();
    } else if m == Psoriasis {
      PsoriasisWeightsNonNegative();
    } else {
      WhenToConsultWeightsNonNegative();
    }
  }

  /** So each module's score lies between 0 and the sum of its questions' largest weights,
      whatever the answers. */
  lemma ScoreInRange(m: InsightModule, answers: Answers)
    requires m in AllModules()
    ensures 0 <= Score(m.questions, answers) <= MaxScore(m.questions)
  {
    WeightsNonNegative(m);
    ScoreBounds(m.questions, answers);
  }

  /** The registry's slugs: seven, pairwise distinct. */
  lemma RegistrySlugs()
    ensures Slugs(AllModules()) ==
      ["acne", "hair-loss", "pigmentation", "rosacea", "eczema", "psoriasis", "when-to-consult"]
    ensures forall i, j :: 0 <= i < j < |AllModules()| ==> AllModules()[i].slug != AllModules()[j].slug
  {
  }

  /** In a list of distinct slugs, looking up the slug at position k finds the module there. */
  lemma {:induction false} FindBySlugAt(ms: seq<InsightModule>, k: nat)
    requires k < |ms|
    requires forall i, j :: 0 <= i < j < |ms| ==> ms[i].slug != ms[j].slug
    ensures FindBySlug(ms, ms[k].slug) == Some(ms[k])
  {
    if k > 0 {
      FindBySlugAt(ms[1..], k - 1);
    }
  }

  /** The lookup finds each module by its own slug, and nothing for any other string. */
  lemma LookupBySlug(slug: string)
    ensures GetInsightModule(slug).Some? <==>
      slug in ["acne", "hair-loss", "pigmentation", "rosacea", "eczema", "psoriasis", "when-to-consult"]
    ensures forall m :: m in AllModules() ==> GetInsightModule(m.slug) == Some(m)
    ensures GetInsightModule("unknown-condition") == None
  {
    RegistrySlugs();
    forall m | m in AllModules() ensures GetInsightModule(m.slug) == Some(m) {
      var k :| 0 <= k < |AllModules()| && AllModules()[k] == m;
      FindBySlugAt(AllModules(), k);
    }
  }

  /** Five chosen options: their weights and flags, one after the other. */
  lemma FivePicks(p0: InsightOption, p1: InsightOption, p2: InsightOption, p3: InsightOption, p4: InsightOption)
    ensures SumWeights([p0, p1, p2, p3, p4]) == p0.score + p1.score + p2.score + p3.score + p4.score
    ensures FlagsOf([p0, p1, p2, p3, p4]) ==
      FlagsOf([p0]) + (FlagsOf([p1]) + (FlagsOf([p2]) + (FlagsOf([p3]) + FlagsOf([p4]))))
  {
    var s4 := [p4];
    var s3 := [p3] + s4;
    var s2 := [p2] + s3;
    var s1 := [p1] + s2;
    SumWeightsCons(p3, s4);
    SumWeightsCons(p2, s3);
    SumWeightsCons(p1, s2);
    SumWeightsCons(p0, s1);
    assert SumWeights(s4) == p4.score by { SumWeightsCons(p4, []); assert [p4] + [] == s4; }
    assert [p0] + s1 == [p0, p1, p2, p3, p4];
  }

  function AcneHighAnswers(): Answers {
    map["duration" := "gt12", "location" := "jaw", "type" := "nodules", "marks" := "scar", "treat" := "rx"]
  }

  function AcneLowAnswers(): Answers {
    map["duration" := "lt3", "location" := "forehead", "type" := "comedones", "marks" := "none", "treat" := "none"]
  }

  lemma AcneHighSelections()
    ensures |Acne.questions| == 5
    ensures Selected(Acne.questions[0], AcneHighAnswers()) == Some(Acne.questions[0].options[2])
    ensures Selected(Acne.questions[1], AcneHighAnswers()) == Some(Acne.questions[1].options[2])
    ensures Selected(Acne.questions[2], AcneHighAnswers()) == Some(Acne.questions[2].options[2])
    ensures Selected(Acne.questions[3], AcneHighAnswers()) == Some(Acne.questions[3].options[2])
    ensures Selected(Acne.questions[4], AcneHighAnswers()) == Some(Acne.questions[4].options[2])
  {
  }

  lemma AcneLowSelections()
    ensures |Acne.questions| == 5
    ensures Selected(Acne.questions[0], AcneLowAnswers()) == Some(Acne.questions[0].options[0])
    ensures Selected(Acne.questions[1], AcneLowAnswers()) == Some(Acne.questions[1].options[0])
    ensures Selected(Acne.questions[2], AcneLowAnswers()) == Some(Acne.questions[2].options[0])
    ensures Selected(Acne.questions[3], AcneLowAnswers()) == Some(Acne.questions[3].options[0])
    ensures Selected(Acne.questions[4], AcneLowAnswers()) == Some(Acne.questions[4].options[0])
  {
  }

  lemma AcneHighScore()
    ensures Score(Acne.questions, AcneHighAnswers()) == 19
    ensures SelectedFlags(Acne.questions, AcneHighAnswers()) ==
      [Acne.questions[2].options[2].redFlag.value, Acne.questions[3].options[2].redFlag.value]
  {
    var qs := Acne.questions;
    var a := AcneHighAnswers();
    var picks := [qs[0].options[2], qs[1].options[2], qs[2].options[2], qs[3].options[2], qs[4].options[2]];
    AcneHighSelections();
    forall i | 0 <= i < |qs| ensures Selected(qs[i], a) == Some(picks[i]) {
    }
    ScoreOfSelected(qs, a, picks);
    FivePicks(picks[0], picks[1], picks[2], picks[3], picks[4]);
  }

  /** The acne end-to-end case at the high end: 4 + 3 + 5 + 5 + 2 = 19, priority, and the flags
      of "nodules" and "scar" in that order. */
  lemma AcneHighEnd(locale: I18n.Locale)
    ensures var r := Evaluate(Acne, AcneHighAnswers(), locale);
      r.score == 19 && r.level == Priority && r.summary == Acne.rules.summary.priority &&
      r.redFlags == Some(LocalizedList(
        [Acne.questions[2].options[2].redFlag.value.en, Acne.questions[3].options[2].redFlag.value.en],
        [Acne.questions[2].options[2].redFlag.value.ar, Acne.questions[3].options[2].redFlag.value.ar]))
  {
    AcneHighScore();
    var f := RedFlags(Acne.questions, AcneHighAnswers());
    var nodules := Acne.questions[2].options[2].redFlag.value;
    var scar := Acne.questions[3].options[2].redFlag.value;
    assert f.en == [nodules.en, scar.en];
    assert f.ar == [nodules.ar, scar.ar];
  }

  /** The acne end-to-end case at the low end: 1 + 1 + 1 + 0 + 1 = 4, informational, and no
      `redFlags` field. */
  lemma AcneLowEnd(locale: I18n.Locale)
    ensures var r := Evaluate(Acne, AcneLowAnswers(), locale);
      r.score == 4 && r.level == Informational && r.redFlags == None
  {
    var qs := Acne.questions;
    var a := AcneLowAnswers();
    var picks := [qs[0].options[0], qs[1].options[0], qs[2].options[0], qs[3].options[0], qs[4].options[0]];
    AcneLowSelections();
    forall i | 0 <= i < |qs| ensures Selected(qs[i], a) == Some(picks[i]) {
    }
    ScoreOfSelected(qs, a, picks);
    FivePicks(picks[0], picks[1], picks[2], picks[3], picks[4]);
  }

  /** Three chosen options: their weights, one after the other. */
  lemma ThreePicks(p0: InsightOption, p1: InsightOption, p2: InsightOption)
    ensures SumWeights([p0, p1, p2]) == p0.score + p1.score + p2.score
  {
    SumWeightsCons(p2, []);
    SumWeightsCons(p1, [p2]);
    SumWeightsCons(p0, [p1, p2]);
    assert [p2] + [] == [p2];
    assert [p1] + [p2] == [p1, p2];
    assert [p0] + [p1, p2] == [p0, p1, p2];
  }

  lemma WhenToConsultShape()
    ensures |WhenToConsult.questions| == 3 && WhenToConsult.questions[1].id == "symptoms"
    ensures forall o :: o in WhenToConsult.questions[0].options ==> o.score >= 1
    ensures forall o :: o in WhenToConsult.questions[1].options && o.id == "yes" ==> o.score == 8
    ensures forall o :: o in WhenToConsult.questions[2].options ==> o.score >= 1
  {
  }

  /** In when-to-consult a complete answer set with symptoms = yes is always priority: the
      lowest such score is 1 + 8 + 1 = 10, the high threshold. */
  lemma WhenToConsultSymptomsArePriority(answers: Answers, locale: I18n.Locale)
    requires Complete(WhenToConsult.questions, answers)
    requires "symptoms" in answers && answers["symptoms"] == "yes"
    ensures Evaluate(WhenToConsult, answers, locale).level == Priority
  {
    var qs := WhenToConsult.questions;
    WhenToConsultShape();
    assert qs[0] in qs && qs[1] in qs && qs[2] in qs;
    var picks := [Selected(qs[0], answers).value, Selected(qs[1], answers).value, Selected(qs[2], answers).value];
    ScoreOfSelected(qs, answers, picks);
    ThreePicks(picks[0], picks[1], picks[2]);
  }
}
