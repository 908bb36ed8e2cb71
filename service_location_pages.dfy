/** lib/serviceLocationPages.ts: the landing pages for each treated condition in the
    clinic's city, looked up by slug. */
module ServiceLocationPages {
  import opened Wrappers
  import opened InsightTypes

  /** `SERVICE_LOCATION_SLUGS`. */
  const ServiceLocationSlugs: seq<string> := ["acne", "hair-loss", "pigmentation", "psoriasis"]

  /** One question of a page's FAQ. */
  datatype Faq = Faq(q: string, a: string)

  /** A `Record<Locale, Array<{ q, a }>>`. */
  datatype LocalizedFaq = LocalizedFaq(en: seq<Faq>, ar: seq<Faq>)

  /** `ServiceLocationPage`: every text is given in both locales. */
  datatype ServiceLocationPage = ServiceLocationPage(
    slug: string,
    condition: Localized,
    title: Localized,
    metaDescription: Localized,
    intro: Localized,
    whoForTitle: Localized,
    whoForPoints: LocalizedList,
    approachTitle: Localized,
    approachPoints: LocalizedList,
    faqTitle: Localized,
    faq: LocalizedFaq)

  const AcnePage := ServiceLocationPage(
    "acne",
    Localized("Acne", "حب الشباب"),
    Localized("Acne Care | Dr Islam El Helou Clinic Alexandria", "رعاية حب الشباب | عيادة د. إسلام الحلو - الإسكندرية"),
    Localized("Structured acne evaluation and treatment at Dr Islam El Helou Clinic Alexandria, focused on inflammation control, marks prevention, and long-term maintenance.", "تقييم وعلاج منظم لحب الشباب في عيادة د. إسلام الحلو بالإسكندرية، مع التركيز على التحكم بالالتهاب، تقليل الآثار، وخطة متابعة طويلة المدى."),
    Localized("Acne is more than occasional breakouts. At Dr Islam El Helou Clinic Alexandria, we assess pattern, trigger profile, and skin tolerance before selecting treatment.", "حب الشباب ليس مجرد حبوب عابرة. في عيادة د. إسلام الحلو بالإسكندرية، نقيم النمط والمحفزات وتحمل البشرة قبل اختيار الخطة العلاجية."),
    Localized("Who this service is for", "لمن تناسب هذه الخدمة"),
    LocalizedList(
      ["Persistent acne beyond 8-12 weeks despite products",
       "Painful inflammatory lesions or recurrent flares",
       "Post-acne marks or early scar concerns"],
      ["حب شباب مستمر لأكثر من 8-12 أسبوعًا رغم المنتجات",
       "حبوب ملتهبة مؤلمة أو نوبات متكررة",
       "آثار ما بعد الحبوب أو بداية ندبات"]),
    Localized("How we approach acne care", "كيف نتعامل مع علاج حب الشباب"),
    LocalizedList(
      ["Diagnosis-first visit: lesion type, severity, and contributing factors",
       "Barrier-safe routine design with practical adherence",
       "Stepwise escalation with follow-up to reduce relapse"],
      ["زيارة تبدأ بالتشخيص: نوع الحبوب وشدتها والعوامل المساهمة",
       "تصميم روتين علاجي عملي يحافظ على حاجز البشرة",
       "تصعيد تدريجي للعلاج مع متابعة لتقليل تكرار النوبات"]),
    Localized("Common acne questions", "أسئلة شائعة عن حب الشباب"),
    LocalizedFaq(
      [Faq("How long until acne treatment starts working?",
           "Most plans need consistent use for several weeks before meaningful improvement appears."),
       Faq("Can acne scars be prevented?",
           "Early control of deep inflammation usually lowers scar risk, especially with structured follow-up.")],
      [Faq("متى تظهر نتيجة علاج حب الشباب؟",
           "غالبًا تحتاج الخطة العلاجية لعدة أسابيع من الالتزام قبل ظهور تحسن واضح."),
       Faq("هل يمكن تقليل احتمالية الندبات؟",
           "التحكم المبكر في الالتهاب العميق يقلل عادة خطر الندبات مع متابعة منظمة.")]))

  const HairLossPage := ServiceLocationPage(
    "hair-loss",
    Localized("Hair Loss", "تساقط الشعر"),
    Localized("Hair Loss Evaluation | Dr Islam El Helou Clinic Alexandria", "تقييم تساقط الشعر | عيادة د. إسلام الحلو - الإسكندرية"),
    Localized("Diagnosis-focused hair loss assessment at Dr Islam El Helou Clinic Alexandria to identify shedding pattern, scalp factors, and targeted treatment options.", "تقييم تشخيصي لتساقط الشعر في عيادة د. إسلام الحلو بالإسكندرية لتحديد النمط، عوامل فروة الرأس، وخيارات العلاج المناسبة."),
    Localized("Not all hair loss is the same. In Alexandria, our clinic uses pattern-based evaluation to separate reversible shedding from chronic causes.", "ليس كل تساقط الشعر متشابهًا. في عيادتنا بالإسكندرية نعتمد تقييمًا نمطيًا يميز بين التساقط المؤقت والأسباب المزمنة."),
    Localized("Who this service is for", "لمن تناسب هذه الخدمة"),
    LocalizedList(
      ["Sudden increase in daily shedding",
       "Progressive thinning at crown or frontal scalp",
       "Patchy loss or scalp irritation"],
      ["زيادة مفاجئة في معدل التساقط اليومي",
       "ترقق تدريجي بمقدمة الرأس أو القمة",
       "فراغات موضعية أو أعراض التهابية بفروة الرأس"]),
    Localized("How we approach hair loss care", "كيف نتعامل مع تساقط الشعر"),
    LocalizedList(
      ["History and scalp-focused clinical examination",
       "Selective investigations only when clinically indicated",
       "Pattern-specific treatment and realistic timeline planning"],
      ["تاريخ مرضي وفحص دقيق لفروة الرأس",
       "فحوصات انتقائية عند الحاجة الطبية فقط",
       "خطة علاج حسب النمط مع جدول زمني واقعي للتحسن"]),
    Localized("Common hair loss questions", "أسئلة شائعة عن تساقط الشعر"),
    LocalizedFaq(
      [Faq("Do all patients need lab tests?",
           "No. Tests are selected case-by-case after clinical assessment."),
       Faq("When should I seek early review?",
           "Patchy loss, painful scalp symptoms, or rapidly worsening shedding should be evaluated early.")],
      [Faq("هل يحتاج كل مريض إلى تحاليل؟",
           "لا. يتم تحديد الفحوصات حسب كل حالة بعد التقييم الإكلينيكي."),
       Faq("متى يفضل التقييم المبكر؟",
           "عند ظهور فراغات موضعية أو ألم بفروة الرأس أو تساقط سريع متزايد.")]))

  const PigmentationPage := ServiceLocationPage(
    "pigmentation",
    Localized("Pigmentation", "التصبغات"),
    Localized("Pigmentation & Melasma Care | Dr Islam El Helou Clinic Alexandria", "رعاية التصبغات والكلف | عيادة د. إسلام الحلو - الإسكندرية"),
    Localized("Clinical pigmentation and melasma management at Dr Islam El Helou Clinic Alexandria with sun-protection strategy, barrier-safe routines, and stepwise treatment.", "خطة علاجية للتصبغات والكلف في عيادة د. إسلام الحلو بالإسكندرية تشمل استراتيجية واقي الشمس، روتينًا لطيفًا، وعلاجًا تدريجيًا."),
    Localized("Pigmentation often recurs when triggers are not controlled. Our approach at Dr Islam El Helou Clinic Alexandria prioritizes consistency over aggressive short cycles.", "التصبغات كثيرًا ما تعود عند استمرار المحفزات. نهجنا في عيادة د. إسلام الحلو بالإسكندرية يركز على الاستمرارية بدل الحلول السريعة العنيفة."),
    Localized("Who this service is for", "لمن تناسب هذه الخدمة"),
    LocalizedList(
      ["Facial melasma or recurrent dark patches",
       "Post-inflammatory marks after acne or irritation",
       "Pigmentation worsened by sun exposure"],
      ["كلف أو بقع داكنة متكررة بالوجه",
       "آثار تصبغ بعد الحبوب أو التهيج",
       "تصبغات تزداد مع التعرض للشمس"]),
    Localized("How we approach pigmentation care", "كيف نتعامل مع علاج التصبغات"),
    LocalizedList(
      ["Pattern confirmation and trigger mapping",
       "Sun-protection protocol and barrier-first support",
       "Stepwise actives with close irritation control"],
      ["تأكيد النمط وتحديد المحفزات",
       "بروتوكول واقي الشمس ودعم حاجز البشرة أولًا",
       "علاجات تدريجية مع التحكم الدقيق في التهيج"]),
    Localized("Common pigmentation questions", "أسئلة شائعة عن التصبغات"),
    LocalizedFaq(
      [Faq("Why does melasma come back?",
           "Because sunlight, hormones, and irritation can reactivate pigment pathways even after initial improvement."),
       Faq("Is stronger always better?",
           "No. Over-irritation can worsen pigmentation, so treatment intensity must match skin tolerance.")],
      [Faq("لماذا يعود الكلف بعد التحسن؟",
           "لأن الشمس والهرمونات والتهيج قد تعيد تنشيط التصبغ حتى بعد تحسن أولي."),
       Faq("هل العلاج الأقوى دائمًا أفضل؟",
           "لا. التهيج الزائد قد يزيد التصبغ، لذلك يجب أن تتناسب شدة العلاج مع تحمل البشرة.")]))

  const PsoriasisPage := ServiceLocationPage(
    "psoriasis",
    Localized("Psoriasis", "الصدفية"),
    Localized("Psoriasis Management | Dr Islam El Helou Clinic Alexandria", "إدارة الصدفية | عيادة د. إسلام الحلو - الإسكندرية"),
    Localized("Structured psoriasis management at Dr Islam El Helou Clinic Alexandria, including scalp and nail involvement, flare control, and long-term treatment planning.", "إدارة منظمة للصدفية في عيادة د. إسلام الحلو بالإسكندرية تشمل فروة الرأس والأظافر، التحكم في النوبات، وخطة طويلة المدى."),
    Localized("Psoriasis is a chronic inflammatory condition that needs ongoing strategy. Our Alexandria clinic focuses on practical control and relapse prevention.", "الصدفية حالة التهابية مزمنة تحتاج استراتيجية مستمرة. تركز عيادتنا بالإسكندرية على التحكم العملي وتقليل تكرار النوبات."),
    Localized("Who this service is for", "لمن تناسب هذه الخدمة"),
    LocalizedList(
      ["Recurrent plaques despite basic topical care",
       "Scalp or nail psoriasis affecting quality of life",
       "Frequent flares needing structured follow-up"],
      ["لويحات متكررة رغم العناية الموضعية الأساسية",
       "صدفية فروة الرأس أو الأظافر المؤثرة على الحياة اليومية",
       "نوبات متكررة تحتاج متابعة وعلاجًا منظمًا"]),
    Localized("How we approach psoriasis care", "كيف نتعامل مع الصدفية"),
    LocalizedList(
      ["Assess extent, sensitive sites, and flare pattern",
       "Match treatment intensity to disease burden",
       "Long-term monitoring to maintain control"],
      ["تقييم مدى الانتشار والمناطق الحساسة ونمط النوبات",
       "تحديد شدة العلاج حسب عبء الحالة",
       "متابعة طويلة المدى للحفاظ على الاستقرار"]),
    Localized("Common psoriasis questions", "أسئلة شائعة عن الصدفية"),
    LocalizedFaq(
      [Faq("Can psoriasis be cured permanently?",
           "Psoriasis is usually managed as a chronic condition, but good control and long remission are achievable."),
       Faq("Do scalp and nail symptoms matter?",
           "Yes. They often affect treatment choice and should be addressed as part of the full plan.")],
      [Faq("هل يمكن الشفاء النهائي من الصدفية؟",
           "غالبًا تُدار الصدفية كحالة مزمنة، لكن يمكن تحقيق تحكم جيد وفترات هدوء طويلة."),
       Faq("هل صدفية فروة الرأس أو الأظافر مهمة؟",
           "نعم. غالبًا تؤثر على اختيار العلاج ويجب التعامل معها ضمن الخطة الكاملة.")]))

  /** The `pages` table. */
  const Pages: seq<ServiceLocationPage> := [AcnePage, HairLossPage, PigmentationPage, PsoriasisPage]

  function Slugs(ps: seq<ServiceLocationPage>): (r: seq<string>)
    ensures |r| == |ps|
    ensures forall k :: 0 <= k < |ps| ==> r[k] == ps[k].slug
  {
    if ps == [] then [] else [ps[0].slug] + Slugs(ps[1..])
  }

  predicate Distinct(xs: seq<string>) {
    forall i, j :: 0 <= i < j < |xs| ==> xs[i] != xs[j]
  }

  /** The table holds one page per slug of `SERVICE_LOCATION_SLUGS`, in that order. */
  lemma PagesFollowSlugs()
    ensures Slugs(Pages) == ServiceLocationSlugs
    ensures Distinct(Slugs(Pages))
  {
    assert Slugs(Pages) == ServiceLocationSlugs;
  }

  /** The position of the first page with that slug; `|ps|` when there is none. */
  function SlugIndex(ps: seq<ServiceLocationPage>, slug: string): (k: nat)
    ensures k <= |ps|
    ensures forall j :: 0 <= j < k ==> ps[j].slug != slug
    ensures k < |ps| ==> ps[k].slug == slug
  {
    if ps == [] then 0
    else if ps[0].slug == slug then 0
    else 1 + SlugIndex(ps[1..], slug)
  }

  /** `pages.find((p) => p.slug === slug)`: the first page with that slug. */
  function FindBySlug(ps: seq<ServiceLocationPage>, slug: string): (r: Option<ServiceLocationPage>)
    ensures r.None? <==> slug !in Slugs(ps)
    ensures r.Some? ==> r.value.slug == slug && r.value in ps
    ensures r.Some? ==> SlugIndex(ps, slug) < |ps| && r.value == ps[SlugIndex(ps, slug)]
  {
    if ps == [] then None
    else if ps[0].slug == slug then Some(ps[0])
    else
      assert Slugs(ps) == [ps[0].slug] + Slugs(ps[1..]);
      FindBySlug(ps[1..], slug)
  }

  /** `getServiceLocationPage(slug)`: the page for one of the four slugs, nothing for any
      other string. */
  function GetServiceLocationPage(slug: string): (r: Option<ServiceLocationPage>)
    ensures r.Some? <==> slug in ServiceLocationSlugs
    ensures r.Some? ==> r.value.slug == slug && r.value in Pages
  {
    PagesFollowSlugs();
    FindBySlug(Pages, slug)
  }

  /** A condition the insight tool covers but no landing page does. */
  lemma RosaceaHasNoPage()
    ensures GetServiceLocationPage("rosacea").None?
  {
  }

  /** Looking up a page's own slug finds that page: the slugs are unique. */
  lemma GetFindsEachPage(k: nat)
    requires k < |Pages|
    ensures GetServiceLocationPage(Pages[k].slug) == Some(Pages[k])
  {
    PagesFollowSlugs();
  }

  /** `getAllServiceLocationPages()`: the four pages in table order. */
  function GetAllServiceLocationPages(): (r: seq<ServiceLocationPage>)
    ensures Slugs(r) == ServiceLocationSlugs
    ensures forall s :: s in ServiceLocationSlugs ==> GetServiceLocationPage(s).value in r
  {
    PagesFollowSlugs();
    Pages
  }

  predicate Filled(t: Localized) {
    t.en != "" && t.ar != ""
  }

  /** Both locales carry the same number of items, none of them empty. */
  predicate FilledList(l: LocalizedList) {
    && |l.en| == |l.ar| && |l.en| > 0
    && (forall k :: 0 <= k < |l.en| ==> l.en[k] != "")
    && (forall k :: 0 <= k < |l.ar| ==> l.ar[k] != "")
  }

  predicate FilledFaq(f: LocalizedFaq) {
    && |f.en| == |f.ar| && |f.en| > 0
    && (forall k :: 0 <= k < |f.en| ==> f.en[k].q != "" && f.en[k].a != "")
    && (forall k :: 0 <= k < |f.ar| ==> f.ar[k].q != "" && f.ar[k].a != "")
  }

  /** A page whose every text exists in English and in Arabic. */
  predicate Complete(p: ServiceLocationPage) {
    && Filled(p.condition) && Filled(p.title) && Filled(p.metaDescription) && Filled(p.intro)
    && Filled(p.whoForTitle) && FilledList(p.whoForPoints)
    && Filled(p.approachTitle) && FilledList(p.approachPoints)
    && Filled(p.faqTitle) && FilledFaq(p.faq)
  }

  lemma AcneComplete() ensures Complete(AcnePage) {
    assert FilledFaq(AcnePage.faq);
  }

  lemma HairLossComplete() ensures Complete(HairLossPage) {
    assert FilledFaq(HairLossPage.faq);
  }

  lemma PigmentationComplete() ensures Complete(PigmentationPage) {
    assert FilledFaq(PigmentationPage.faq);
  }

  lemma PsoriasisComplete() ensures Complete(PsoriasisPage) {
    assert FilledFaq(PsoriasisPage.faq);
  }

  /** Every page of the table is complete in both locales. */
  lemma PagesComplete()
    ensures forall p :: p in Pages ==> Complete(p)
  {
    AcneComplete();
    HairLossComplete();
    PigmentationComplete();
    PsoriasisComplete();
  }
}
