// The first chatbot: its own profile and table copies, a main query built
// from the raw input, an unfiltered sub-query list, a single model call, and
// the fallback and error capsules it falls back on.

module LegacyChatbot {
  import opened Common
  import opened StressTypes
  import opened Models
  import opened Fusion
  import opened LegacyVectorDb
  import opened Chatbot

  /** The user profile of the first version: no survey features. */
  datatype LegacyUserProfile = LegacyUserProfile(
    nickname: string,
    age: int,
    gender: string,
    occupation: string,
    stressType: StressType,
    personalKeywords: seq<string>,
    msi: real,
    psi: real,
    phq9Score: Option<int>,
    gad7Score: Option<int>,
    koss24Score: Option<int>)
  {
    /** get_age_group, the same six buckets as the current profile. */
    function AgeGroup(): string
    {
      AgeGroupLabel(AgeBand(age))
    }
  }

  /** The six buckets split at 20, 30, 40, 50 and 60, each age in exactly one. */
  lemma LegacyAgeGroupBuckets(p: LegacyUserProfile)
    ensures p.AgeGroup() == "10대" <==> p.age < 20
    ensures p.AgeGroup() == "20대" <==> 20 <= p.age < 30
    ensures p.AgeGroup() == "30대" <==> 30 <= p.age < 40
    ensures p.AgeGroup() == "40대" <==> 40 <= p.age < 50
    ensures p.AgeGroup() == "50대" <==> 50 <= p.age < 60
    ensures p.AgeGroup() == "60대 이상" <==> 60 <= p.age
  {
    var b := AgeBand(p.age);
    forall c: nat | c <= 5 && c != b
      ensures AgeGroupLabel(c) != AgeGroupLabel(b)
    {
      AgeGroupLabelsDistinct(c, b);
    }
    assert AgeGroupLabel(0) == "10대" && AgeGroupLabel(1) == "20대" && AgeGroupLabel(2) == "30대";
    assert AgeGroupLabel(3) == "40대" && AgeGroupLabel(4) == "50대" && AgeGroupLabel(5) == "60대 이상";
  }

  /** The first version's profiles: only the MBSR, PPT and ACT methods occur. */
  const LegacyStressTypeProfiles: map<StressType, StressTypeProfile> := map[
    XXX := StressTypeProfile("🦥", [MBSR]),
    OXX := StressTypeProfile("🐻", [PPT, MBSR]),
    XOX := StressTypeProfile("🐰", [MBSR, ACT]),
    XXO := StressTypeProfile("🦔", [ACT, MBSR]),
    OOX := StressTypeProfile("🦌", [PPT, ACT]),
    OXO := StressTypeProfile("🦫", [PPT, ACT]),
    XOO := StressTypeProfile("🐿️", [MBSR, ACT]),
    OOO := StressTypeProfile("🦊", [ACT, PPT])
  ]

  /** Every stress type has a profile, so the fallback's lookup never yields `None`; each uses one or two of the three methods. */
  lemma LegacyProfilesCoverEveryType(t: StressType)
    ensures t in LegacyStressTypeProfiles
    ensures 1 <= |LegacyStressTypeProfiles[t].therapyMethods| <= 2
    ensures forall m :: m in LegacyStressTypeProfiles[t].therapyMethods ==> m == MBSR || m == PPT || m == ACT
    ensures LegacyStressTypeProfiles[t].emoji != ""
  {
  }

  /** The first version's occupation table: 25 numbered keys, then the same categories unnumbered. */
  const NumberedOccupationKeywords: seq<(string, seq<string>)> := [
      ("01. 경영·회계·사무", ["업무과부하", "회계처리", "사무업무", "관리스트레스", "보고서작성", "회의"]),
      ("02. 금융·보험", ["리스크관리", "고객상담", "실적압박", "규제준수", "금융상품", "투자압박"]),
      ("03. 교육·자연과학·사회과학", ["학습부진", "학부모갈등", "업무과부하", "평가스트레스", "행정업무", "학생지도", "연구"]),
      ("04. 법률·경찰·소방·교도·국방", ["치안유지", "법률해석", "공공안전", "위험상황", "순찰", "사법업무"]),
      ("05. 보건·의료", ["번아웃", "감정노동", "환자안전", "야근", "의료사고", "업무과부하", "응급상황"]),
      ("06. 사회복지·종교", ["감정노동", "상담업무", "복지서비스", "봉사활동", "사례관리", "클라이언트"]),
      ("07. 문화·예술·디자인·방송", ["창작스트레스", "작품활동", "경제적불안", "작품평가", "창작슬럼프", "시청률"]),
      ("08. 운동", ["체력관리", "경기스트레스", "부상위험", "성과압박", "훈련", "시합"]),
      ("09. 여행·레저", ["고객서비스", "성수기", "관광안내", "레저활동", "계절업무", "서비스"]),
      ("10. 숙박·음식", ["고객응대", "서비스", "주방업무", "위생관리", "주말근무", "감정노동"]),
      ("11. 미용·예식", ["고객만족", "서비스업", "미용기술", "예식준비", "감정노동", "트렌드"]),
      ("12. 비서·사무보조", ["업무지원", "스케줄관리", "사무업무", "업무보조", "문서작업", "일정관리"]),
      ("13. 농림어업", ["날씨영향", "계절성", "농작물관리", "어업활동", "환경변화", "수확"]),
      ("14. 식품가공", ["위생관리", "품질관리", "생산라인", "식품안전", "제조업무", "공정관리"]),
      ("15. 섬유·의복", ["패션트렌드", "제조업무", "품질관리", "의복제작", "소재관리", "디자인"]),
      ("16. 재료", ["품질관리", "소재개발", "재료과학", "제조공정", "기술개발", "연구개발"]),
      ("17. 화학", ["화학물질", "안전관리", "실험", "연구개발", "품질관리", "환경관리"]),
      ("18. 전기·전자", ["회로설계", "전자기기", "기술개발", "품질관리", "전기안전", "유지보수"]),
      ("19. 정보통신", ["야근", "데드라인", "기술변화", "프로젝트", "버그", "개발스트레스", "코딩", "IT"]),
      ("20. 기계", ["기계설계", "제조업", "유지보수", "기술개발", "안전관리", "생산성"]),
      ("21. 금속·재료", ["금속가공", "용접", "안전관리", "품질관리", "재료공학", "제조"]),
      ("22. 건설", ["건설현장", "안전사고", "프로젝트", "공기단축", "건설관리", "현장작업"]),
      ("23. 환경·에너지·안전", ["환경보호", "안전관리", "에너지", "환경정책", "안전점검", "위험관리"]),
      ("24. 인쇄·목재·가구·공예", ["제작기술", "품질관리", "디자인", "수공예", "생산관리", "창작활동"]),
      ("25. 기타", ["직무스트레스", "업무", "스트레스"])
    ]

  const UnnumberedOccupationKeywords: seq<(string, seq<string>)> := [
      ("경영·회계·사무", ["업무과부하", "회계처리", "사무업무", "관리스트레스", "보고서작성", "회의"]),
      ("금융·보험", ["리스크관리", "고객상담", "실적압박", "규제준수", "금융상품", "투자압박"]),
      ("교육·자연과학·사회과학", ["학습부진", "학부모갈등", "업무과부하", "평가스트레스", "행정업무", "학생지도", "연구"]),
      ("법률·경찰·소방·교도·국방", ["치안유지", "법률해석", "공공안전", "위험상황", "순찰", "사법업무"]),
      ("보건·의료", ["번아웃", "감정노동", "환자안전", "야근", "의료사고", "업무과부하", "응급상황"]),
      ("사회복지·종교", ["감정노동", "상담업무", "복지서비스", "봉사활동", "사례관리", "클라이언트"]),
      ("문화·예술·디자인·방송", ["창작스트레스", "작품활동", "경제적불안", "작품평가", "창작슬럼프", "시청률"]),
      ("운동", ["체력관리", "경기스트레스", "부상위험", "성과압박", "훈련", "시합"]),
      ("여행·레저", ["고객서비스", "성수기", "관광안내", "레저활동", "계절업무", "서비스"]),
      ("숙박·음식", ["고객응대", "서비스", "주방업무", "위생관리", "주말근무", "감정노동"]),
      ("미용·예식", ["고객만족", "서비스업", "미용기술", "예식준비", "감정노동", "트렌드"]),
      ("비서·사무보조", ["업무지원", "스케줄관리", "사무업무", "업무보조", "문서작업", "일정관리"]),
      ("농림어업", ["날씨영향", "계절성", "농작물관리", "어업활동", "환경변화", "수확"]),
      ("식품가공", ["위생관리", "품질관리", "생산라인", "식품안전", "제조업무", "공정관리"]),
      ("섬유·의복", ["패션트렌드", "제조업무", "품질관리", "의복제작", "소재관리", "디자인"]),
      ("재료", ["품질관리", "소재개발", "재료과학", "제조공정", "기술개발", "연구개발"]),
      ("화학", ["화학물질", "안전관리", "실험", "연구개발", "품질관리", "환경관리"]),
      ("전기·전자", ["회로설계", "전자기기", "기술개발", "품질관리", "전기안전", "유지보수"]),
      ("정보통신", ["야근", "데드라인", "기술변화", "프로젝트", "버그", "개발스트레스", "코딩", "IT"]),
      ("기계", ["기계설계", "제조업", "유지보수", "기술개발", "안전관리", "생산성"]),
      ("금속·재료", ["금속가공", "용접", "안전관리", "품질관리", "재료공학", "제조"]),
      ("건설", ["건설현장", "안전사고", "프로젝트", "공기단축", "건설관리", "현장작업"]),
      ("환경·에너지·안전", ["환경보호", "안전관리", "에너지", "환경정책", "안전점검", "위험관리"]),
      ("인쇄·목재·가구·공예", ["제작기술", "품질관리", "디자인", "수공예", "생산관리", "창작활동"]),
      ("기타", ["직무스트레스", "업무", "스트레스"])
    ]

  const LegacyOccupationKeywords: seq<(string, seq<string>)> := NumberedOccupationKeywords + UnnumberedOccupationKeywords

  /** No occupation maps to an empty keyword list. */
  lemma LegacyOccupationListsNonEmpty()
    ensures forall i :: 0 <= i < |LegacyOccupationKeywords| ==> |LegacyOccupationKeywords[i].1| > 0
  {
    assert forall i :: 0 <= i < |NumberedOccupationKeywords| ==> |NumberedOccupationKeywords[i].1| > 0;
    assert forall i :: 0 <= i < |UnnumberedOccupationKeywords| ==> |UnnumberedOccupationKeywords[i].1| > 0;
  }

  function LegacyOccupationKeywordsFor(occupation: string): seq<string>
  {
    Lookup(LegacyOccupationKeywords, occupation).GetOr([])
  }

  /** An occupation gets keywords exactly when it is a key of the table. */
  lemma LegacyOccupationKeywordsIffKnown(occupation: string)
    ensures |LegacyOccupationKeywordsFor(occupation)| > 0 <==> occupation in KeysOf(LegacyOccupationKeywords)
  {
    LegacyOccupationListsNonEmpty();
    var r := Lookup(LegacyOccupationKeywords, occupation);
    if r.Some? {
      var i :| 0 <= i < |LegacyOccupationKeywords| && LegacyOccupationKeywords[i] == (occupation, r.value);
      assert occupation in KeysOf(LegacyOccupationKeywords);
    } else {
      assert occupation !in KeysOf(LegacyOccupationKeywords);
    }
  }

  /** `f"{user_input} {stress_type.value}"`: the input is not stripped. */
  function LegacyMainQuery(userInput: string, t: StressType): (q: string)
    ensures userInput <= q && q[|userInput|..] == " " + Value(t)
  {
    userInput + " " + Value(t)
  }

  /** The four profile entries, then at most three occupation keywords; nothing is filtered. */
  function LegacySubQueries(p: LegacyUserProfile): seq<string>
  {
    [p.AgeGroup(), p.gender, p.occupation, Join(" ", p.personalKeywords)]
      + SliceTo(LegacyOccupationKeywordsFor(p.occupation), 3)
  }

  method LegacyAssembleSubQueries(p: LegacyUserProfile) returns (qs: seq<string>)
    ensures qs == LegacySubQueries(p)
  {
    qs := [p.AgeGroup(), p.gender, p.occupation, Join(" ", p.personalKeywords)];
    var occupationKeywords := LegacyOccupationKeywordsFor(p.occupation);
    qs := qs + SliceTo(occupationKeywords, 3);
  }

  /**
   * The list always has the four profile entries first, blank ones included,
   * then the first three (or fewer) occupation keywords; an unknown occupation
   * adds nothing.
   */
  lemma LegacySubQueriesShape(p: LegacyUserProfile)
    ensures var qs := LegacySubQueries(p);
      && 4 <= |qs| <= 7
      && qs[..4] == [p.AgeGroup(), p.gender, p.occupation, Join(" ", p.personalKeywords)]
      && qs[4..] <= LegacyOccupationKeywordsFor(p.occupation)
      && (p.occupation !in KeysOf(LegacyOccupationKeywords) ==> |qs| == 4)
      && (p.personalKeywords == [] ==> qs[3] == "")
  {
    LegacyOccupationKeywordsIffKnown(p.occupation);
  }

  /** One context entry: `[source] content`, the content stripped but never cut. */
  function LegacyContextPart(doc: Doc, i: nat): string
  {
    "[" + FilenameOr(doc.metadata, "연구자료" + NatToString(i + 1)) + "] " + Strip(doc.content)
  }

  /** The entries of the first `|docs|` documents, appended one by one. */
  function LegacyContextParts(docs: seq<Doc>): (parts: seq<string>)
    ensures |parts| == |docs|
  {
    if docs == [] then [] else LegacyContextParts(docs[..|docs| - 1]) + [LegacyContextPart(docs[|docs| - 1], |docs| - 1)]
  }

  /** Entry `i` is the `i`-th document's, numbered from 1 in its default source. */
  lemma {:induction false} LegacyContextPartsIndex(docs: seq<Doc>, i: nat)
    requires i < |docs|
    ensures LegacyContextParts(docs)[i] == LegacyContextPart(docs[i], i)
  {
    if i < |docs| - 1 {
      LegacyContextPartsIndex(docs[..|docs| - 1], i);
    }
  }

  function LegacyContext(docs: seq<Doc>): string
  {
    if docs == [] then NoContextText else Join("\n\n", LegacyContextParts(docs))
  }

  /** The append loop of _format_vector_context: one entry per document, in order. */
  method CollectContextParts(docs: seq<Doc>) returns (parts: seq<string>)
    ensures parts == LegacyContextParts(docs)
  {
    parts := [];
    var i := 0;
    while i < |docs|
      invariant 0 <= i <= |docs|
      invariant parts == LegacyContextParts(docs[..i])
    {
      assert docs[..i + 1][..i] == docs[..i];
      parts := parts + [LegacyContextPart(docs[i], i)];
      i := i + 1;
    }
    assert docs[..i] == docs;
  }

  /** _format_vector_context of the first version. */
  method LegacyFormatVectorContext(docs: seq<Doc>) returns (text: string)
    ensures text == LegacyContext(docs)
  {
    if docs == [] {
      return NoContextText;
    }
    var parts := CollectContextParts(docs);
    text := Join("\n\n", parts);
  }

  /** The two formatters agree exactly when no stripped content exceeds 500 characters. */
  lemma ContextsAgreeOnShortDocuments(docs: seq<Doc>)
    requires forall i :: 0 <= i < |docs| ==> |Strip(docs[i].content)| <= 500
    ensures FormatVectorContext(docs) == LegacyContext(docs)
  {
    forall i | 0 <= i < |docs|
      ensures LegacyContextParts(docs)[i] == ContextParts(docs)[i]
    {
      LegacyContextPartsIndex(docs, i);
    }
    assert ContextParts(docs) == LegacyContextParts(docs);
  }

  /**
   * An entry is the same in both versions exactly when the stripped content
   * has at most 500 characters, or its cut-off tail is itself "...".
   */
  lemma ContextPartsAgreeIff(doc: Doc, i: nat)
    ensures var c := Strip(doc.content);
      ContextPart(doc, i) == LegacyContextPart(doc, i) <==> |c| <= 500 || c[500..] == "..."
  {
    var c := Strip(doc.content);
    var prefix := "[" + FilenameOr(doc.metadata, "연구자료" + NatToString(i + 1)) + "] ";
    assert ContextPart(doc, i) == prefix + Truncate(c);
    assert LegacyContextPart(doc, i) == prefix + c;
    if |c| > 500 {
      if ContextPart(doc, i) == LegacyContextPart(doc, i) {
        assert (prefix + Truncate(c))[|prefix|..] == Truncate(c);
        assert (prefix + c)[|prefix|..] == c;
        assert c[500..] == Truncate(c)[500..];
      }
      if c[500..] == "..." {
        assert c == c[..500] + c[500..];
      }
    }
  }

  const LegacyErrorMessage := "잠시 후 다시 시도해주세요. 🌟"

  /** str(e) of the AttributeError a missing profile raises. */
  const NoProfileError := "'NoneType' object has no attribute 'stress_type'"

  /** The capsule the except-branch builds; `now` is the ISO timestamp of the call. */
  function LegacyErrorCapsule(error: string, now: string): (c: Capsule)
    ensures !c.success && c.fallback && c.confidenceScore == 0.0 && c.error == Some(error) && c.sources == []
    ensures c.timestamp == now
  {
    Capsule(false, LegacyErrorMessage, "시스템", "오류", [], [], [], 0.0, now, true, Some(error))
  }

  const LegacyFallbackMessages: map<StressType, string> := map[
    XXX := "CheeU 톡톡이 평온 치유캡슐 💚을 전달합니다. 지금 이 순간의 평온함을 느껴보세요. 당신은 충분히 잘하고 있어요.",
    OXX := "CheeU 톡톡이 희망 치유캡슐 💛을 전달합니다. 힘든 마음이 느껴집니다. 작은 것부터 시작해보세요. 당신은 혼자가 아니에요.",
    XOX := "CheeU 톡톡이 안정 치유캡슐 💙을 전달합니다. 불안한 마음을 이해해요. 깊게 숨을 쉬고 현재에 집중해보세요.",
    XXO := "CheeU 톡톡이 균형 치유캡슐 🧡을 전달합니다. 일이 버겁게 느껴지시는군요. 우선순위를 정하고 하나씩 해결해보세요.",
    OOX := "CheeU 톡톡이 정리 치유캡슐 💜을 전달합니다. 복잡한 감정들이 얽혀있는 것 같아요. 천천히 정리해나가봐요.",
    OXO := "CheeU 톡톡이 회복 치유캡슐 🤍을 전달합니다. 많이 지치셨을 것 같아요. 잠깐 쉬어가도 괜찮습니다.",
    XOO := "CheeU 톡톡이 중심 치유캡슐 💚을 전달합니다. 바쁘고 걱정이 많으시군요. 마음챙김으로 중심을 잡아보세요.",
    OOO := "CheeU 톡톡이 응급 치유캡슐 ❤️을 전달합니다. 지금 당장 안전이 우선입니다. 주변 도움을 받는 것이 용기입니다."
  ]

  const LegacyDefaultFallbackMessage := "CheeU 톡톡이 기본 치유캡슐 💝을 전달합니다. 지금 이 순간, 당신은 충분히 잘하고 있어요."

  /** _generate_fallback_capsule of the first version. */
  function LegacyFallbackCapsule(p: LegacyUserProfile, now: string): Capsule
  {
    LegacyProfilesCoverEveryType(p.stressType);
    var profile := LegacyStressTypeProfiles[p.stressType];
    var message := if p.stressType in LegacyFallbackMessages then LegacyFallbackMessages[p.stressType] else LegacyDefaultFallbackMessage;
    Capsule(true, profile.emoji + " " + message, "CheeU 톡톡", Value(p.stressType), MethodNames(profile.therapyMethods),
            [], p.personalKeywords, 0.3, now, true, None)
  }

  /** The fallback carries the type's own message (the default is never used), no sources and confidence 0.3. */
  lemma LegacyFallbackCapsuleCovers(p: LegacyUserProfile, now: string)
    ensures var c := LegacyFallbackCapsule(p, now);
      && c.success && c.fallback && c.sources == [] && c.confidenceScore == 0.3 && c.error.None?
      && c.healingMessage == LegacyStressTypeProfiles[p.stressType].emoji + " " + LegacyFallbackMessages[p.stressType]
      && c.stressType == Value(p.stressType)
  {
  }

  /** The whole generate_healing_message of the first version; `reply` is the one `predict` outcome. */
  function LegacyGenerate(store: Store, userInput: string, profile: Option<LegacyUserProfile>,
                          reply: LlmOutcome, now: string): Capsule
  {
    if profile.None? then LegacyErrorCapsule(NoProfileError, now)
    else
      var p := profile.value;
      var docs := LegacyPrioritySearch(store, LegacyMainQuery(userInput, p.stressType),
                                       AsSearchQueries(LegacySubQueries(p)), MainWeight, SubWeight, ResultCount);
      if docs == [] then LegacyFallbackCapsule(p, now)
      else
        match reply
        case LlmRaised(message) => LegacyErrorCapsule(message, now)
        case Reply(text) =>
          LegacyProfilesCoverEveryType(p.stressType);
          Capsule(true, Strip(text), "CheeU 톡톡", Value(p.stressType),
                  MethodNames(LegacyStressTypeProfiles[p.stressType].therapyMethods), Sources(docs),
                  p.personalKeywords, LegacyConfidence(docs, p.personalKeywords), now, false, None)
  }

  method LegacyGenerateHealingMessage(store: Store, userInput: string, profile: Option<LegacyUserProfile>,
                                      reply: LlmOutcome, now: string) returns (capsule: Capsule)
    ensures capsule == LegacyGenerate(store, userInput, profile, reply, now)
  {
    if profile.None? {
      return LegacyErrorCapsule(NoProfileError, now);
    }
    var p := profile.value;
    var mainQuery := userInput + " " + Value(p.stressType);
    var subQueries := LegacyAssembleSubQueries(p);
    var docs := LegacySearchWithPriorityWeighting(store, mainQuery, AsSearchQueries(subQueries), MainWeight, SubWeight, ResultCount);
    if docs == [] {
      return LegacyFallbackCapsule(p, now);
    }
    if reply.LlmRaised? {
      return LegacyErrorCapsule(reply.message, now);
    }
    LegacyProfilesCoverEveryType(p.stressType);
    var confidence := LegacyCalculateSearchConfidence(docs, p.personalKeywords);
    capsule := Capsule(true, Strip(reply.text), "CheeU 톡톡", Value(p.stressType),
                       MethodNames(LegacyStressTypeProfiles[p.stressType].therapyMethods), Sources(docs),
                       p.personalKeywords, confidence, now, false, None);
  }

  /**
   * Every call returns a capsule: a failure is the error capsule (confidence 0,
   * fallback, error set), an empty retrieval the fallback one (confidence 0.3,
   * no sources), and a success carries one source per retrieved document; every
   * confidence lies in [0, 1].
   */
  lemma LegacyGenerateOutcomes(store: Store, userInput: string, profile: Option<LegacyUserProfile>,
                               reply: LlmOutcome, now: string)
    ensures var c := LegacyGenerate(store, userInput, profile, reply, now);
      && 0.0 <= c.confidenceScore <= 1.0
      && (!c.success ==> c.confidenceScore == 0.0 && c.fallback && c.error.Some? && c.sources == [])
      && (c.success && c.fallback ==> c.confidenceScore == 0.3 && c.sources == [])
      && (profile.None? ==> c == LegacyErrorCapsule(NoProfileError, now))
      && (profile.Some? && reply.LlmRaised? && !c.fallback ==> !c.success)
  {
    if profile.Some? {
      var p := profile.value;
      var docs := LegacyPrioritySearch(store, LegacyMainQuery(userInput, p.stressType),
                                       AsSearchQueries(LegacySubQueries(p)), MainWeight, SubWeight, ResultCount);
      LegacyConfidenceBounds(docs, p.personalKeywords);
    }
  }

  /**
   * Unlike the current retry loop, a blank model reply is accepted: with
   * documents found it becomes a successful capsule with an empty message.
   */
  lemma LegacyAcceptsBlankReply(store: Store, userInput: string, p: LegacyUserProfile, text: string, now: string)
    requires IsBlank(text)
    requires LegacyPrioritySearch(store, LegacyMainQuery(userInput, p.stressType),
                                  AsSearchQueries(LegacySubQueries(p)), MainWeight, SubWeight, ResultCount) != []
    ensures var c := LegacyGenerate(store, userInput, Some(p), Reply(text), now);
      c.success && !c.fallback && c.healingMessage == ""
    ensures Retry(n => Reply(text), 1) == Err(EmptyResponseError)
  {
    StripEmptyIffBlank(text);
  }
}
