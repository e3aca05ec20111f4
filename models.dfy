// The data model of the current backend: therapy profiles per stress type,
// the occupation and persona keyword tables, the user profile with its age
// group, and the capsule returned to callers with its dictionary form.

module Models {
  import opened Common
  import opened StressTypes

  datatype TherapyMethod = MBSR | PPT | ACT | CBT | DBT

  /** The `korean_name` of each entry of the therapy catalogue. */
  function KoreanName(m: TherapyMethod): string
  {
    match m
    case MBSR => "마음챙김 기반 스트레스 감소"
    case PPT => "긍정심리치료"
    case ACT => "수용전념치료"
    case CBT => "인지행동치료"
    case DBT => "변증법적 행동치료"
  }

  datatype StressTypeProfile = StressTypeProfile(emoji: string, therapyMethods: seq<TherapyMethod>)

  /** The Korean names of a profile's methods, in the profile's order. */
  function MethodNames(methods: seq<TherapyMethod>): (names: seq<string>)
    ensures |names| == |methods|
    ensures forall i :: 0 <= i < |methods| ==> names[i] == KoreanName(methods[i])
  {
    if methods == [] then [] else MethodNames(methods[..|methods| - 1]) + [KoreanName(methods[|methods| - 1])]
  }

  const StressTypeProfiles: map<StressType, StressTypeProfile> := map[
    XXX := StressTypeProfile("🦥", [MBSR]),
    OXX := StressTypeProfile("🐻", [PPT, MBSR]),
    XOX := StressTypeProfile("🐰", [ACT, MBSR]),
    XXO := StressTypeProfile("🦔", [ACT, CBT]),
    OOX := StressTypeProfile("🦌", [PPT, ACT, CBT]),
    OXO := StressTypeProfile("🦫", [PPT, ACT]),
    XOO := StressTypeProfile("🐿️", [ACT, CBT]),
    OOO := StressTypeProfile("🦊", [PPT, ACT, DBT])
  ]

  /** Every stress type has a profile with at least one therapy method, so a lookup never misses. */
  lemma ProfilesCoverEveryType(t: StressType)
    ensures t in StressTypeProfiles
    ensures 1 <= |StressTypeProfiles[t].therapyMethods| <= 3
    ensures StressTypeProfiles[t].emoji != ""
  {
  }

  /** `dict.get(key)` on a dictionary written as a display: the last binding of the key wins. */
  function Lookup<V>(table: seq<(string, V)>, key: string): (r: Option<V>)
    ensures r.Some? ==> exists i :: 0 <= i < |table| && table[i] == (key, r.value)
    ensures r.None? ==> forall i :: 0 <= i < |table| ==> table[i].0 != key
  {
    if table == [] then None
    else if table[|table| - 1].0 == key then Some(table[|table| - 1].1)
    else Lookup(table[..|table| - 1], key)
  }

  /** The keys of a dictionary display. */
  function KeysOf<V>(table: seq<(string, V)>): set<string>
  {
    set i | 0 <= i < |table| :: table[i].0
  }

  const OccupationKeywords: seq<(string, seq<string>)> := [
      ("01. 경영·회계·사무", ["업무과부하", "회계처리", "사무업무", "관리스트레스", "보고서작성", "회의"]),
      ("02. 금융·보험", ["리스크관리", "고객상담", "실적압박", "규제준수", "금융상품", "투자압박"]),
      ("03. 교육·자연과학·사회과학", ["학습부진", "학부모갈등", "업무과부하", "평가스트레스", "행정업무", "학생지도", "연구"]),
      ("04. 법률·경찰·소방·교도·국방", ["치안유지", "법률해석", "공공안전", "위험상황", "순찰", "사법업무"]),
      ("05. 보건·의료", ["번아웃", "감정노동", "환자안전", "야근", "의료사고", "업무과부하", "응급상황"]),
      ("06. 사회복지·종교", ["감정노동", "상담업무", "복지서비스", "봉사활동", "사례관리", "클라이언트"]),
      ("07. 문화·예술·디자인·방송", ["창작스트레스", "작품활동", "경제적불안", "작품평가", "창작슬럼프", "시청률"]),
      ("08. 운동", ["체력관리", "경기스트레스", "부상위험", "성과압박", "훈련", "시합"]),
      ("09. 여행·레저", ["고객서비스", "성수기", "관광안내", "레저활동", "계절업무", "서비스"]),
      ("10. 숙박·음식", ["고객응대", "서비스", "주방업무", "위생관리", "주말근무", "감정노동"]),
      ("11. 미용·예식", ["고객만족", "서비스업", "미용기술", "예식준비", "감정노동", "트렌드"]),
      ("12. 비서·사무보조", ["업무지원", "스케줄관리", "사무업무", "업무보조", "문서작업", "일정관리"]),
      ("13. 농림어업", ["날씨영향", "계절성", "농작물관리", "어업활동", "환경변화", "수확"]),
      ("14. 식품가공", ["위생관리", "품질관리", "생산라인", "식품안전", "제조업무", "공정관리"]),
      ("15. 섬유·의복", ["패션트렌드", "제조업무", "품질관리", "의복제작", "소재관리", "디자인"]),
      ("16. 재료", ["품질관리", "소재개발", "재료과학", "제조공정", "기술개발", "연구개발"]),
      ("17. 화학", ["화학물질", "안전관리", "실험", "연구개발", "품질관리", "환경관리"]),
      ("18. 전기·전자", ["회로설계", "전자기기", "기술개발", "품질관리", "전기안전", "유지보수"]),
      ("19. 정보통신", ["야근", "데드라인", "기술변화", "프로젝트", "버그", "개발스트레스", "코딩", "IT", "스타트업", "멀티태스킹", "불규칙수면", "주의력결핍", "업무과부하", "기술습득압박", "책임감과부하"]),
      ("20. 기계", ["기계설계", "제조업", "유지보수", "기술개발", "안전관리", "생산성"]),
      ("21. 금속·재료", ["금속가공", "용접", "안전관리", "품질관리", "재료공학", "제조"]),
      ("22. 건설", ["건설현장", "안전사고", "프로젝트", "공기단축", "건설관리", "현장작업"]),
      ("23. 환경·에너지·안전", ["환경보호", "안전관리", "에너지", "환경정책", "안전점검", "위험관리"]),
      ("24. 인쇄·목재·가구·공예", ["제작기술", "품질관리", "디자인", "수공예", "생산관리", "창작활동"]),
      ("25. 기타", ["직무스트레스", "업무", "스트레스"]),
      ("경영", ["업무과부하", "관리스트레스", "회의"]),
      ("의료", ["번아웃", "감정노동", "환자안전", "야근"]),
      ("교육", ["학습부진", "학부모갈등", "평가스트레스"]),
      ("IT", ["야근", "데드라인", "기술변화", "프로젝트", "버그"]),
      ("서비스", ["고객응대", "감정노동", "서비스"]),
      ("기타", ["직무스트레스", "업무", "스트레스"])
    ]

  /** No occupation maps to an empty keyword list. */
  lemma OccupationListsNonEmpty()
    ensures forall i :: 0 <= i < |OccupationKeywords| ==> |OccupationKeywords[i].1| > 0
  {
  }

  /** `OCCUPATION_KEYWORDS.get(occupation, [])`. */
  function OccupationKeywordsFor(occupation: string): seq<string>
  {
    Lookup(OccupationKeywords, occupation).GetOr([])
  }

  /** An occupation gets keywords exactly when it is a key of the table; unknown ones get none. */
  lemma OccupationKeywordsIffKnown(occupation: string)
    ensures |OccupationKeywordsFor(occupation)| > 0 <==> occupation in KeysOf(OccupationKeywords)
  {
    OccupationListsNonEmpty();
    var r := Lookup(OccupationKeywords, occupation);
    if r.Some? {
      var i :| 0 <= i < |OccupationKeywords| && OccupationKeywords[i] == (occupation, r.value);
      assert occupation in KeysOf(OccupationKeywords);
    } else {
      assert occupation !in KeysOf(OccupationKeywords);
    }
  }

  /** Persona-specific keyword lists, keyed by "<nickname>_<occupation>" and then by category. */
  const PersonaKeywords: seq<(string, seq<(string, seq<string>)>)> := [
      ("이대리_IT개발자", [
        ("stress_keywords", ["불안", "직무스트레스", "수면부족", "주의력결핍", "멀티태스킹", "업무과부하"]),
        ("lifestyle_keywords", ["야근", "불규칙생활", "커피의존", "기술학습압박"]),
        ("personality_keywords", ["열정", "책임감", "성장욕구", "완벽주의"]),
        ("therapy_focus", ["현재순간인식", "수용", "가치기반행동", "인지재구조화", "행동활성화"])
      ])
    ]

  datatype UserProfile = UserProfile(
    nickname: string,
    age: int,
    gender: string,
    occupation: string,
    stressType: StressType,
    surveyFeatures: seq<string>,
    personalKeywords: seq<string>,
    msi: real,
    psi: real,
    phq9Score: Option<int>,
    gad7Score: Option<int>,
    koss24Score: Option<int>)
  {
    /** get_age_group */
    function AgeGroup(): string
    {
      AgeGroupLabel(AgeBand(age))
    }
  }

  /** Which of the six age groups an age falls in: 0 for under 20, then one per decade, 5 for 60 and over. */
  function AgeBand(age: int): (b: nat)
    ensures b <= 5
    ensures b == 0 <==> age < 20
    ensures b == 5 <==> age >= 60
    ensures 0 < b < 5 ==> 10 * b + 10 <= age < 10 * b + 20
  {
    if age < 20 then 0
    else if age < 30 then 1
    else if age < 40 then 2
    else if age < 50 then 3
    else if age < 60 then 4
    else 5
  }

  function AgeGroupLabel(band: nat): string
    requires band <= 5
  {
    ["10대", "20대", "30대", "40대", "50대", "60대 이상"][band]
  }

  /** An older user never falls in a younger group. */
  lemma AgeBandMonotone(a: int, b: int)
    requires a <= b
    ensures AgeBand(a) <= AgeBand(b)
  {
  }

  /** The six labels are distinct, so the label alone tells the band. */
  lemma AgeGroupLabelsDistinct(b1: nat, b2: nat)
    requires b1 <= 5 && b2 <= 5 && b1 != b2
    ensures AgeGroupLabel(b1) != AgeGroupLabel(b2)
  {
  }

  /** The capsule every healing request ends in. */
  datatype Capsule = Capsule(
    success: bool,
    healingMessage: string,
    character: string,
    stressType: string,
    therapyMethodsUsed: seq<string>,
    sources: seq<string>,
    keywordsUsed: seq<string>,
    confidenceScore: real,
    timestamp: string,
    fallback: bool,
    error: Option<string>)

  /** A value of the dictionary `to_dict` returns. */
  datatype Field = Flag(flag: bool) | Text(text: string) | Texts(texts: seq<string>) | Number(number: real) | Null

  /** to_dict */
  function ToDict(c: Capsule): map<string, Field>
  {
    map[
      "success" := Flag(c.success),
      "healing_message" := Text(c.healingMessage),
      "character" := Text(c.character),
      "stress_type" := Text(c.stressType),
      "therapy_methods_used" := Texts(c.therapyMethodsUsed),
      "sources" := Texts(c.sources),
      "keywords_used" := Texts(c.keywordsUsed),
      "confidence_score" := Number(c.confidenceScore),
      "timestamp" := Text(c.timestamp),
      "fallback" := Flag(c.fallback),
      "error" := if c.error.Some? then Text(c.error.value) else Null
    ]
  }

  const CapsuleKeys: set<string> := {
    "success", "healing_message", "character", "stress_type", "therapy_methods_used", "sources",
    "keywords_used", "confidence_score", "timestamp", "fallback", "error"}

  /** Reads a capsule back from its dictionary form, if every key holds a value of the right kind. */
  function FromDict(d: map<string, Field>): Option<Capsule>
  {
    if CapsuleKeys <= d.Keys
       && d["success"].Flag? && d["healing_message"].Text? && d["character"].Text?
       && d["stress_type"].Text? && d["therapy_methods_used"].Texts? && d["sources"].Texts?
       && d["keywords_used"].Texts? && d["confidence_score"].Number? && d["timestamp"].Text?
       && d["fallback"].Flag? && (d["error"].Text? || d["error"].Null?)
    then Some(Capsule(
      d["success"].flag, d["healing_message"].text, d["character"].text, d["stress_type"].text,
      d["therapy_methods_used"].texts, d["sources"].texts, d["keywords_used"].texts,
      d["confidence_score"].number, d["timestamp"].text, d["fallback"].flag,
      if d["error"].Text? then Some(d["error"].text) else None))
    else None
  }

  /** A dictionary with exactly the capsule keys that reads back as a capsule is that capsule's to_dict. */
  lemma FromDictRecoversDict(d: map<string, Field>)
    requires d.Keys == CapsuleKeys && FromDict(d).Some?
    ensures ToDict(FromDict(d).value) == d
  {
    var r := ToDict(FromDict(d).value);
    assert r.Keys == d.Keys;
    forall key | key in d ensures r[key] == d[key] {
    }
  }

  /** The dictionary has exactly the eleven capsule keys and loses no field: reading it back gives the capsule. */
  lemma ToDictRoundTrip(c: Capsule)
    ensures ToDict(c).Keys == CapsuleKeys
    ensures FromDict(ToDict(c)) == Some(c)
  {
  }
}
