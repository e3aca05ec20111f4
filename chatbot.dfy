// The current healing-message chatbot: input validation, the main query and
// the ordered sub-query list, the priority search (k = 3), the fallback and
// error capsules, the formatting of retrieved documents as prompt context,
// and the bounded retry loop around the language model.

module Chatbot {
  import opened Common
  import opened StressTypes
  import opened Models
  import opened Fusion
  import opened VectorDb

  const EmptyInputError := "사용자 입력이 비어있습니다."
  const InvalidProfileError := "사용자 프로필이 유효하지 않습니다."
  const EmptyResponseError := "LLM 응답이 비어있습니다."
  const UnknownStressTypeError := "스트레스 유형을 찾을 수 없습니다."
  const SystemErrorMessage := "시스템 오류로 인해 치유 캡슐을 생성할 수 없습니다. 잠시 후 다시 시도해주세요."
  const FixedTimestamp := "2024-01-01T00:00:00"
  const NoContextText := "관련 연구 자료를 찾을 수 없습니다."
  const PracticeTips := "\n\n🔧 실천 방법:\n• 현재 감정을 인정하고 받아들이기\n• 깊은 호흡으로 마음 진정하기\n• 작은 성취 경험하기"
  const DefaultFallbackMessage := "💝 기본 치유캡슐을 전달합니다. 지금 이 순간, 당신은 충분히 잘하고 있어요."

  /** The search weights and result count generate_healing_message uses. */
  const MainWeight: real := 0.7
  const SubWeight: real := 0.3
  const ResultCount: int := 3

  // ---------------------------------------------------------------------
  // Queries
  // ---------------------------------------------------------------------

  /** The main search query: the stripped user input, one space, then the stress type's value. */
  function MainQuery(userInput: string, t: StressType): (q: string)
    ensures Strip(userInput) <= q && q[|Strip(userInput)|..] == " " + Value(t)
  {
    var input := Strip(userInput);
    ConcatParts(input, " " + Value(t));
    input + " " + Value(t)
  }

  /**
   * For an input that passed validation, the query opens with the stripped
   * input, which is non-empty and has no whitespace at either end.
   */
  lemma MainQueryOfValidInput(userInput: string, t: StressType)
    requires !IsBlank(userInput)
    ensures var q := MainQuery(userInput, t); var n := |Strip(userInput)|;
      && 0 < n < |q| && !IsSpace(q[0]) && !IsSpace(q[n - 1]) && q[n] == ' '
  {
    StripEmptyIffBlank(userInput);
    StripIdempotent(userInput);
  }

  /** The personal keywords joined by single spaces; the empty string when there are none. */
  function JoinedKeywords(keywords: seq<string>): string
  {
    if keywords != [] then Join(" ", keywords) else ""
  }

  function BaseSubQueries(p: UserProfile): seq<string>
  {
    [p.AgeGroup(), p.gender, p.occupation, JoinedKeywords(p.personalKeywords)]
  }

  /** The first three keywords of the occupation, none for an unknown occupation. */
  function OccupationPart(occupation: string): (r: seq<string>)
    ensures |r| == if |OccupationKeywordsFor(occupation)| <= 3 then |OccupationKeywordsFor(occupation)| else 3
    ensures r <= OccupationKeywordsFor(occupation)
  {
    SliceTo(OccupationKeywordsFor(occupation), 3)
  }

  /** The persona categories whose first two keywords join the sub-queries, in this order. */
  const PersonaCategories: seq<string> := ["stress_keywords", "lifestyle_keywords", "therapy_focus"]

  function PersonaKey(p: UserProfile): string
  {
    p.nickname + "_" + p.occupation
  }

  /** The first two keywords of each listed category the persona has, category by category. */
  function CategoryPart(data: seq<(string, seq<string>)>, categories: seq<string>): (r: seq<string>)
    ensures |r| <= 2 * |categories|
  {
    if categories == [] then []
    else
      CategoryPart(data, categories[..|categories| - 1])
      + match Lookup(data, categories[|categories| - 1])
        case None => []
        case Some(keywords) => SliceTo(keywords, 2)
  }

  function PersonaPart(p: UserProfile): (r: seq<string>)
    ensures |r| <= 6
  {
    match Lookup(PersonaKeywords, PersonaKey(p))
    case None => []
    case Some(data) => CategoryPart(data, PersonaCategories)
  }

  /** The sub-query list before blank filtering. */
  function SubQueries(p: UserProfile): seq<string>
  {
    BaseSubQueries(p) + OccupationPart(p.occupation) + PersonaPart(p)
  }

  /** The loop over the persona categories: extend by the first two keywords of each category present. */
  method AppendPersonaKeywords(qs: seq<string>, data: seq<(string, seq<string>)>) returns (r: seq<string>)
    ensures r == qs + CategoryPart(data, PersonaCategories)
  {
    r := qs;
    var i := 0;
    while i < |PersonaCategories|
      invariant 0 <= i <= |PersonaCategories|
      invariant r == qs + CategoryPart(data, PersonaCategories[..i])
    {
      var found := Lookup(data, PersonaCategories[i]);
      if found.Some? {
        r := r + SliceTo(found.value, 2);
      }
      assert PersonaCategories[..i + 1][..i] == PersonaCategories[..i];
      i := i + 1;
    }
    assert PersonaCategories[..i] == PersonaCategories;
  }

  /** The assembly of sub_queries in generate_healing_message, `extend` by `extend`. */
  method AssembleSubQueries(p: UserProfile) returns (qs: seq<string>)
    ensures qs == SubQueries(p)
  {
    qs := [p.AgeGroup(), p.gender, p.occupation, if p.personalKeywords != [] then Join(" ", p.personalKeywords) else ""];
    var occupationKeywords := OccupationKeywordsFor(p.occupation);
    if occupationKeywords != [] {
      qs := qs + SliceTo(occupationKeywords, 3);
    }
    assert qs == BaseSubQueries(p) + OccupationPart(p.occupation);
    var persona := Lookup(PersonaKeywords, PersonaKey(p));
    if persona.Some? {
      qs := AppendPersonaKeywords(qs, persona.value);
    }
  }

  /**
   * The sub-query list is the four profile entries, then the first (at most three)
   * occupation keywords, then (at most six) persona keywords, and the persona
   * part is empty unless "<nickname>_<occupation>" is a persona.
   */
  lemma SubQueriesShape(p: UserProfile)
    ensures var qs := SubQueries(p);
      && 4 <= |qs| <= 13
      && qs[..4] == [p.AgeGroup(), p.gender, p.occupation, JoinedKeywords(p.personalKeywords)]
      && qs[4..4 + |OccupationPart(p.occupation)|] == OccupationPart(p.occupation)
      && (PersonaKey(p) !in KeysOf(PersonaKeywords) ==> |qs| == 4 + |OccupationPart(p.occupation)|)
  {
    var qs := SubQueries(p);
    assert qs == BaseSubQueries(p) + OccupationPart(p.occupation) + PersonaPart(p);
    if PersonaKey(p) !in KeysOf(PersonaKeywords) {
      assert Lookup(PersonaKeywords, PersonaKey(p)).None?;
    }
  }

  /** The one persona in the table contributes two stress, two lifestyle and two therapy keywords. */
  lemma PersonaPartOfKnownPersona(p: UserProfile)
    requires p.nickname == "이대리" && p.occupation == "IT개발자"
    ensures PersonaPart(p) == ["불안", "직무스트레스", "야근", "불규칙생활", "현재순간인식", "수용"]
  {
    assert PersonaKey(p) == "이대리_IT개발자";
    assert PersonaKeywords[|PersonaKeywords| - 1].0 == PersonaKey(p);
    var data := PersonaKeywords[0].1;
    assert Lookup(PersonaKeywords, PersonaKey(p)) == Some(data);
    assert Lookup(data, "stress_keywords") == Some(data[0].1);
    assert Lookup(data, "lifestyle_keywords") == Some(data[1].1);
    assert Lookup(data, "therapy_focus") == Some(data[3].1);
    var cats := PersonaCategories;
    assert cats[..0] == [];
    assert cats[..1][..0] == cats[..0];
    assert CategoryPart(data, cats[..1]) == ["불안", "직무스트레스"];
    assert cats[..2][..1] == cats[..1];
    assert CategoryPart(data, cats[..2]) == ["불안", "직무스트레스", "야근", "불규칙생활"];
    assert cats[..3][..2] == cats[..2];
    assert cats[..3] == cats;
  }

  /** The sub-queries with blank entries dropped and the rest stripped of surrounding whitespace, in order. */
  function FilterBlank(qs: seq<string>): (r: seq<string>)
    ensures |r| <= |qs|
  {
    if qs == [] then []
    else FilterBlank(qs[..|qs| - 1]) + if IsBlank(qs[|qs| - 1]) then [] else [Strip(qs[|qs| - 1])]
  }

  /** Every kept sub-query is stripped and non-empty; nothing is kept exactly when every entry was blank. */
  lemma {:induction false} FilterBlankClean(qs: seq<string>)
    ensures forall i :: 0 <= i < |FilterBlank(qs)| ==> FilterBlank(qs)[i] != "" && Strip(FilterBlank(qs)[i]) == FilterBlank(qs)[i]
    ensures FilterBlank(qs) == [] <==> forall i :: 0 <= i < |qs| ==> IsBlank(qs[i])
  {
    if qs != [] {
      var prefix := qs[..|qs| - 1];
      var q := qs[|qs| - 1];
      FilterBlankClean(prefix);
      if !IsBlank(q) {
        StripEmptyIffBlank(q);
        StripIdempotent(q);
      }
      assert forall i :: 0 <= i < |prefix| ==> prefix[i] == qs[i];
    }
  }

  /** Filtering works entry by entry, so kept entries keep their relative order. */
  lemma {:induction false} FilterBlankConcat(a: seq<string>, b: seq<string>)
    ensures FilterBlank(a + b) == FilterBlank(a) + FilterBlank(b)
    decreases |b|
  {
    if b == [] {
      assert a + b == a;
    } else {
      var b' := b[..|b| - 1];
      assert (a + b)[..|a + b| - 1] == a + b';
      FilterBlankConcat(a, b');
    }
  }

  /** Every filtered sub-query goes to the search as a string (never `None`). */
  function AsSearchQueries(qs: seq<string>): (r: seq<Option<string>>)
    ensures |r| == |qs| && forall i :: 0 <= i < |qs| ==> r[i] == Some(qs[i])
  {
    seq(|qs|, i requires 0 <= i < |qs| => Some(qs[i]))
  }

  // ---------------------------------------------------------------------
  // Context, capsules
  // ---------------------------------------------------------------------

  /** Content of more than 500 characters is cut to its first 500 and marked with "...". */
  function Truncate(content: string): (r: string)
    ensures |content| <= 500 ==> r == content
    ensures |content| > 500 ==> |r| == 503 && r[..500] == content[..500] && r[500..] == "..."
  {
    if |content| > 500 then content[..500] + "..." else content
  }

  /** `metadata.get('filename', default)` */
  function FilenameOr(metadata: map<string, string>, default: string): string
  {
    if "filename" in metadata then metadata["filename"] else default
  }

  /** One context entry: `[source] content`, the i-th document's source defaulting to "연구자료{i+1}". */
  function ContextPart(doc: Doc, i: nat): string
  {
    "[" + FilenameOr(doc.metadata, "연구자료" + NatToString(i + 1)) + "] " + Truncate(Strip(doc.content))
  }

  function ContextParts(docs: seq<Doc>): (parts: seq<string>)
    ensures |parts| == |docs|
    ensures forall i :: 0 <= i < |docs| ==> parts[i] == ContextPart(docs[i], i)
  {
    MapIndexed(ContextPart, docs)
  }

  /** _format_vector_context */
  function FormatVectorContext(docs: seq<Doc>): string
  {
    if docs == [] then NoContextText else Join("\n\n", ContextParts(docs))
  }

  /** The context of one more document is the context so far, a blank line, and that document's entry. */
  lemma FormatVectorContextSnoc(docs: seq<Doc>, d: Doc)
    ensures FormatVectorContext(docs + [d]) ==
      if docs == [] then ContextPart(d, 0) else FormatVectorContext(docs) + "\n\n" + ContextPart(d, |docs|)
  {
    MapIndexedSnoc(ContextPart, docs, d);
    JoinSnoc("\n\n", ContextParts(docs), ContextPart(d, |docs|));
  }

  /** Each entry starts with the bracketed source and carries at most 503 characters of content. */
  lemma ContextPartShape(doc: Doc, i: nat)
    ensures var source := FilenameOr(doc.metadata, "연구자료" + NatToString(i + 1));
      ContextPart(doc, i)[..|source| + 3] == "[" + source + "] "
      && |ContextPart(doc, i)| <= |source| + 3 + 503
  {
  }

  /** `metadata.get('filename', 'Unknown')` per retrieved document. */
  function Sources(docs: seq<Doc>): (r: seq<string>)
    ensures |r| == |docs|
    ensures forall i :: 0 <= i < |docs| ==> r[i] == FilenameOr(docs[i].metadata, "Unknown")
  {
    seq(|docs|, i requires 0 <= i < |docs| => FilenameOr(docs[i].metadata, "Unknown"))
  }

  /** _generate_error_capsule */
  function ErrorCapsule(error: string): (c: Capsule)
    ensures !c.success && c.fallback && c.confidenceScore == 0.0 && c.error == Some(error) && c.sources == []
  {
    Capsule(false, SystemErrorMessage, "CheeU 톡톡", "오류", [], [], [], 0.0, FixedTimestamp, true, Some(error))
  }

  /** The per-type message of the fallback capsule. */
  const FallbackMessages: map<StressType, string> := map[
    XXX := "💚 평온 치유캡슐을 전달합니다. 지금 이 순간의 평온함을 느껴보세요. 당신은 충분히 잘하고 있어요.",
    OXX := "💛 희망 치유캡슐을 전달합니다. 힘든 마음이 느껴집니다. 작은 것부터 시작해보세요. 당신은 혼자가 아니에요.",
    XOX := "💙 안정 치유캡슐을 전달합니다. 불안한 마음을 이해해요. 깊게 숨을 쉬고 현재에 집중해보세요.",
    XXO := "🧡 균형 치유캡슐을 전달합니다. 일이 버겁게 느껴지시는군요. 우선순위를 정하고 하나씩 해결해보세요.",
    OOX := "💜 정리 치유캡슐을 전달합니다. 복잡한 감정들이 얽혀있는 것 같아요. 천천히 정리해나가봐요.",
    OXO := "🤍 회복 치유캡슐을 전달합니다. 많이 지치셨을 것 같아요. 잠깐 쉬어가도 괜찮습니다.",
    XOO := "💚 중심 치유캡슐을 전달합니다. 바쁘고 걱정이 많으시군요. 마음챙김으로 중심을 잡아보세요.",
    OOO := "❤️ 응급 치유캡슐을 전달합니다. 지금 당장 안전이 우선입니다. 주변 도움을 받는 것이 용기입니다."
  ]

  /** _generate_fallback_capsule: the type's emoji and message, three practice tips, confidence 0.3. */
  function FallbackCapsule(p: UserProfile): Capsule
  {
    var t := p.stressType;
    if t !in StressTypeProfiles then ErrorCapsule(UnknownStressTypeError)
    else
      var profile := StressTypeProfiles[t];
      var message := if t in FallbackMessages then FallbackMessages[t] else DefaultFallbackMessage;
      Capsule(true, profile.emoji + " " + message + PracticeTips, profile.emoji + " CheeU 톡톡", Value(t),
              MethodNames(profile.therapyMethods), [], p.personalKeywords, 0.3, FixedTimestamp, true, None)
  }

  /**
   * Every stress type has a profile and a message of its own, so the fallback
   * capsule is always a successful one carrying the type's own message and
   * methods, with no sources and confidence 0.3.
   */
  lemma FallbackCapsuleCovers(p: UserProfile)
    ensures var c := FallbackCapsule(p);
      && c.success && c.fallback && c.sources == [] && c.confidenceScore == 0.3 && c.error.None?
      && c.stressType == Value(p.stressType)
      && c.therapyMethodsUsed == MethodNames(StressTypeProfiles[p.stressType].therapyMethods)
      && c.healingMessage == StressTypeProfiles[p.stressType].emoji + " " + FallbackMessages[p.stressType] + PracticeTips
      && c.keywordsUsed == p.personalKeywords
  {
    ProfilesCoverEveryType(p.stressType);
  }

  /** The capsule of a successful generation. */
  function SuccessCapsule(p: UserProfile, reply: string, docs: seq<Doc>): (c: Capsule)
    ensures c.success && !c.fallback && c.error.None? && |c.sources| == |docs|
    ensures 0.0 <= c.confidenceScore <= 1.0
    ensures c.healingMessage != "" <==> !IsBlank(reply)
  {
    ProfilesCoverEveryType(p.stressType);
    ConfidenceBounds(docs, p.personalKeywords);
    StripEmptyIffBlank(reply);
    var profile := StressTypeProfiles[p.stressType];
    Capsule(true, Strip(reply), profile.emoji + " CheeU 톡톡", Value(p.stressType), MethodNames(profile.therapyMethods),
            Sources(docs), p.personalKeywords, Confidence(docs, p.personalKeywords), FixedTimestamp, false, None)
  }

  // ---------------------------------------------------------------------
  // The retry loop
  // ---------------------------------------------------------------------

  /** What one `predict` call does: return a text, or raise with a message. */
  datatype LlmOutcome = Reply(text: string) | LlmRaised(message: string)

  /** The language model's outcome at each attempt. */
  type Llm = nat -> LlmOutcome

  predicate Answered(o: LlmOutcome)
  {
    o.Reply? && !IsBlank(o.text)
  }

  /**
   * The loop from attempt `attempt` on: the first non-blank reply; a raise on
   * the last attempt propagates; otherwise the empty-response error.
   */
  function RetryFrom(llm: Llm, attempt: nat, maxRetries: int): Result<string>
    decreases maxRetries - attempt
  {
    if attempt >= maxRetries then Err(EmptyResponseError)
    else
      match llm(attempt)
      case Reply(text) => if !IsBlank(text) then Ok(text) else RetryFrom(llm, attempt + 1, maxRetries)
      case LlmRaised(message) => if attempt < maxRetries - 1 then RetryFrom(llm, attempt + 1, maxRetries) else Err(message)
  }

  function Retry(llm: Llm, maxRetries: int): Result<string>
  {
    RetryFrom(llm, 0, maxRetries)
  }

  /**
   * The retry loop succeeds exactly when some attempt below `maxRetries` answers,
   * and then with the FIRST answer; it fails with the last attempt's exception
   * when that attempt raised, and with the empty-response error otherwise.
   */
  lemma {:induction false} RetryFromSpec(llm: Llm, attempt: nat, maxRetries: int)
    ensures RetryFrom(llm, attempt, maxRetries).Ok? <==> exists i :: attempt <= i < maxRetries && Answered(llm(i))
    ensures RetryFrom(llm, attempt, maxRetries).Ok? ==>
      exists i :: attempt <= i < maxRetries && llm(i) == Reply(RetryFrom(llm, attempt, maxRetries).value) && Answered(llm(i))
        && forall j :: attempt <= j < i ==> !Answered(llm(j))
    ensures RetryFrom(llm, attempt, maxRetries).Err? ==>
      RetryFrom(llm, attempt, maxRetries).error ==
        if attempt < maxRetries && llm(maxRetries - 1).LlmRaised? then llm(maxRetries - 1).message else EmptyResponseError
    decreases maxRetries - attempt
  {
    if attempt < maxRetries {
      RetryFromSpec(llm, attempt + 1, maxRetries);
      if Answered(llm(attempt)) {
        assert llm(attempt) == Reply(llm(attempt).text);
      }
    }
  }

  /**
   * The retry loop of generate_healing_message. `calls` counts the `predict`
   * calls: never more than `maxRetries`, and a success comes from the last call
   * after only unanswered ones.
   */
  method CallWithRetries(llm: Llm, maxRetries: int) returns (r: Result<string>, calls: nat)
    ensures r == Retry(llm, maxRetries)
    ensures calls <= if maxRetries > 0 then maxRetries else 0
    ensures r.Ok? ==> 1 <= calls && llm(calls - 1) == Reply(r.value) && !IsBlank(r.value)
    ensures forall j :: 0 <= j < calls - 1 ==> !Answered(llm(j))
  {
    var response: Option<string> := None;
    var attempt: nat := 0;
    calls := 0;
    while attempt < maxRetries
      invariant attempt <= maxRetries || attempt == 0
      invariant calls == attempt
      invariant forall j :: 0 <= j < attempt ==> !Answered(llm(j))
      invariant response.Some? ==> IsBlank(response.value)
      invariant RetryFrom(llm, attempt, maxRetries) == Retry(llm, maxRetries)
    {
      var outcome := llm(attempt);
      calls := calls + 1;
      match outcome {
        case Reply(text) =>
          response := Some(text);
          if !IsBlank(text) {
            return Ok(text), calls;
          }
        case LlmRaised(message) =>
          if attempt >= maxRetries - 1 {
            return Err(message), calls;
          }
      }
      attempt := attempt + 1;
    }
    // Only blank replies (or none) were seen: `not response or not response.strip()` holds.
    r := Err(EmptyResponseError);
  }

  // ---------------------------------------------------------------------
  // generate_healing_message
  // ---------------------------------------------------------------------

  /** The capsule and the search cache after one generate_healing_message call. */
  function Generate(cache: Cache, store: Store, subQueriesHash: seq<Option<string>> -> int, maxRetries: int,
                    userInput: string, profile: Option<UserProfile>, llm: Llm): (Capsule, Cache)
  {
    if IsBlank(userInput) then (ErrorCapsule(EmptyInputError), cache)
    else if profile.None? || profile.value.nickname == "" then (ErrorCapsule(InvalidProfileError), cache)
    else
      var p := profile.value;
      var (docs, after) := PrioritySearch(cache, store, subQueriesHash, MainQuery(userInput, p.stressType),
                                          AsSearchQueries(FilterBlank(SubQueries(p))), MainWeight, SubWeight, ResultCount);
      (Answer(p, docs, llm, maxRetries), after)
  }

  /** The capsule for a validated request once the search returned `docs`: fallback, error or success. */
  function Answer(p: UserProfile, docs: seq<Doc>, llm: Llm, maxRetries: int): Capsule
  {
    if docs == [] then FallbackCapsule(p)
    else
      match Retry(llm, maxRetries)
      case Err(message) => ErrorCapsule(message)
      case Ok(reply) => SuccessCapsule(p, reply, docs)
  }

  /** A blank input, or a missing profile or nickname, yields the error capsule without searching. */
  lemma GenerateValidates(cache: Cache, store: Store, subQueriesHash: seq<Option<string>> -> int, maxRetries: int,
                          userInput: string, profile: Option<UserProfile>, llm: Llm)
    ensures var (c, after) := Generate(cache, store, subQueriesHash, maxRetries, userInput, profile, llm);
      && (IsBlank(userInput) ==> c == ErrorCapsule(EmptyInputError) && after == cache)
      && (!IsBlank(userInput) && (profile.None? || profile.value.nickname == "") ==> c == ErrorCapsule(InvalidProfileError) && after == cache)
  {
  }

  /**
   * Every capsule's confidence lies in [0, 1]; a failure is always an error
   * capsule (confidence 0, fallback, an error set); a fallback success has
   * confidence 0.3 and no sources; any other success carries a non-empty message.
   */
  lemma GenerateCapsuleShape(cache: Cache, store: Store, subQueriesHash: seq<Option<string>> -> int, maxRetries: int,
                             userInput: string, profile: Option<UserProfile>, llm: Llm)
    ensures var c := Generate(cache, store, subQueriesHash, maxRetries, userInput, profile, llm).0;
      && 0.0 <= c.confidenceScore <= 1.0
      && (!c.success ==> c.confidenceScore == 0.0 && c.fallback && c.error.Some? && c.sources == [])
      && (c.success && c.fallback ==> c.confidenceScore == 0.3 && c.sources == [])
      && (c.success && !c.fallback ==> c.healingMessage != "" && c.error.None?)
  {
    if !IsBlank(userInput) && profile.Some? && profile.value.nickname != "" {
      var p := profile.value;
      FallbackCapsuleCovers(p);
      GenerateBranches(cache, store, subQueriesHash, maxRetries, userInput, p, llm);
      if Retry(llm, maxRetries).Ok? {
        RetryFromSpec(llm, 0, maxRetries);
      }
    }
  }

  /** A call never grows the search cache past its bound. */
  lemma GenerateKeepsCacheBounded(cache: Cache, store: Store, subQueriesHash: seq<Option<string>> -> int, maxRetries: int,
                                  userInput: string, profile: Option<UserProfile>, llm: Llm)
    requires |cache| <= MaxCacheSize
    ensures |Generate(cache, store, subQueriesHash, maxRetries, userInput, profile, llm).1| <= MaxCacheSize
  {
    if !IsBlank(userInput) && profile.Some? && profile.value.nickname != "" {
      var p := profile.value;
      var query := MainQuery(userInput, p.stressType);
      var subQueries := AsSearchQueries(FilterBlank(SubQueries(p)));
      PrioritySearchKeepsCacheBounded(cache, store, subQueriesHash, query, subQueries, MainWeight, SubWeight, ResultCount);
    }
  }

  /** What every call returns: the three lemmas above together. */
  lemma GenerateOutcomes(cache: Cache, store: Store, subQueriesHash: seq<Option<string>> -> int, maxRetries: int,
                         userInput: string, profile: Option<UserProfile>, llm: Llm)
    requires |cache| <= MaxCacheSize
    ensures var (c, after) := Generate(cache, store, subQueriesHash, maxRetries, userInput, profile, llm);
      && (IsBlank(userInput) ==> c == ErrorCapsule(EmptyInputError) && after == cache)
      && (!IsBlank(userInput) && (profile.None? || profile.value.nickname == "") ==> c == ErrorCapsule(InvalidProfileError) && after == cache)
      && 0.0 <= c.confidenceScore <= 1.0
      && (!c.success ==> c.confidenceScore == 0.0 && c.fallback && c.error.Some? && c.sources == [])
      && (c.success && c.fallback ==> c.confidenceScore == 0.3 && c.sources == [])
      && (c.success && !c.fallback ==> c.healingMessage != "" && c.error.None?)
      && |after| <= MaxCacheSize
  {
    GenerateValidates(cache, store, subQueriesHash, maxRetries, userInput, profile, llm);
    GenerateCapsuleShape(cache, store, subQueriesHash, maxRetries, userInput, profile, llm);
    GenerateKeepsCacheBounded(cache, store, subQueriesHash, maxRetries, userInput, profile, llm);
  }

  /** An empty retrieval yields the fallback capsule; a failed retry loop yields the error capsule with its message. */
  lemma GenerateBranches(cache: Cache, store: Store, subQueriesHash: seq<Option<string>> -> int, maxRetries: int,
                         userInput: string, p: UserProfile, llm: Llm)
    requires !IsBlank(userInput) && p.nickname != ""
    ensures var docs := PrioritySearch(cache, store, subQueriesHash, MainQuery(userInput, p.stressType),
                                       AsSearchQueries(FilterBlank(SubQueries(p))), MainWeight, SubWeight, ResultCount).0;
      var c := Generate(cache, store, subQueriesHash, maxRetries, userInput, Some(p), llm).0;
      && (docs == [] ==> c == FallbackCapsule(p))
      && (docs != [] && Retry(llm, maxRetries).Err? ==> c == ErrorCapsule(Retry(llm, maxRetries).error))
      && (docs != [] && Retry(llm, maxRetries).Ok? ==>
            c == SuccessCapsule(p, Retry(llm, maxRetries).value, docs) && |c.sources| == |docs|)
  {
  }

  /** The chatbot: the vector database it searches and the number of model attempts. */
  class CheeUChatbot {
    const vectordb: CheeUVectorDB
    const maxRetries: int

    constructor(vectordb: CheeUVectorDB, maxRetries: int)
      ensures this.vectordb == vectordb && this.maxRetries == maxRetries
    {
      this.vectordb := vectordb;
      this.maxRetries := maxRetries;
    }

    /** generate_healing_message */
    method GenerateHealingMessage(userInput: string, profile: Option<UserProfile>, llm: Llm) returns (capsule: Capsule)
      requires vectordb.Valid()
      modifies vectordb
      ensures vectordb.Valid() && vectordb.store == old(vectordb.store)
      ensures (capsule, vectordb.cache) ==
        Generate(old(vectordb.cache), vectordb.store, vectordb.subQueriesHash, maxRetries, userInput, profile, llm)
    {
      if IsBlank(userInput) {
        return ErrorCapsule(EmptyInputError);
      }
      if profile.None? || profile.value.nickname == "" {
        return ErrorCapsule(InvalidProfileError);
      }
      var p := profile.value;
      var mainQuery := Strip(userInput) + " " + Value(p.stressType);
      var subQueries := AssembleSubQueries(p);
      subQueries := FilterBlank(subQueries);
      var docs := vectordb.SearchWithPriorityWeighting(mainQuery, AsSearchQueries(subQueries), MainWeight, SubWeight, ResultCount);
      if docs == [] {
        return FallbackCapsule(p);
      }
      var response, calls := CallWithRetries(llm, maxRetries);
      if response.Err? {
        return ErrorCapsule(response.error);
      }
      ProfilesCoverEveryType(p.stressType);
      var profileOfType := StressTypeProfiles[p.stressType];
      var confidence := CalculateSearchConfidence(docs, p.personalKeywords);
      capsule := Capsule(true, Strip(response.value), profileOfType.emoji + " CheeU 톡톡", Value(p.stressType),
                         MethodNames(profileOfType.therapyMethods), Sources(docs), p.personalKeywords, confidence,
                         FixedTimestamp, false, None);
    }
  }
}
