// The production pipeline: validation in front of the chatbot, the profile
// helper, the stress-type listing, and the batch loop with one entry per
// request.

module Pipeline {
  import opened Common
  import opened StressTypes
  import opened Models
  import opened Fusion
  import opened VectorDb
  import opened Chatbot

  const PipelineErrorMessage := "시스템 오류로 치유 메시지를 생성할 수 없습니다."
  const NotAProfileError := "올바른 UserProfile 객체가 필요합니다."
  const BlankRequestError := "user_input이 비어있습니다"
  /** str() of the TypeError the batch loop's call to create_user_profile raises. */
  const UnexpectedKeywordError := "CheeURagPipeline.create_user_profile() got an unexpected keyword argument 'personal_keywords'"

  /** get_stress_types: every member's name mapped to its value. */
  function StressTypeTable(): (table: map<string, string>)
    ensures forall t: StressType :: Name(t) in table && table[Name(t)] == Value(t)
  {
    map[Name(XXX) := Value(XXX), Name(OXX) := Value(OXX), Name(XOX) := Value(XOX), Name(XXO) := Value(XXO),
        Name(OOX) := Value(OOX), Name(OXO) := Value(OXO), Name(XOO) := Value(XOO), Name(OOO) := Value(OOO)]
  }

  /** The listing has exactly eight entries, and every key is some member's name. */
  lemma StressTypeTableKeys()
    ensures forall k :: k in StressTypeTable() ==> exists t: StressType :: Name(t) == k
    ensures |StressTypeTable()| == 8
  {
    var table := StressTypeTable();
    var names := {"XXX", "OXX", "XOX", "XXO", "OOX", "OXO", "XOO", "OOO"};
    assert table.Keys == names;
    assert |names| == 8;
    assert |table| == |table.Keys|;
  }

  /** create_user_profile: the survey keywords serve as survey features and as personal keywords. */
  function CreateUserProfile(nickname: string, age: int, gender: string, occupation: string, t: StressType,
                             surveyKeywords: seq<string>): (p: UserProfile)
    ensures p.surveyFeatures == surveyKeywords && p.personalKeywords == surveyKeywords
    ensures p.msi == 75.0 && p.psi == 68.0 && p.phq9Score.None? && p.gad7Score.None? && p.koss24Score.None?
    ensures p.nickname == nickname && p.age == age && p.stressType == t
  {
    UserProfile(nickname, age, gender, occupation, t, surveyKeywords, surveyKeywords, 75.0, 68.0, None, None, None)
  }

  /** The pipeline's own error capsule. */
  function PipelineErrorCapsule(error: string): (c: Capsule)
    ensures !c.success && c.fallback && c.confidenceScore == 0.0 && c.error == Some(error) && c.sources == []
  {
    Capsule(false, PipelineErrorMessage, "CheeU 톡톡", "오류", [], [], [], 0.0, FixedTimestamp, true, Some(error))
  }

  /** The vector store, the hash of the sub-query list, and the chatbot's attempt count. */
  datatype Backend = Backend(store: Store, subQueriesHash: seq<Option<string>> -> int, maxRetries: int)

  /** generate_healing_message: validate, then hand over to the chatbot. */
  function PipelineGenerate(b: Backend, cache: Cache, userInput: string, profile: Option<UserProfile>, llm: Llm): (Capsule, Cache)
  {
    if IsBlank(userInput) then (PipelineErrorCapsule(EmptyInputError), cache)
    else if profile.None? then (PipelineErrorCapsule(NotAProfileError), cache)
    else Generate(cache, b.store, b.subQueriesHash, b.maxRetries, userInput, profile, llm)
  }

  /** A blank input or a missing profile never reaches the chatbot or the cache; every capsule is well-formed. */
  lemma PipelineGenerateValidates(b: Backend, cache: Cache, userInput: string, profile: Option<UserProfile>, llm: Llm)
    requires |cache| <= MaxCacheSize
    ensures var (c, after) := PipelineGenerate(b, cache, userInput, profile, llm);
      && (IsBlank(userInput) ==> !c.success && c.confidenceScore == 0.0 && c.fallback && c.error == Some(EmptyInputError) && after == cache)
      && (profile.None? ==> !c.success && c.fallback && c.error.Some? && after == cache)
      && (!c.success ==> c.confidenceScore == 0.0 && c.fallback && c.error.Some?)
      && 0.0 <= c.confidenceScore <= 1.0
      && |after| <= MaxCacheSize
  {
    GenerateOutcomes(cache, b.store, b.subQueriesHash, b.maxRetries, userInput, profile, llm);
  }

  /** One batch request: every key is optional. */
  datatype Request<P> = Request(
    userInput: Option<string>,
    userProfile: Option<P>,
    nickname: Option<string>,
    age: Option<int>,
    gender: Option<string>,
    occupation: Option<string>,
    stressType: Option<StressType>,
    personalKeywords: Option<seq<string>>)

  /** One entry of the batch result: the capsule's dictionary, or the exception's text. */
  datatype BatchEntry = Succeeded(requestId: nat, result: map<string, Field>) | Failed(requestId: nat, error: string)

  /** How the batch loop obtains a profile for the `i`-th request when it carries none. */
  datatype Admission = AsWritten | WithDefaults

  /** The profile built from the request's fields and the defaults: 사용자{i+1}, 25, 기타, 기타, XXX, no keywords. */
  function AdmitWithDefaults(i: nat, r: Request<UserProfile>): (p: UserProfile)
    ensures p.nickname == r.nickname.GetOr("사용자" + NatToString(i + 1))
    ensures r.nickname.None? ==> p.nickname[..3] == "사용자" && DecimalValue(p.nickname[3..]) == i + 1
    ensures p.age == r.age.GetOr(25) && p.gender == r.gender.GetOr("기타") && p.occupation == r.occupation.GetOr("기타")
    ensures p.stressType == r.stressType.GetOr(XXX) && p.personalKeywords == r.personalKeywords.GetOr([])
  {
    NatToStringRoundTrip(i + 1);
    CreateUserProfile(r.nickname.GetOr("사용자" + NatToString(i + 1)), r.age.GetOr(25), r.gender.GetOr("기타"),
                      r.occupation.GetOr("기타"), r.stressType.GetOr(XXX), r.personalKeywords.GetOr([]))
  }

  function Admit(admission: Admission, i: nat, r: Request<UserProfile>): Result<UserProfile>
  {
    match admission
    case AsWritten => Err(UnexpectedKeywordError)
    case WithDefaults => Ok(AdmitWithDefaults(i, r))
  }

  /** The body of the batch loop for the `i`-th request. */
  function ProcessRequest(b: Backend, cache: Cache, i: nat, r: Request<UserProfile>, llm: Llm, admission: Admission): (BatchEntry, Cache)
  {
    var userInput := Strip(r.userInput.GetOr(""));
    if userInput == "" then (Failed(i, BlankRequestError), cache)
    else
      var profile := if r.userProfile.Some? then Ok(r.userProfile.value) else Admit(admission, i, r);
      match profile
      case Err(e) => (Failed(i, e), cache)
      case Ok(p) =>
        var (capsule, after) := PipelineGenerate(b, cache, userInput, Some(p), llm);
        (Succeeded(i, ToDict(capsule)), after)
  }

  /** One turn of the batch loop: the entry for request `i` and the cache it leaves behind. */
  type Step = (Cache, nat, Request<UserProfile>) -> (BatchEntry, Cache)

  /** The loop over the requests, in order, threading the cache from turn to turn. */
  function Fold(step: Step, cache: Cache, requests: seq<Request<UserProfile>>): (seq<BatchEntry>, Cache)
  {
    if requests == [] then ([], cache)
    else
      var n := |requests| - 1;
      var (entries, before) := Fold(step, cache, requests[..n]);
      var (entry, after) := step(before, n, requests[n]);
      (entries + [entry], after)
  }

  /** A step that never grows a bounded cache past its bound. */
  ghost predicate KeepsCacheBounded(step: Step)
  {
    forall c: Cache, i: nat, r: Request<UserProfile> :: |c| <= MaxCacheSize ==> |step(c, i, r).1| <= MaxCacheSize
  }

  /** One entry per request, and a bounded cache stays bounded. */
  lemma {:induction false} FoldLength(step: Step, cache: Cache, requests: seq<Request<UserProfile>>)
    ensures |Fold(step, cache, requests).0| == |requests|
    ensures KeepsCacheBounded(step) && |cache| <= MaxCacheSize ==> |Fold(step, cache, requests).1| <= MaxCacheSize
  {
    if requests != [] {
      FoldLength(step, cache, requests[..|requests| - 1]);
    }
  }

  /** Entry `i` is what the step makes of request `i` against the cache the first `i` requests left. */
  lemma {:induction false} FoldEntryAt(step: Step, cache: Cache, requests: seq<Request<UserProfile>>, i: nat)
    requires i < |requests|
    ensures |Fold(step, cache, requests).0| == |requests|
    ensures Fold(step, cache, requests).0[i] == step(Fold(step, cache, requests[..i]).1, i, requests[i]).0
  {
    var n := |requests| - 1;
    FoldLength(step, cache, requests);
    FoldLength(step, cache, requests[..n]);
    if i < n {
      FoldEntryAt(step, cache, requests[..n], i);
      assert requests[..n][..i] == requests[..i];
    }
  }

  function BatchStep(b: Backend, llms: nat -> Llm, admission: Admission): Step
  {
    (c: Cache, i: nat, r: Request<UserProfile>) => ProcessRequest(b, c, i, r, llms(i), admission)
  }

  /** batch_generate_healing_messages: the entries of all requests, in order, and the cache afterwards. */
  function Batch(b: Backend, cache: Cache, requests: seq<Request<UserProfile>>, llms: nat -> Llm, admission: Admission): (seq<BatchEntry>, Cache)
  {
    Fold(BatchStep(b, llms, admission), cache, requests)
  }

  /** The batch over one more request appends that request's entry and passes on its cache. */
  lemma BatchSnoc(b: Backend, cache: Cache, requests: seq<Request<UserProfile>>, llms: nat -> Llm, admission: Admission, i: nat)
    requires i < |requests|
    ensures var (entries, before) := Batch(b, cache, requests[..i], llms, admission);
      Batch(b, cache, requests[..i + 1], llms, admission)
        == (entries + [ProcessRequest(b, before, i, requests[i], llms(i), admission).0],
            ProcessRequest(b, before, i, requests[i], llms(i), admission).1)
  {
    assert requests[..i + 1][..i] == requests[..i];
  }

  /** What decides whether a request fails, given how profile-less requests are admitted. */
  predicate Fails(r: Request<UserProfile>, admission: Admission)
  {
    Strip(r.userInput.GetOr("")) == "" || (r.userProfile.None? && admission == AsWritten)
  }

  /** The request's entry depends only on the request, its index and the admission, except for the capsule. */
  lemma ProcessRequestOutcome(b: Backend, cache: Cache, i: nat, r: Request<UserProfile>, llm: Llm, admission: Admission)
    requires |cache| <= MaxCacheSize
    ensures var (entry, after) := ProcessRequest(b, cache, i, r, llm, admission);
      && entry.requestId == i
      && (entry.Failed? <==> Fails(r, admission))
      && (entry.Failed? ==> after == cache)
      && |after| <= MaxCacheSize
      && (Strip(r.userInput.GetOr("")) == "" ==> entry == Failed(i, BlankRequestError))
      && (Strip(r.userInput.GetOr("")) != "" && r.userProfile.None? && admission == AsWritten ==> entry == Failed(i, UnexpectedKeywordError))
  {
    var userInput := Strip(r.userInput.GetOr(""));
    if userInput != "" && (r.userProfile.Some? || admission == WithDefaults) {
      var p := if r.userProfile.Some? then r.userProfile.value else AdmitWithDefaults(i, r);
      PipelineGenerateValidates(b, cache, userInput, Some(p), llm);
    }
  }

  lemma BatchStepKeepsCacheBounded(b: Backend, llms: nat -> Llm, admission: Admission)
    ensures KeepsCacheBounded(BatchStep(b, llms, admission))
  {
    forall c: Cache, i: nat, r: Request<UserProfile> | |c| <= MaxCacheSize
      ensures |BatchStep(b, llms, admission)(c, i, r).1| <= MaxCacheSize
    {
      ProcessRequestOutcome(b, c, i, r, llms(i), admission);
    }
  }

  /**
   * One entry per request, entry `i` carrying request id `i`; an entry is a
   * failure exactly when its request fails, a blank input giving the blank-input
   * error and (as written) a missing profile the TypeError; the cache stays bounded.
   */
  lemma BatchShape(b: Backend, cache: Cache, requests: seq<Request<UserProfile>>, llms: nat -> Llm, admission: Admission)
    requires |cache| <= MaxCacheSize
    ensures |Batch(b, cache, requests, llms, admission).0| == |requests|
    ensures |Batch(b, cache, requests, llms, admission).1| <= MaxCacheSize
    ensures var entries := Batch(b, cache, requests, llms, admission).0;
      forall i :: 0 <= i < |requests| ==>
        && entries[i].requestId == i
        && (entries[i].Failed? <==> Fails(requests[i], admission))
        && (Strip(requests[i].userInput.GetOr("")) == "" ==> entries[i] == Failed(i, BlankRequestError))
        && (Strip(requests[i].userInput.GetOr("")) != "" && requests[i].userProfile.None? && admission == AsWritten ==>
              entries[i] == Failed(i, UnexpectedKeywordError))
  {
    var step := BatchStep(b, llms, admission);
    FoldLength(step, cache, requests);
    BatchStepKeepsCacheBounded(b, llms, admission);
    var entries := Batch(b, cache, requests, llms, admission).0;
    forall i | 0 <= i < |requests|
      ensures entries[i].requestId == i
      ensures entries[i].Failed? <==> Fails(requests[i], admission)
      ensures Strip(requests[i].userInput.GetOr("")) == "" ==> entries[i] == Failed(i, BlankRequestError)
      ensures Strip(requests[i].userInput.GetOr("")) != "" && requests[i].userProfile.None? && admission == AsWritten ==>
              entries[i] == Failed(i, UnexpectedKeywordError)
    {
      FoldEntryAt(step, cache, requests, i);
      FoldLength(step, cache, requests[..i]);
      ProcessRequestOutcome(b, Fold(step, cache, requests[..i]).1, i, requests[i], llms(i), admission);
    }
  }

  /** The number of batch entries marked successful. */
  function SuccessCount(entries: seq<BatchEntry>): (n: nat)
    ensures n <= |entries|
  {
    if entries == [] then 0
    else SuccessCount(entries[..|entries| - 1]) + if entries[|entries| - 1].Succeeded? then 1 else 0
  }

  /** The number of requests that do not fail. */
  function PassingCount(requests: seq<Request<UserProfile>>, admission: Admission): nat
  {
    if requests == [] then 0
    else PassingCount(requests[..|requests| - 1], admission) + if Fails(requests[|requests| - 1], admission) then 0 else 1
  }

  /**
   * The success count is the number of requests with a non-blank input (and, as
   * written, a profile of their own).
   */
  lemma {:induction false} SuccessCountCountsPassing(b: Backend, cache: Cache, requests: seq<Request<UserProfile>>, llms: nat -> Llm, admission: Admission)
    requires |cache| <= MaxCacheSize
    ensures SuccessCount(Batch(b, cache, requests, llms, admission).0) == PassingCount(requests, admission)
  {
    if requests != [] {
      var n := |requests| - 1;
      var step := BatchStep(b, llms, admission);
      SuccessCountCountsPassing(b, cache, requests[..n], llms, admission);
      FoldLength(step, cache, requests);
      FoldLength(step, cache, requests[..n]);
      BatchStepKeepsCacheBounded(b, llms, admission);
      var before := Fold(step, cache, requests[..n]);
      var entries := Fold(step, cache, requests).0;
      assert entries == before.0 + [step(before.1, n, requests[n]).0];
      ProcessRequestOutcome(b, before.1, n, requests[n], llms(n), admission);
      assert entries[..n] == before.0;
    }
  }

  /**
   * As written, a batch in which no request carries a profile has no successes;
   * admitted with the defaults, every request with a non-blank input succeeds.
   */
  lemma ProfilelessBatchFailsAsWritten(b: Backend, cache: Cache, requests: seq<Request<UserProfile>>, llms: nat -> Llm)
    requires |cache| <= MaxCacheSize
    requires forall i :: 0 <= i < |requests| ==> requests[i].userProfile.None?
    ensures |Batch(b, cache, requests, llms, AsWritten).0| == |requests|
    ensures SuccessCount(Batch(b, cache, requests, llms, AsWritten).0) == 0
    ensures forall i :: 0 <= i < |requests| ==> Batch(b, cache, requests, llms, AsWritten).0[i].Failed?
  {
    BatchShape(b, cache, requests, llms, AsWritten);
    SuccessCountCountsPassing(b, cache, requests, llms, AsWritten);
    PassingCountZero(requests);
  }

  lemma {:induction false} PassingCountZero(requests: seq<Request<UserProfile>>)
    requires forall i :: 0 <= i < |requests| ==> requests[i].userProfile.None?
    ensures PassingCount(requests, AsWritten) == 0
  {
    if requests != [] {
      PassingCountZero(requests[..|requests| - 1]);
    }
  }

  lemma DefaultsAdmitEveryNonBlankRequest(b: Backend, cache: Cache, requests: seq<Request<UserProfile>>, llms: nat -> Llm)
    requires |cache| <= MaxCacheSize
    ensures |Batch(b, cache, requests, llms, WithDefaults).0| == |requests|
    ensures var entries := Batch(b, cache, requests, llms, WithDefaults).0;
      forall i :: 0 <= i < |requests| ==> (entries[i].Succeeded? <==> Strip(requests[i].userInput.GetOr("")) != "")
  {
    BatchShape(b, cache, requests, llms, WithDefaults);
  }

  /** The pipeline: the chatbot it delegates to. */
  class RagPipeline {
    const chatbot: CheeUChatbot

    constructor(chatbot: CheeUChatbot)
      ensures this.chatbot == chatbot
    {
      this.chatbot := chatbot;
    }

    function Env(): Backend
      reads chatbot.vectordb
    {
      Backend(chatbot.vectordb.store, chatbot.vectordb.subQueriesHash, chatbot.maxRetries)
    }

    /** generate_healing_message */
    method GenerateHealingMessage(userInput: string, profile: Option<UserProfile>, llm: Llm) returns (capsule: Capsule)
      requires chatbot.vectordb.Valid()
      modifies chatbot.vectordb
      ensures chatbot.vectordb.Valid() && chatbot.vectordb.store == old(chatbot.vectordb.store)
      ensures (capsule, chatbot.vectordb.cache) == PipelineGenerate(old(Env()), old(chatbot.vectordb.cache), userInput, profile, llm)
    {
      if IsBlank(userInput) {
        return PipelineErrorCapsule(EmptyInputError);
      }
      if profile.None? {
        return PipelineErrorCapsule(NotAProfileError);
      }
      capsule := chatbot.GenerateHealingMessage(userInput, profile, llm);
    }

    /** The body of the batch loop for the `i`-th request, a profile-less request admitted as `admission` says. */
    method ProcessOne(i: nat, request: Request<UserProfile>, llm: Llm, admission: Admission) returns (entry: BatchEntry)
      requires chatbot.vectordb.Valid()
      modifies chatbot.vectordb
      ensures chatbot.vectordb.Valid() && chatbot.vectordb.store == old(chatbot.vectordb.store)
      ensures (entry, chatbot.vectordb.cache) == ProcessRequest(old(Env()), old(chatbot.vectordb.cache), i, request, llm, admission)
    {
      var userInput := Strip(request.userInput.GetOr(""));
      if userInput == "" {
        return Failed(i, BlankRequestError);
      }
      var profile := request.userProfile;
      if profile.None? {
        if admission == AsWritten {
          // create_user_profile is called with a keyword argument it does not declare.
          return Failed(i, UnexpectedKeywordError);
        }
        profile := Some(AdmitWithDefaults(i, request));
      }
      var capsule := GenerateHealingMessage(userInput, profile, llm);
      entry := Succeeded(i, ToDict(capsule));
    }

    /**
     * batch_generate_healing_messages. With `AsWritten` a request without a
     * profile raises the TypeError; with `WithDefaults` it gets the default profile.
     */
    method BatchGenerateHealingMessages(requests: seq<Request<UserProfile>>, llms: nat -> Llm, admission: Admission) returns (results: seq<BatchEntry>)
      requires chatbot.vectordb.Valid()
      modifies chatbot.vectordb
      ensures chatbot.vectordb.Valid() && chatbot.vectordb.store == old(chatbot.vectordb.store)
      ensures (results, chatbot.vectordb.cache) == Batch(old(Env()), old(chatbot.vectordb.cache), requests, llms, admission)
    {
      results := [];
      if requests == [] {
        return;
      }
      var i := 0;
      while i < |requests|
        invariant 0 <= i <= |requests|
        invariant chatbot.vectordb.Valid() && chatbot.vectordb.store == old(chatbot.vectordb.store)
        invariant Env() == old(Env())
        invariant (results, chatbot.vectordb.cache) == Batch(Env(), old(chatbot.vectordb.cache), requests[..i], llms, admission)
      {
        BatchSnoc(Env(), old(chatbot.vectordb.cache), requests, llms, admission, i);
        var entry := ProcessOne(i, requests[i], llms(i), admission);
        results := results + [entry];
        i := i + 1;
      }
      assert requests[..i] == requests;
    }
  }
}
