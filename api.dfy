// The convenience API of the production package: the process-wide pipeline
// singleton, the stress-type information lookup, the simple profile helper and
// the batch summary.

module Api {
  import opened Common
  import opened StressTypes
  import opened Models
  import opened VectorDb
  import opened Chatbot
  import opened Pipeline

  /** One use of the singleton: get_pipeline with what create_pipeline would give now, or reset_pipeline. */
  datatype RegistryCall<P> = Get(create: Result<P>) | Reset

  /**
   * get_pipeline on the instance slot: an existing instance is returned and kept
   * whatever the arguments; otherwise create_pipeline runs, and a raised error
   * leaves the slot empty.
   */
  function GetStep<P>(instance: Option<P>, create: Result<P>): (out: (Result<P>, Option<P>))
    ensures instance.Some? ==> out == (Ok(instance.value), instance)
    ensures instance.None? ==> out.0 == create && (out.1.Some? <==> create.Ok?)
    ensures out.1.Some? ==> out.0 == Ok(out.1.value)
  {
    if instance.Some? then (Ok(instance.value), instance)
    else
      match create
      case Ok(p) => (Ok(p), Some(p))
      case Err(e) => (Err(e), None)
  }

  /** A run of calls from a given slot: the results of the gets, in order, and the final slot. */
  function RunRegistry<P>(instance: Option<P>, calls: seq<RegistryCall<P>>): (seq<Result<P>>, Option<P>)
  {
    if calls == [] then ([], instance)
    else
      var (results, slot) := RunRegistry(instance, calls[..|calls| - 1]);
      match calls[|calls| - 1]
      case Reset => (results, None)
      case Get(create) =>
        var (r, after) := GetStep(slot, create);
        (results + [r], after)
  }

  function GetCount<P>(calls: seq<RegistryCall<P>>): (n: nat)
    ensures n <= |calls|
  {
    if calls == [] then 0 else GetCount(calls[..|calls| - 1]) + if calls[|calls| - 1].Get? then 1 else 0
  }

  /**
   * Without a reset in between, every get after an instance exists returns that
   * same instance, whatever would have been created, and the slot keeps it.
   */
  lemma {:induction false} SingletonIsSticky<P>(x: P, calls: seq<RegistryCall<P>>)
    requires forall i :: 0 <= i < |calls| ==> calls[i].Get?
    ensures var (results, slot) := RunRegistry(Some(x), calls);
      && |results| == |calls|
      && slot == Some(x)
      && forall i :: 0 <= i < |results| ==> results[i] == Ok(x)
  {
    if calls != [] {
      SingletonIsSticky(x, calls[..|calls| - 1]);
    }
  }

  /** After a reset the next get builds a fresh instance: its result is whatever create_pipeline gives. */
  lemma ResetThenGetCreates<P>(instance: Option<P>, calls: seq<RegistryCall<P>>, create: Result<P>)
    ensures var (results, slot) := RunRegistry(instance, calls + [Reset, Get(create)]);
      && |results| >= 1
      && results[|results| - 1] == create
      && (slot.Some? <==> create.Ok?)
  {
    var all := calls + [Reset, Get(create)];
    assert all[..|all| - 1] == calls + [Reset];
    assert (calls + [Reset])[..|calls|] == calls;
  }

  /** Each get yields exactly one result, and a reset none. */
  lemma {:induction false} OneResultPerGet<P>(instance: Option<P>, calls: seq<RegistryCall<P>>)
    ensures |RunRegistry(instance, calls).0| == GetCount(calls)
  {
    if calls != [] {
      OneResultPerGet(instance, calls[..|calls| - 1]);
    }
  }

  /** The module's `_pipeline_instance` global. */
  class PipelineRegistry {
    var instance: Option<RagPipeline>

    constructor()
      ensures instance.None?
    {
      instance := None;
    }

    /** The held instance's backend can be searched: its cache is within bounds. */
    predicate Valid()
      reads this, if instance.Some? then {instance.value.chatbot.vectordb} else {}
    {
      instance.Some? ==> instance.value.chatbot.vectordb.Valid()
    }

    /** get_pipeline; `create` is what create_pipeline would return or raise if it were called now. */
    method GetPipeline(create: Result<RagPipeline>) returns (r: Result<RagPipeline>)
      modifies this
      ensures (r, instance) == GetStep(old(instance), create)
    {
      if instance.None? {
        match create
        case Ok(p) =>
          instance := Some(p);
        case Err(e) =>
          return Err(e);
      }
      r := Ok(instance.value);
    }

    /** reset_pipeline */
    method ResetPipeline()
      modifies this
      ensures instance.None?
    {
      instance := None;
    }

    /**
     * batch_healing_messages: obtain the singleton, run its batch, and count.
     * The batch admits profile-less requests as `admission` says.
     */
    method BatchHealingMessages(create: Result<RagPipeline>, requests: seq<Request<UserProfile>>, llms: nat -> Llm,
                                admission: Admission) returns (summary: BatchSummary)
      requires Valid()
      requires create.Ok? ==> create.value.chatbot.vectordb.Valid()
      modifies this, if instance.Some? then {instance.value.chatbot.vectordb} else {},
               if create.Ok? then {create.value.chatbot.vectordb} else {}
      ensures Valid()
      ensures (summary.BatchDone? <==> old(instance).Some? || create.Ok?)
      ensures summary.BatchDone? ==>
        && instance == GetStep(old(instance), create).1 && instance.Some?
        && summary == Summarize(|requests|, summary.results)
        && var p := instance.value;
           summary.results == Batch(old(p.Env()), old(p.chatbot.vectordb.cache), requests, llms, admission).0
      ensures summary.BatchDone? ==>
        var p := instance.value;
        p.chatbot.vectordb.cache == Batch(old(p.Env()), old(p.chatbot.vectordb.cache), requests, llms, admission).1
      ensures summary.BatchAborted? ==> summary == BatchAborted(create.error) && instance == None
    {
      var got := GetPipeline(create);
      if got.Err? {
        return BatchAborted(got.error);
      }
      var pipeline := got.value;
      var results := pipeline.BatchGenerateHealingMessages(requests, llms, admission);
      summary := Summarize(|requests|, results);
    }
  }

  /** The dictionary batch_healing_messages returns. */
  datatype BatchSummary =
    | BatchDone(totalRequests: nat, successfulRequests: nat, failedRequests: int, results: seq<BatchEntry>)
    | BatchAborted(error: string)

  /** The counts: all requests, the successful entries, and the rest. */
  function Summarize(total: nat, results: seq<BatchEntry>): (s: BatchSummary)
    ensures s.BatchDone? && s.totalRequests == total && s.results == results
    ensures s.successfulRequests + s.failedRequests == total && s.successfulRequests <= |results|
    ensures |results| <= total ==> s.failedRequests >= 0
  {
    var successes := SuccessCount(results);
    BatchDone(total, successes, total - successes, results)
  }

  /**
   * Over a batch's own results the counts add up, no count is negative, and the
   * successes are the requests that pass validation.
   */
  lemma SummaryCounts(b: Backend, cache: Cache, requests: seq<Request<UserProfile>>, llms: nat -> Llm, admission: Admission)
    requires |cache| <= MaxCacheSize
    ensures var s := Summarize(|requests|, Batch(b, cache, requests, llms, admission).0);
      && s.successfulRequests + s.failedRequests == s.totalRequests == |requests|
      && s.failedRequests >= 0
      && s.successfulRequests == PassingCount(requests, admission)
  {
    BatchShape(b, cache, requests, llms, admission);
    SuccessCountCountsPassing(b, cache, requests, llms, admission);
  }

  /** The character part of get_stress_type_info: the profile's emoji and therapy names, or the robot and nothing. */
  datatype StressTypeInfo = StressTypeInfo(stressType: string, stressCode: string, emoji: string,
                                           therapyMethods: seq<string>, description: string)

  const UnknownEmoji := "🤖"

  /** get_stress_type_info */
  function GetStressTypeInfo(depression: bool, anxiety: bool, workStress: bool): (info: StressTypeInfo)
    ensures info.stressCode == SurveyCode(depression, anxiety, workStress)
    ensures exists t: StressType :: Name(t) == info.stressCode && info.stressType == Value(t)
    ensures info.emoji != UnknownEmoji && |info.therapyMethods| >= 1
    ensures info.description != UnknownDescription
  {
    var code := SurveyCode(depression, anxiety, workStress);
    var t := CodeTable(code).GetOr(XXX);
    ProfilesCoverEveryType(t);
    DescriptionsCoverEveryType(t);
    assert Name(t) == code by {
      EveryCodeIsMapped(depression, anxiety, workStress);
      CodeTableInvertsName(CodeTable(code).value, code);
    }
    var emoji := if t in StressTypeProfiles then StressTypeProfiles[t].emoji else UnknownEmoji;
    var methods := if t in StressTypeProfiles then MethodNames(StressTypeProfiles[t].therapyMethods) else [];
    StressTypeInfo(Value(t), code, emoji, methods, StressTypeDescription(t))
  }

  const UnknownDescription := "스트레스 상태에 대한 정보를 찾을 수 없습니다."

  const StressTypeDescriptions: map<StressType, string> := map[
    XXX := "평온한 상태로, 마음챙김을 통한 현재 상태 유지가 도움됩니다.",
    OXX := "우울감을 경험하고 있으며, 긍정심리치료와 마음챙김이 효과적입니다.",
    XOX := "불안감을 느끼고 있으며, 수용전념치료와 마음챙김이 도움됩니다.",
    XXO := "직무 관련 스트레스를 경험하고 있으며, 수용전념치료와 인지행동치료가 효과적입니다.",
    OOX := "우울과 불안을 동시에 경험하고 있으며, 긍정심리치료와 수용전념치료가 필요합니다.",
    OXO := "우울과 직무스트레스를 겪고 있으며, 긍정심리치료와 수용전념치료가 도움됩니다.",
    XOO := "불안과 직무스트레스를 경험하고 있으며, 수용전념치료와 인지행동치료가 효과적입니다.",
    OOO := "복합적인 스트레스 상황으로, 긍정심리치료, 수용전념치료, 변증법적행동치료가 모두 필요합니다."
  ]

  /** _get_stress_type_description */
  function StressTypeDescription(t: StressType): string
  {
    if t in StressTypeDescriptions then StressTypeDescriptions[t] else UnknownDescription
  }

  /** Every type has its own description: the default is never returned and no two types share one. */
  lemma DescriptionsCoverEveryType(t: StressType)
    ensures t in StressTypeDescriptions
    ensures StressTypeDescription(t) != UnknownDescription
    ensures forall u :: u != t ==> StressTypeDescription(u) != StressTypeDescription(t)
  {
  }

  /** create_user_profile_simple */
  function CreateUserProfileSimple(nickname: string, age: int, gender: string, occupation: string,
                                   depression: bool, anxiety: bool, workStress: bool,
                                   personalKeywords: Option<seq<string>>): (p: UserProfile)
    ensures Name(p.stressType) == SurveyCode(depression, anxiety, workStress)
    ensures p.personalKeywords == personalKeywords.GetOr([])
    ensures p.surveyFeatures == ["기본_설문_기반"] && p.msi == 75.0 && p.psi == 68.0
    ensures p.phq9Score.None? && p.gad7Score.None? && p.koss24Score.None?
    ensures p.nickname == nickname && p.age == age && p.gender == gender && p.occupation == occupation
  {
    var t := CodeTable(SurveyCode(depression, anxiety, workStress)).GetOr(XXX);
    assert t == Classify(depression, anxiety, workStress);
    UserProfile(nickname, age, gender, occupation, t, ["기본_설문_기반"], personalKeywords.GetOr([]), 75.0, 68.0,
                None, None, None)
  }

  /** The profile helper and the information lookup pick the same type for the same answers. */
  lemma ProfileAndInfoAgree(nickname: string, age: int, gender: string, occupation: string,
                            depression: bool, anxiety: bool, workStress: bool, personalKeywords: Option<seq<string>>)
    ensures var p := CreateUserProfileSimple(nickname, age, gender, occupation, depression, anxiety, workStress, personalKeywords);
      var info := GetStressTypeInfo(depression, anxiety, workStress);
      && Name(p.stressType) == info.stressCode
      && Value(p.stressType) == info.stressType
      && p.stressType == Classify(depression, anxiety, workStress)
  {
    var p := CreateUserProfileSimple(nickname, age, gender, occupation, depression, anxiety, workStress, personalKeywords);
    var info := GetStressTypeInfo(depression, anxiety, workStress);
    var t :| Name(t) == info.stressCode && info.stressType == Value(t);
    var c := Classify(depression, anxiety, workStress);
    if p.stressType != t {
      ValuesAndNamesDistinct(p.stressType, t);
    }
    if c != t {
      ValuesAndNamesDistinct(c, t);
    }
  }
}
