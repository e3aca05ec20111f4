// The first version's pipeline wrapper: the profile helper and the batch loop
// over the first version's chatbot. A request without a profile gets the
// default profile, and since that chatbot turns every failure into a capsule,
// every request yields a success entry.

module LegacyPipeline {
  import opened Common
  import opened StressTypes
  import opened Models
  import opened Fusion
  import opened Chatbot
  import opened LegacyChatbot
  import opened Pipeline

  const DefaultMsi: real := 75.0
  const DefaultPsi: real := 68.0

  /** create_user_profile of the first version: the given fields, no survey scores. */
  function LegacyCreateUserProfile(nickname: string, age: int, gender: string, occupation: string, t: StressType,
                                   personalKeywords: seq<string>, msi: real, psi: real): (p: LegacyUserProfile)
    ensures p.nickname == nickname && p.age == age && p.gender == gender && p.occupation == occupation
    ensures p.stressType == t && p.personalKeywords == personalKeywords && p.msi == msi && p.psi == psi
    ensures p.phq9Score.None? && p.gad7Score.None? && p.koss24Score.None?
  {
    LegacyUserProfile(nickname, age, gender, occupation, t, personalKeywords, msi, psi, None, None, None)
  }

  /**
   * The profile the batch loop builds for the `i`-th request when it carries
   * none: each missing field takes its default (사용자{i+1}, 25, 기타, 기타, XXX, no keywords).
   */
  function DefaultProfile(i: nat, r: Request<LegacyUserProfile>): (p: LegacyUserProfile)
    ensures p.nickname == r.nickname.GetOr("사용자" + NatToString(i + 1))
    ensures r.nickname.None? ==> p.nickname[..3] == "사용자" && DecimalValue(p.nickname[3..]) == i + 1
    ensures p.age == r.age.GetOr(25) && p.gender == r.gender.GetOr("기타") && p.occupation == r.occupation.GetOr("기타")
    ensures p.stressType == r.stressType.GetOr(XXX) && p.personalKeywords == r.personalKeywords.GetOr([])
    ensures p.msi == 75.0 && p.psi == 68.0
  {
    NatToStringRoundTrip(i + 1);
    LegacyCreateUserProfile(r.nickname.GetOr("사용자" + NatToString(i + 1)), r.age.GetOr(25), r.gender.GetOr("기타"),
                            r.occupation.GetOr("기타"), r.stressType.GetOr(XXX), r.personalKeywords.GetOr([]),
                            DefaultMsi, DefaultPsi)
  }

  /** The profile a request is served with: its own, or the default one. */
  function ProfileFor(i: nat, r: Request<LegacyUserProfile>): LegacyUserProfile
  {
    if r.userProfile.Some? then r.userProfile.value else DefaultProfile(i, r)
  }

  /** The body of the batch loop for the `i`-th request; `reply` and `now` are its model reply and clock reading. */
  function LegacyProcessRequest(store: Store, i: nat, r: Request<LegacyUserProfile>, reply: LlmOutcome, now: string): (e: BatchEntry)
    ensures e.Succeeded? && e.requestId == i
  {
    Succeeded(i, ToDict(LegacyGenerate(store, r.userInput.GetOr(""), Some(ProfileFor(i, r)), reply, now)))
  }

  /** A loop body that makes one entry of request `i` alone. */
  type EntryStep = (nat, Request<LegacyUserProfile>) -> BatchEntry

  /** Running the loop body over the requests in order, one entry each. */
  function MapRequests(step: EntryStep, requests: seq<Request<LegacyUserProfile>>): (entries: seq<BatchEntry>)
    ensures |entries| == |requests|
    ensures forall i :: 0 <= i < |requests| ==> entries[i] == step(i, requests[i])
  {
    if requests == [] then []
    else MapRequests(step, requests[..|requests| - 1]) + [step(|requests| - 1, requests[|requests| - 1])]
  }

  function LegacyStep(store: Store, replies: nat -> LlmOutcome, clock: nat -> string): EntryStep
  {
    (i: nat, r: Request<LegacyUserProfile>) => LegacyProcessRequest(store, i, r, replies(i), clock(i))
  }

  /** batch_generate_healing_messages of the first version. */
  function LegacyBatch(store: Store, requests: seq<Request<LegacyUserProfile>>, replies: nat -> LlmOutcome,
                       clock: nat -> string): seq<BatchEntry>
  {
    MapRequests(LegacyStep(store, replies, clock), requests)
  }

  /**
   * One entry per request, in order, each a success carrying the request's index;
   * so every request is counted as successful, whatever its input.
   */
  lemma LegacyBatchNeverFails(store: Store, requests: seq<Request<LegacyUserProfile>>, replies: nat -> LlmOutcome,
                              clock: nat -> string)
    ensures var entries := LegacyBatch(store, requests, replies, clock);
      && |entries| == |requests|
      && (forall i :: 0 <= i < |requests| ==> entries[i].Succeeded? && entries[i].requestId == i)
      && SuccessCount(entries) == |requests|
  {
    var entries := LegacyBatch(store, requests, replies, clock);
    var step := LegacyStep(store, replies, clock);
    forall i | 0 <= i < |requests|
      ensures entries[i].Succeeded? && entries[i].requestId == i
    {
      assert entries[i] == LegacyProcessRequest(store, i, requests[i], replies(i), clock(i));
    }
    AllSucceededCount(entries);
  }

  lemma {:induction false} AllSucceededCount(entries: seq<BatchEntry>)
    requires forall i :: 0 <= i < |entries| ==> entries[i].Succeeded?
    ensures SuccessCount(entries) == |entries|
  {
    if entries != [] {
      AllSucceededCount(entries[..|entries| - 1]);
    }
  }

  /**
   * A request without a profile is served with the default profile; a blank
   * input is not rejected but goes to the chatbot as it is.
   */
  lemma LegacyBatchEntryAt(store: Store, requests: seq<Request<LegacyUserProfile>>, replies: nat -> LlmOutcome,
                           clock: nat -> string, i: nat)
    requires i < |requests|
    ensures |LegacyBatch(store, requests, replies, clock)| == |requests|
    ensures var p := if requests[i].userProfile.Some? then requests[i].userProfile.value else DefaultProfile(i, requests[i]);
      LegacyBatch(store, requests, replies, clock)[i]
        == Succeeded(i, ToDict(LegacyGenerate(store, requests[i].userInput.GetOr(""), Some(p), replies(i), clock(i))))
  {
  }

  /** The batch over one more request appends that request's entry. */
  lemma LegacyBatchSnoc(store: Store, requests: seq<Request<LegacyUserProfile>>, replies: nat -> LlmOutcome,
                        clock: nat -> string, i: nat)
    requires i < |requests|
    ensures LegacyBatch(store, requests[..i + 1], replies, clock)
         == LegacyBatch(store, requests[..i], replies, clock) + [LegacyProcessRequest(store, i, requests[i], replies(i), clock(i))]
  {
    var longer := requests[..i + 1];
    assert longer[..i] == requests[..i];
    assert longer[i] == requests[i];
  }

  /** The loop of batch_generate_healing_messages, each turn a call of the chatbot's method. */
  method LegacyBatchGenerateHealingMessages(store: Store, requests: seq<Request<LegacyUserProfile>>,
                                            replies: nat -> LlmOutcome, clock: nat -> string)
    returns (results: seq<BatchEntry>)
    ensures results == LegacyBatch(store, requests, replies, clock)
  {
    results := [];
    var i := 0;
    while i < |requests|
      invariant 0 <= i <= |requests|
      invariant results == LegacyBatch(store, requests[..i], replies, clock)
    {
      var request := requests[i];
      var profile := request.userProfile;
      if profile.None? {
        profile := Some(DefaultProfile(i, request));
      }
      var capsule := LegacyGenerateHealingMessage(store, request.userInput.GetOr(""), profile, replies(i), clock(i));
      assert profile == Some(ProfileFor(i, request));
      LegacyBatchSnoc(store, requests, replies, clock, i);
      results := results + [Succeeded(i, ToDict(capsule))];
      i := i + 1;
    }
    assert requests[..i] == requests;
  }
}
