// The stage table of the HR funnel and the two loops that walk it
// (app/services/funnel_graph/funnel_policy.py, graph.py lines 374-404).
module FunnelPolicy {
  import opened Basics

  datatype Stage =
    | InterestCheck
    | AgeCheck
    | WorkIntroDelivery
    | SalaryScheduleOffer
    | SalaryScheduleDelivery
    | PostEquipmentQuestionsCheck
    | ProfileThemeCheck
    | SupportSmalltalk
    | RoomAvailableCheck
    | EquipmentPhoneCheck
    | InterviewOffer
    | ContactCollection
    | InterviewDayCheck
    | InterviewTimeCheck
    | InterviewCustomTime
    | HumanHandoff
    | Lost
    | DoNotContact
    // kept for conversations of an older funnel
    | CompanyIntro
    | TryInterestCheck
    | ReadyForInterview

  datatype StageType = Waiting | Action | Final

  // The profile fields that some stage requires, plus the one the executor sets.
  datatype Profile = Profile(
    interestConfirmed: Option<bool>,
    age: Option<int>,
    ageConfirmed: Option<bool>,
    salaryScheduleInterest: Option<bool>,
    questionsResolved: Option<bool>,
    profileInfo: Option<string>,
    smalltalkDone: Option<bool>,
    roomAvailable: Option<bool>,
    phoneModel: Option<string>,
    interviewInterest: Option<bool>,
    candidateName: Option<string>,
    phoneNumber: Option<string>,
    interviewDayConfirmed: Option<bool>,
    interviewDay: Option<string>,
    interviewTime: Option<string>,
    customInterviewDatetime: Option<string>)

  const EMPTY_PROFILE := Profile(None, None, None, None, None, None, None, None,
                                 None, None, None, None, None, None, None, None)

  function TypeOf(s: Stage): StageType {
    match s
    case WorkIntroDelivery | SalaryScheduleDelivery | SupportSmalltalk | CompanyIntro => Action
    case HumanHandoff | Lost | DoNotContact | ReadyForInterview => Final
    case _ => Waiting
  }

  // TERMINAL_STAGES
  predicate Terminal(s: Stage) {
    s in {HumanHandoff, ReadyForInterview, Lost, DoNotContact}
  }

  // next_stage_if_completed
  function NextIfCompleted(s: Stage): Option<Stage> {
    match s
    case InterestCheck => Some(AgeCheck)
    case AgeCheck => Some(WorkIntroDelivery)
    case WorkIntroDelivery => Some(SalaryScheduleOffer)
    case SalaryScheduleOffer => Some(SalaryScheduleDelivery)
    case SalaryScheduleDelivery => Some(PostEquipmentQuestionsCheck)
    case PostEquipmentQuestionsCheck => Some(ProfileThemeCheck)
    case ProfileThemeCheck => Some(SupportSmalltalk)
    case SupportSmalltalk => Some(RoomAvailableCheck)
    case RoomAvailableCheck => Some(EquipmentPhoneCheck)
    case EquipmentPhoneCheck => Some(InterviewOffer)
    case InterviewOffer => Some(ContactCollection)
    case ContactCollection => Some(InterviewDayCheck)
    case InterviewDayCheck => Some(InterviewTimeCheck)
    case InterviewTimeCheck | InterviewCustomTime => Some(HumanHandoff)
    case CompanyIntro | TryInterestCheck => Some(ProfileThemeCheck)
    case HumanHandoff | Lost | DoNotContact | ReadyForInterview => None
  }

  // `to in allowed_transitions` of the policy of `from`
  predicate CanTransition(from: Stage, to: Stage) {
    match from
    case InterestCheck => to in {InterestCheck, AgeCheck, Lost, DoNotContact, HumanHandoff}
    case AgeCheck => to in {AgeCheck, WorkIntroDelivery, Lost, DoNotContact, HumanHandoff}
    case WorkIntroDelivery => to == SalaryScheduleOffer
    case SalaryScheduleOffer => to in {SalaryScheduleOffer, SalaryScheduleDelivery, Lost, DoNotContact, HumanHandoff}
    case SalaryScheduleDelivery => to == PostEquipmentQuestionsCheck
    case PostEquipmentQuestionsCheck =>
      to in {PostEquipmentQuestionsCheck, ProfileThemeCheck, Lost, DoNotContact, HumanHandoff}
    case ProfileThemeCheck => to in {ProfileThemeCheck, SupportSmalltalk, Lost, DoNotContact, HumanHandoff}
    case SupportSmalltalk => to == RoomAvailableCheck
    case RoomAvailableCheck => to in {RoomAvailableCheck, EquipmentPhoneCheck, Lost, DoNotContact, HumanHandoff}
    case EquipmentPhoneCheck => to in {EquipmentPhoneCheck, InterviewOffer, Lost, DoNotContact, HumanHandoff}
    case InterviewOffer => to in {InterviewOffer, ContactCollection, Lost, DoNotContact, HumanHandoff}
    case ContactCollection => to in {ContactCollection, InterviewDayCheck, Lost, DoNotContact, HumanHandoff}
    case InterviewDayCheck =>
      to in {InterviewDayCheck, InterviewTimeCheck, InterviewCustomTime, Lost, DoNotContact, HumanHandoff}
    case InterviewTimeCheck => to in {InterviewTimeCheck, HumanHandoff, Lost, DoNotContact}
    case InterviewCustomTime => to in {InterviewCustomTime, HumanHandoff, Lost, DoNotContact}
    case HumanHandoff => to == HumanHandoff
    case Lost => to == Lost
    case DoNotContact => to == DoNotContact
    case CompanyIntro => to == ProfileThemeCheck
    case TryInterestCheck => to in {TryInterestCheck, ProfileThemeCheck, Lost, DoNotContact, HumanHandoff}
    case ReadyForInterview => to == ReadyForInterview
  }

  // Exactly the waiting stages carry a current_question; its wording is a parameter of the funnel.
  predicate HasQuestion(s: Stage) {
    TypeOf(s) == Waiting
  }

  // ACTION_STAGE_TO_WAITING_STAGE
  function WaitingAfter(s: Stage): Stage
    requires TypeOf(s) == Action
  {
    match s
    case WorkIntroDelivery => SalaryScheduleOffer
    case SalaryScheduleDelivery => PostEquipmentQuestionsCheck
    case SupportSmalltalk => RoomAvailableCheck
    case CompanyIntro => ProfileThemeCheck
  }

  // voice_pack_id and template_id of the action stages
  function VoicePack(s: Stage): Option<string> {
    match s
    case WorkIntroDelivery => Some("work_intro")
    case SalaryScheduleDelivery => Some("salary_schedule")
    case _ => None
  }

  function Template(s: Stage): Option<string> {
    if s == CompanyIntro then Some("company_intro_message") else None
  }

  // stage_requirement_met
  predicate RequirementMet(s: Stage, p: Profile) {
    match s
    case InterestCheck | TryInterestCheck => IsTrue(p.interestConfirmed)
    case AgeCheck => IsTrue(p.ageConfirmed) && p.age.Some? && p.age.value >= 18
    case SalaryScheduleOffer => IsTrue(p.salaryScheduleInterest)
    case PostEquipmentQuestionsCheck => IsTrue(p.questionsResolved)
    case ProfileThemeCheck => Truthy(p.profileInfo)
    case RoomAvailableCheck => IsTrue(p.roomAvailable)
    case EquipmentPhoneCheck => Truthy(p.phoneModel)
    case InterviewOffer => IsTrue(p.interviewInterest)
    case ContactCollection => Truthy(p.candidateName) && Truthy(p.phoneNumber)
    case InterviewDayCheck => IsTrue(p.interviewDayConfirmed) || Truthy(p.interviewDay)
    case InterviewTimeCheck => Truthy(p.interviewTime)
    case InterviewCustomTime => Truthy(p.customInterviewDatetime)
    case _ => true
  }

  // next_stage_if_requirement_met
  function NextStage(s: Stage, p: Profile): Stage {
    if !RequirementMet(s, p) then s
    else if s == InterviewDayCheck && !IsTrue(p.interviewDayConfirmed) then InterviewCustomTime
    else if NextIfCompleted(s).Some? then NextIfCompleted(s).value else s
  }

  const TOP := 14

  // A fixed height of every stage; both loops climb it.
  function Rank(s: Stage): (r: nat)
    ensures r <= TOP
  {
    match s
    case InterestCheck => 0
    case AgeCheck => 1
    case WorkIntroDelivery => 2
    case SalaryScheduleOffer => 3
    case SalaryScheduleDelivery => 4
    case PostEquipmentQuestionsCheck => 5
    case CompanyIntro | TryInterestCheck => 5
    case ProfileThemeCheck => 6
    case SupportSmalltalk => 7
    case RoomAvailableCheck => 8
    case EquipmentPhoneCheck => 9
    case InterviewOffer => 10
    case ContactCollection => 11
    case InterviewDayCheck => 12
    case InterviewTimeCheck | InterviewCustomTime => 13
    case HumanHandoff | Lost | DoNotContact | ReadyForInterview => 14
  }

  lemma TerminalStaysPut(s: Stage)
    requires Terminal(s)
    ensures CanTransition(s, s)
  {
  }

  // A completed stage that is not terminal always has a higher stage to go to, over an allowed edge; the
  // interview day leads to the offered time exactly if it was confirmed.
  lemma NextClimbs(s: Stage, p: Profile)
    requires !Terminal(s) && RequirementMet(s, p)
    ensures Rank(s) < Rank(NextStage(s, p)) && CanTransition(s, NextStage(s, p))
    ensures s == InterviewDayCheck ==>
              NextStage(s, p) ==
              if p.interviewDayConfirmed == Some(true) then InterviewTimeCheck else InterviewCustomTime
  {
  }

  // Where the advance loop ends: the first stage reached that is not a completed waiting stage.
  function Advance(s: Stage, p: Profile): Stage
    decreases TOP - Rank(s)
  {
    if TypeOf(s) != Waiting || !RequirementMet(s, p) then s else Advance(NextStage(s, p), p)
  }

  // What the acceptance loop decides once the direct edge is missing.
  predicate ReachesTarget(s: Stage, target: Stage, p: Profile)
    decreases TOP - Rank(s)
  {
    !Terminal(s) && RequirementMet(s, p) &&
    (CanTransition(NextStage(s, p), target) || ReachesTarget(NextStage(s, p), target, p))
  }

  predicate Accepts(s: Stage, target: Stage, p: Profile) {
    CanTransition(s, target) || ReachesTarget(s, target, p)
  }

  // The advance loop as it runs, with its guard against revisiting a stage.
  method AdvanceThroughCompletedWaitingStages(start: Stage, p: Profile) returns (stage: Stage)
    ensures stage == Advance(start, p)
    ensures TypeOf(stage) == Waiting ==> !RequirementMet(stage, p)
  {
    stage := start;
    var seen: set<Stage> := {};
    hide RequirementMet, NextStage, CanTransition, Rank;
    while stage !in seen && !Terminal(stage)
      invariant forall s <- seen :: Rank(s) < Rank(stage)
      invariant Advance(stage, p) == Advance(start, p)
      decreases TOP - Rank(stage)
    {
      seen := seen + {stage};
      if TypeOf(stage) != Waiting || !RequirementMet(stage, p) {
        break;
      }
      NextClimbs(stage, p);
      var next := NextStage(stage, p);
      if next == stage {
        break;
      }
      stage := next;
    }
  }

  // The acceptance loop as it runs.
  method CanTransitionViaCompletedStages(current: Stage, target: Stage, p: Profile) returns (ok: bool)
    ensures ok == Accepts(current, target, p)
  {
    hide RequirementMet, NextStage, CanTransition, Rank;
    if CanTransition(current, target) {
      return true;
    }
    var stage := current;
    var seen: set<Stage> := {};
    while stage !in seen && !Terminal(stage)
      invariant forall s <- seen :: Rank(s) < Rank(stage)
      invariant !CanTransition(stage, target)
      invariant ReachesTarget(stage, target, p) == ReachesTarget(current, target, p)
      decreases TOP - Rank(stage)
    {
      seen := seen + {stage};
      if !RequirementMet(stage, p) {
        return false;
      }
      NextClimbs(stage, p);
      var next := NextStage(stage, p);
      if next == stage || !CanTransition(stage, next) {
        return false;
      }
      stage := next;
      if CanTransition(stage, target) {
        return true;
      }
    }
    if Terminal(stage) {
      TerminalStaysPut(stage);
    }
    return stage == target;
  }

  // Accepted targets that are not terminal lie strictly above the start.
  lemma {:induction false} ReachedIsAbove(s: Stage, target: Stage, p: Profile)
    requires ReachesTarget(s, target, p)
    ensures Terminal(target) || Rank(s) < Rank(target)
    decreases TOP - Rank(s)
  {
    NextClimbs(s, p);
    if !CanTransition(NextStage(s, p), target) {
      ReachedIsAbove(NextStage(s, p), target, p);
    }
  }

  // The two loops agree: whatever the advance loop picks from a completed waiting
  // stage, the acceptance loop accepts.
  lemma LoopsAgree(s: Stage, p: Profile)
    requires TypeOf(s) == Waiting && RequirementMet(s, p)
    ensures Accepts(s, Advance(NextStage(s, p), p), p)
  {
    ReachesAdvanced(s, p);
  }

  lemma {:induction false} ReachesAdvanced(s: Stage, p: Profile)
    requires TypeOf(s) == Waiting && RequirementMet(s, p)
    ensures CanTransition(s, Advance(NextStage(s, p), p)) || ReachesTarget(s, Advance(NextStage(s, p), p), p)
    decreases TOP - Rank(s)
  {
    var n := NextStage(s, p);
    if TypeOf(n) == Waiting && RequirementMet(n, p) {
      ReachesAdvanced(n, p);
    }
  }

  // A chain from s to target: every hop is an allowed edge, every hop but the last
  // leaves a completed stage for the stage its policy names next.
  ghost predicate Chain(path: seq<Stage>, s: Stage, target: Stage, p: Profile) {
    && |path| >= 2 && path[0] == s && path[|path| - 1] == target
    && (forall i :: 0 <= i < |path| - 1 ==> CanTransition(path[i], path[i + 1]))
    && (forall i :: 0 <= i < |path| - 2 ==> RequirementMet(path[i], p) && path[i + 1] == NextStage(path[i], p))
  }

  // Acceptance is exactly the existence of such a chain.
  lemma AcceptedExactlyByChain(s: Stage, target: Stage, p: Profile)
    ensures Accepts(s, target, p) <==> exists path :: Chain(path, s, target, p)
  {
    if Accepts(s, target, p) {
      var path := ChainOf(s, target, p);
    }
    if path :| Chain(path, s, target, p) {
      ChainIsAccepted(path, s, target, p);
    }
  }

  lemma {:induction false} ChainOf(s: Stage, target: Stage, p: Profile) returns (path: seq<Stage>)
    requires Accepts(s, target, p)
    ensures Chain(path, s, target, p)
    decreases TOP - Rank(s)
  {
    hide RequirementMet, NextStage, CanTransition, Rank;
    if CanTransition(s, target) {
      path := [s, target];
    } else {
      NextClimbs(s, p);
      var rest := ChainOf(NextStage(s, p), target, p);
      path := [s] + rest;
      ChainExtends(path, s, target, p);
    }
  }

  lemma ChainExtends(path: seq<Stage>, s: Stage, target: Stage, p: Profile)
    requires |path| > 2 && path[0] == s && Chain(path[1..], NextStage(s, p), target, p)
    requires CanTransition(s, NextStage(s, p)) && RequirementMet(s, p)
    ensures Chain(path, s, target, p)
  {
    hide RequirementMet, NextStage, CanTransition, Rank;
    assert forall i :: 1 <= i < |path| ==> path[i] == path[1..][i - 1];
  }

  lemma {:induction false} ChainIsAccepted(path: seq<Stage>, s: Stage, target: Stage, p: Profile)
    requires Chain(path, s, target, p)
    ensures Accepts(s, target, p)
    decreases |path|
  {
    if |path| > 2 {
      assert CanTransition(path[0], path[1]);
      assert Chain(path[1..], path[1], target, p);
      ChainIsAccepted(path[1..], path[1], target, p);
    }
  }
}
