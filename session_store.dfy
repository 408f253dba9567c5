/**
 * The client session store: a record of user fields and two progress flags,
 * changed only through its actions, each of which overwrites a fixed set of
 * fields (a partial `set`).
 */
module SessionStore {
  import opened Wrappers

  datatype UserState = UserState(
    userId: Option<string>,
    userName: Option<string>,
    targetRole: Option<string>,
    confidenceScore: real,
    readinessScore: real,
    readinessStatus: string,
    isOnboarded: bool,
    isReadinessDone: bool)

  /** The store's initial state, which `reset` also writes. */
  const Initial := UserState(None, None, None, 0.0, 0.0, "", false, false)

  datatype Action =
    | SetUser(id: string, name: string)
    | SetRole(role: string)
    | SetConfidence(score: real)
    | SetReadiness(score: real, status: string)
    | MarkOnboarded
    | MarkReadinessDone
    | Reset

  datatype Field =
    UserIdF | UserNameF | TargetRoleF | ConfidenceF | ReadinessScoreF | ReadinessStatusF | OnboardedF | ReadinessDoneF

  /** The fields an action's partial `set` names. */
  function Writes(a: Action): set<Field>
  {
    match a
    case SetUser(_, _) => {UserIdF, UserNameF}
    case SetRole(_) => {TargetRoleF}
    case SetConfidence(_) => {ConfidenceF}
    case SetReadiness(_, _) => {ReadinessScoreF, ReadinessStatusF}
    case MarkOnboarded => {OnboardedF}
    case MarkReadinessDone => {ReadinessDoneF}
    case Reset => {UserIdF, UserNameF, TargetRoleF, ConfidenceF, ReadinessScoreF, ReadinessStatusF, OnboardedF, ReadinessDoneF}
  }

  /** `t` agrees with `s` on every field outside `fs`. */
  predicate SameExcept(s: UserState, t: UserState, fs: set<Field>)
  {
    && (UserIdF !in fs ==> t.userId == s.userId)
    && (UserNameF !in fs ==> t.userName == s.userName)
    && (TargetRoleF !in fs ==> t.targetRole == s.targetRole)
    && (ConfidenceF !in fs ==> t.confidenceScore == s.confidenceScore)
    && (ReadinessScoreF !in fs ==> t.readinessScore == s.readinessScore)
    && (ReadinessStatusF !in fs ==> t.readinessStatus == s.readinessStatus)
    && (OnboardedF !in fs ==> t.isOnboarded == s.isOnboarded)
    && (ReadinessDoneF !in fs ==> t.isReadinessDone == s.isReadinessDone)
  }

  /**
   * One action. It leaves every field it does not write as it was, and the
   * fields it writes take the action's arguments (Reset: the initial state).
   */
  function Apply(s: UserState, a: Action): (t: UserState)
    ensures SameExcept(s, t, Writes(a))
    ensures a.SetUser? ==> t.userId == Some(a.id) && t.userName == Some(a.name)
    ensures a.SetRole? ==> t.targetRole == Some(a.role)
    ensures a.SetConfidence? ==> t.confidenceScore == a.score
    ensures a.SetReadiness? ==> t.readinessScore == a.score && t.readinessStatus == a.status
    ensures a.MarkOnboarded? ==> t.isOnboarded
    ensures a.MarkReadinessDone? ==> t.isReadinessDone
    ensures a.Reset? ==> t == Initial
  {
    match a
    case SetUser(id, name) => s.(userId := Some(id), userName := Some(name))
    case SetRole(role) => s.(targetRole := Some(role))
    case SetConfidence(score) => s.(confidenceScore := score)
    case SetReadiness(score, status) => s.(readinessScore := score, readinessStatus := status)
    case MarkOnboarded => s.(isOnboarded := true)
    case MarkReadinessDone => s.(isReadinessDone := true)
    case Reset => Initial
  }

  function ApplyAll(s: UserState, acts: seq<Action>): UserState
    decreases acts
  {
    if acts == [] then s else ApplyAll(Apply(s, acts[0]), acts[1..])
  }

  /** The two marks are idempotent, and so is reset. */
  lemma Idempotent(s: UserState)
    ensures Apply(Apply(s, MarkOnboarded), MarkOnboarded) == Apply(s, MarkOnboarded)
    ensures Apply(Apply(s, MarkReadinessDone), MarkReadinessDone) == Apply(s, MarkReadinessDone)
    ensures Apply(Apply(s, Reset), Reset) == Apply(s, Reset)
  {
  }

  /** A flag, once set, stays set through any actions other than reset. */
  lemma {:induction false} FlagsOnlyClearedByReset(s: UserState, acts: seq<Action>)
    requires forall k :: 0 <= k < |acts| ==> !acts[k].Reset?
    ensures s.isOnboarded ==> ApplyAll(s, acts).isOnboarded
    ensures s.isReadinessDone ==> ApplyAll(s, acts).isReadinessDone
    decreases acts
  {
    if acts != [] {
      FlagsOnlyClearedByReset(Apply(s, acts[0]), acts[1..]);
    }
  }

  /** Whatever happened before, a reset followed by anything starts from the initial state. */
  lemma ResetForgets(s: UserState, s': UserState, acts: seq<Action>)
    ensures ApplyAll(s, [Reset] + acts) == ApplyAll(s', [Reset] + acts)
  {
    assert ([Reset] + acts)[1..] == acts;
  }

  class Store {
    var userId: Option<string>
    var userName: Option<string>
    var targetRole: Option<string>
    var confidenceScore: real
    var readinessScore: real
    var readinessStatus: string
    var isOnboarded: bool
    var isReadinessDone: bool

    function State(): UserState
      reads this
    {
      UserState(userId, userName, targetRole, confidenceScore, readinessScore,
                readinessStatus, isOnboarded, isReadinessDone)
    }

    constructor ()
      ensures State() == Initial
    {
      userId, userName, targetRole := None, None, None;
      confidenceScore, readinessScore := 0.0, 0.0;
      readinessStatus := "";
      isOnboarded, isReadinessDone := false, false;
    }

    method SetUser(id: string, name: string)
      modifies this
      ensures State() == Apply(old(State()), Action.SetUser(id, name))
    {
      userId := Some(id);
      userName := Some(name);
    }

    method SetRole(role: string)
      modifies this
      ensures State() == Apply(old(State()), Action.SetRole(role))
    {
      targetRole := Some(role);
    }

    method SetConfidence(score: real)
      modifies this
      ensures State() == Apply(old(State()), Action.SetConfidence(score))
    {
      confidenceScore := score;
    }

    method SetReadiness(score: real, status: string)
      modifies this
      ensures State() == Apply(old(State()), Action.SetReadiness(score, status))
    {
      readinessScore := score;
      readinessStatus := status;
    }

    method MarkOnboarded()
      modifies this
      ensures State() == Apply(old(State()), Action.MarkOnboarded)
    {
      isOnboarded := true;
    }

    method MarkReadinessDone()
      modifies this
      ensures State() == Apply(old(State()), Action.MarkReadinessDone)
    {
      isReadinessDone := true;
    }

    method Reset()
      modifies this
      ensures State() == Initial
    {
      userId, userName, targetRole := None, None, None;
      confidenceScore, readinessScore := 0.0, 0.0;
      readinessStatus := "";
      isOnboarded, isReadinessDone := false, false;
    }
  }
}
