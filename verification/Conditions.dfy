/**
  The status conditions of a Horizon resource and the few operations of the condition library
  that a reconciler pass uses. The library's own source is not part of this model, so each
  operation is the contract its callers and the functional tests rely on.
  */
module Conditions {

  datatype Truth = IsTrue | IsFalse | IsUnknown

  datatype Reason = InitReason | RequestedReason | ErrorReason | ReadyReason | MissingDependencies

  datatype Severity = NoSeverity | Info | Warning

  datatype Message =
    | InitMessage
    | ReadyMessage
    | RunningMessage
    | MissingSecretMessage
    | WaitingMessage(subject: string)
    | ErrorMessage(text: string)

  datatype Detail = Detail(reason: Reason, severity: Severity, message: Message)

  datatype Condition = Condition(state: Truth, detail: Detail, time: int)

  datatype Type =
    | Ready
    | ServiceAccount
    | Role
    | RoleBinding
    | Input
    | Memcached
    | TLSInput
    | ServiceConfig
    | CreateService
    | Deployment
    | NetworkAttachments
    | Topology

  /** The resource keeps at most one condition of a type. A missing list is the empty map. */
  type Conditions = map<Type, Condition>

  const STAGES := 9

  /** The order in which a pass works through the nine conditions that it initialises. */
  function Rank(t: Type): nat {
    match t
    case ServiceAccount => 0
    case Role => 1
    case RoleBinding => 2
    case Input => 3
    case Memcached => 4
    case TLSInput => 5
    case ServiceConfig => 6
    case CreateService => 7
    case Deployment => 8
    case NetworkAttachments => 9
    case Topology => 10
    case Ready => 11
  }

  /** A pass initialises the nine stage conditions and Ready; the other two types are optional. */
  predicate Listed(t: Type) {
    t != NetworkAttachments && t != Topology
  }

  const TrueDetail := Detail(ReadyReason, NoSeverity, ReadyMessage)

  const InitDetail := Detail(InitReason, NoSeverity, InitMessage)

  predicate Is(cs: Conditions, t: Type, s: Truth) {
    t in cs && cs[t].state == s
  }

  predicate SameState(a: Condition, b: Condition) {
    a.state == b.state && a.detail == b.detail
  }

  /** The conditions of the types that `Init` does not list. */
  function Unlisted(cs: Conditions): Conditions {
    map t | t in cs && !Listed(t) :: cs[t]
  }

  /**
    Every listed type becomes Unknown. What `Init` leaves of the other types is not known, so
    `stray` may hold any conditions of those types.
    */
  function Init(stray: Conditions, now: int): Conditions {
    Unlisted(stray) + map t: Type | Listed(t) :: Condition(IsUnknown, InitDetail, now)
  }

  /** A condition whose state did not change since `saved` keeps its saved transition time. */
  function RestoreLastTransitionTimes(cs: Conditions, saved: Conditions): Conditions {
    map t | t in cs ::
      if t in saved && SameState(cs[t], saved[t]) then cs[t].(time := saved[t].time) else cs[t]
  }

  predicate AllSubConditionIsTrue(cs: Conditions) {
    forall t | t in cs :: t == Ready || cs[t].state == IsTrue
  }

  /** The state that `Mirror` gives Ready: False beats Unknown beats True. */
  function MirrorState(cs: Conditions): Truth {
    if exists t | t in cs :: t != Ready && cs[t].state == IsFalse then IsFalse
    else if exists t | t in cs :: t != Ready && cs[t].state == IsUnknown then IsUnknown
    else IsTrue
  }

  /**
    What every pass leaves behind: the stages before `k` are True, those after `k` are Unknown.
    Only stage `k` itself may be False.
    */
  ghost predicate StoppedAt(cs: Conditions, k: nat) {
    && k <= STAGES
    && (forall t | Rank(t) < STAGES :: t in cs)
    && (forall t | Rank(t) < STAGES && Rank(t) < k :: cs[t].state == IsTrue)
    && (forall t | Rank(t) < STAGES && Rank(t) > k :: cs[t].state == IsUnknown)
  }
}
