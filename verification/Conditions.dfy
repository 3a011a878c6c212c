/** Condition lists: what setCondition does to them, and the map they stand for. */
module Conditions {
  import opened GoStrings

  /** JobConditionType.  The same type names the phases; NoPhase is the empty phase of a new job. */
  datatype ConditionType =
    | NoPhase | Created | Running | Restarting | Succeeded | Failed | Suspended
    | Scaling | ScaleFailed | ScaleSucceeded | ScriptExecuted
    | WorkersCreated | WorkersReady | LauncherCreated

  datatype Condition = Condition(
    ctype: ConditionType, status: bool, reason: string, message: string,
    lastUpdateTime: int, lastTransitionTime: int)

  /** newCondition. */
  function NewCondition(t: ConditionType, reason: string, message: string, now: int): Condition {
    Condition(t, true, reason, message, now, now)
  }

  // ---------- the list operations ----------

  /** The types of the true conditions. */
  function Truths(conds: seq<Condition>): set<ConditionType> {
    if conds == [] then {} else Holds(conds[0]) + Truths(conds[1..])
  }

  function Holds(c: Condition): set<ConditionType> { if c.status then {c.ctype} else {} }

  /** hasCondition. */
  predicate Has(conds: seq<Condition>, t: ConditionType) { t in Truths(conds) }

  /** getCondition. */
  function Get(conds: seq<Condition>, t: ConditionType): Option<Condition> {
    if conds == [] then None
    else if conds[0].ctype == t then Some(conds[0])
    else Get(conds[1..], t)
  }

  /** Conditions of type `prior` that a new condition of type `t` removes. */
  predicate Displaces(t: ConditionType, prior: ConditionType) {
    prior == t || (t == Restarting && prior == Running) || (t == Running && prior == Restarting)
  }

  /** A finished job is no longer running. */
  predicate Demotes(t: ConditionType, prior: ConditionType) {
    (t == Failed || t == Succeeded) && prior == Running
  }

  function Demote(t: ConditionType, c: Condition): Condition {
    if Demotes(t, c.ctype) then c.(status := false) else c
  }

  /** What is left of one condition when a condition of type `t` arrives: nothing or itself. */
  function Keep(t: ConditionType, c: Condition): seq<Condition> {
    if Displaces(t, c.ctype) then [] else [Demote(t, c)]
  }

  /** filterOutCondition, as a function. */
  function FilterOut(conds: seq<Condition>, t: ConditionType): seq<Condition> {
    if conds == [] then [] else Keep(t, conds[0]) + FilterOut(conds[1..], t)
  }

  /** The condition setCondition would append: an unchanged status keeps its transition time. */
  function Adjusted(current: Option<Condition>, c: Condition): Condition {
    if current.Some? && current.value.status == c.status
    then c.(lastTransitionTime := current.value.lastTransitionTime) else c
  }

  predicate Same(current: Option<Condition>, c: Condition) {
    current.Some? && current.value.status == c.status
    && current.value.reason == c.reason && current.value.message == c.message
  }

  /** setCondition, as a function. */
  function Set(conds: seq<Condition>, c: Condition): seq<Condition> {
    if Has(conds, Failed) || Same(Get(conds, c.ctype), c) then conds
    else FilterOut(conds, c.ctype) + [Adjusted(Get(conds, c.ctype), c)]
  }

  lemma {:induction false} TruthsConcat(a: seq<Condition>, b: seq<Condition>)
    ensures Truths(a + b) == Truths(a) + Truths(b)
  {
    if a == [] {
      assert a + b == b;
    } else {
      assert (a + b)[1..] == a[1..] + b;
      TruthsConcat(a[1..], b);
    }
  }

  /** The truths that survive the arrival of a condition of type `t`. */
  function Surviving(truths: set<ConditionType>, t: ConditionType): set<ConditionType> {
    set u | u in truths && !Displaces(t, u) && !Demotes(t, u)
  }

  lemma KeepOne(c: Condition, t: ConditionType, u: ConditionType)
    ensures Truths(Keep(t, c)) == Surviving(Holds(c), t)
    ensures Get(Keep(t, c), u) == if c.ctype == u && !Displaces(t, u) then Some(Demote(t, c)) else None
  {
    assert Keep(t, c) != [] ==> Keep(t, c)[1..] == [];
  }

  lemma {:induction false} TruthsFilterOut(conds: seq<Condition>, t: ConditionType)
    ensures Truths(FilterOut(conds, t)) == Surviving(Truths(conds), t)
  {
    if conds != [] {
      TruthsFilterOut(conds[1..], t);
      TruthsConcat(Keep(t, conds[0]), FilterOut(conds[1..], t));
      KeepOne(conds[0], t, t);
    }
  }

  lemma {:induction false} FilterOutTake(conds: seq<Condition>, t: ConditionType, k: nat)
    requires k < |conds|
    ensures FilterOut(conds[..k + 1], t) == FilterOut(conds[..k], t) + Keep(t, conds[k])
  {
    if k == 0 {
      assert conds[..1][1..] == [];
    } else {
      assert conds[..k + 1][1..] == conds[1..][..k] && conds[..k][1..] == conds[1..][..k - 1];
      FilterOutTake(conds[1..], t, k - 1);
    }
  }

  lemma {:induction false} GetTrueHas(conds: seq<Condition>, t: ConditionType)
    ensures Get(conds, t).Some? && Get(conds, t).value.status ==> Has(conds, t)
  {
    if conds != [] { GetTrueHas(conds[1..], t); }
  }

  /** The true types after a new (always True) condition of type `t` has been set. */
  function After(truths: set<ConditionType>, t: ConditionType): set<ConditionType> {
    if Failed in truths then truths else Surviving(truths, t) + {t}
  }

  /** The type exclusions hold already. */
  predicate Settled(truths: set<ConditionType>) {
    Running in truths ==> Restarting !in truths && Succeeded !in truths && Failed !in truths
  }

  /** What setCondition does to the set of true conditions, on any list in which the
      exclusions hold. */
  lemma SetEffect(conds: seq<Condition>, c: Condition)
    requires c.status && Settled(Truths(conds))
    ensures Truths(Set(conds, c)) == After(Truths(conds), c.ctype)
  {
    if !Has(conds, Failed) {
      if Same(Get(conds, c.ctype), c) {
        GetTrueHas(conds, c.ctype);
      } else {
        var last := Adjusted(Get(conds, c.ctype), c);
        TruthsFilterOut(conds, c.ctype);
        TruthsConcat(FilterOut(conds, c.ctype), [last]);
        assert [last][1..] == [] && Truths([last]) == {c.ctype};
      }
    }
  }

  // ---------- the map a list stands for ----------

  ghost predicate UniqueTypes(conds: seq<Condition>) {
    forall i, j :: 0 <= i < j < |conds| ==> conds[i].ctype != conds[j].ctype
  }

  /** Running and Restarting are never both present, true or false. */
  ghost predicate Exclusive(conds: seq<Condition>) {
    !(Get(conds, Running).Some? && Get(conds, Restarting).Some?)
  }

  /** The same update on a lookup function from type to condition. */
  function Lookup(conds: seq<Condition>, c: Condition, u: ConditionType): Option<Condition> {
    var current := Get(conds, c.ctype);
    var failed := Get(conds, Failed);
    if failed.Some? && failed.value.status then Get(conds, u)
    else if Same(current, c) then Get(conds, u)
    else if u == c.ctype then Some(Adjusted(current, c))
    else if Displaces(c.ctype, u) then None
    else match Get(conds, u)
      case None => None
      case Some(prior) => Some(Demote(c.ctype, prior))
  }

  lemma {:induction false} GetType(conds: seq<Condition>, t: ConditionType)
    ensures Get(conds, t).Some? ==> Get(conds, t).value.ctype == t && Get(conds, t).value in conds
    ensures Get(conds, t).None? ==> forall c :: c in conds ==> c.ctype != t
  {
    if conds != [] { GetType(conds[1..], t); }
  }

  /** On a duplicate-free list hasCondition reads the one condition of the type. */
  lemma {:induction false} HasIsGet(conds: seq<Condition>, t: ConditionType)
    requires UniqueTypes(conds)
    ensures Has(conds, t) <==> Get(conds, t).Some? && Get(conds, t).value.status
  {
    if conds != [] {
      HasIsGet(conds[1..], t);
      GetType(conds[1..], t);
    }
  }

  lemma {:induction false} GetConcat(a: seq<Condition>, b: seq<Condition>, u: ConditionType)
    ensures Get(a + b, u) == if Get(a, u).Some? then Get(a, u) else Get(b, u)
  {
    if a == [] {
      assert a + b == b;
    } else {
      assert (a + b)[1..] == a[1..] + b;
      GetConcat(a[1..], b, u);
    }
  }

  lemma {:induction false} GetFilterOut(conds: seq<Condition>, t: ConditionType, u: ConditionType)
    ensures Get(FilterOut(conds, t), u)
         == if Displaces(t, u) then None
            else match Get(conds, u) case None => None case Some(c) => Some(Demote(t, c))
  {
    if conds != [] {
      GetFilterOut(conds[1..], t, u);
      GetConcat(Keep(t, conds[0]), FilterOut(conds[1..], t), u);
      KeepOne(conds[0], t, u);
    }
  }

  lemma {:induction false} FilterOutUnique(conds: seq<Condition>, t: ConditionType)
    requires UniqueTypes(conds)
    ensures UniqueTypes(FilterOut(conds, t))
  {
    if conds != [] {
      FilterOutUnique(conds[1..], t);
      GetType(conds[1..], conds[0].ctype);
      GetFilterOut(conds[1..], t, conds[0].ctype);
      GetType(FilterOut(conds[1..], t), conds[0].ctype);
      UniqueHead(conds);
      GetType(conds[1..], conds[0].ctype);
    }
  }

  lemma UniqueHead(conds: seq<Condition>)
    requires conds != [] && UniqueTypes(conds)
    ensures Get(conds[1..], conds[0].ctype).None?
  {
    GetType(conds[1..], conds[0].ctype);
  }

  /** setCondition on a duplicate-free list is the corresponding update of a map from type to
      condition: the list stays duplicate-free, and every lookup afterwards is the map's. */
  lemma SetRefinesMap(conds: seq<Condition>, c: Condition)
    requires UniqueTypes(conds) && Exclusive(conds)
    ensures UniqueTypes(Set(conds, c)) && Exclusive(Set(conds, c))
    ensures forall u :: Get(Set(conds, c), u) == Lookup(conds, c, u)
  {
    HasIsGet(conds, Failed);
    var kept, last := FilterOut(conds, c.ctype), Adjusted(Get(conds, c.ctype), c);
    FilterOutUnique(conds, c.ctype);
    GetFilterOut(conds, c.ctype, c.ctype);
    GetType(kept, c.ctype);
    forall u ensures Get(Set(conds, c), u) == Lookup(conds, c, u) {
      GetFilterOut(conds, c.ctype, u);
      GetConcat(kept, [last], u);
    }
  }

  /** Unless the list is frozen, looking up the type that was set finds what was set: status, reason
      and message, be it new or the same as before. */
  lemma SetRecords(conds: seq<Condition>, c: Condition)
    requires !Has(conds, Failed)
    ensures var r := Get(Set(conds, c), c.ctype);
            && r.Some? && r.value.status == c.status
            && r.value.reason == c.reason && r.value.message == c.message
  {
    GetFilterOut(conds, c.ctype, c.ctype);
    GetConcat(FilterOut(conds, c.ctype), [Adjusted(Get(conds, c.ctype), c)], c.ctype);
  }

  // ---------- any sequence of calls ----------

  /** The list after the calls of `cs`, first to last. */
  function SetAll(conds: seq<Condition>, cs: seq<Condition>): seq<Condition>
    decreases |cs|
  {
    if cs == [] then conds else SetAll(Set(conds, cs[0]), cs[1..])
  }

  lemma {:induction false} SetAllWellFormed(conds: seq<Condition>, cs: seq<Condition>)
    requires UniqueTypes(conds) && Exclusive(conds)
    ensures UniqueTypes(SetAll(conds, cs)) && Exclusive(SetAll(conds, cs))
    decreases |cs|
  {
    if cs != [] {
      SetRefinesMap(conds, cs[0]);
      SetAllWellFormed(Set(conds, cs[0]), cs[1..]);
    }
  }

  /** A True Failed condition freezes the list for good. */
  lemma {:induction false} FailedFreezes(conds: seq<Condition>, cs: seq<Condition>)
    requires Has(conds, Failed)
    ensures SetAll(conds, cs) == conds
  {
    if cs != [] { FailedFreezes(conds, cs[1..]); }
  }

  /** One call moves a transition time only when it changes that condition's status. */
  lemma TransitionTimeKept(conds: seq<Condition>, c: Condition, u: ConditionType)
    requires UniqueTypes(conds) && Exclusive(conds)
    requires Get(conds, u).Some? && Get(Set(conds, c), u).Some?
    requires Get(conds, u).value.status == Get(Set(conds, c), u).value.status
    ensures Get(conds, u).value.lastTransitionTime == Get(Set(conds, c), u).value.lastTransitionTime
  {
    SetRefinesMap(conds, c);
  }

  const SCALING_START: string := "ScalingStart"

  /** IsScaleOutTimeout. */
  predicate TimedOut(conds: seq<Condition>, timeout: int, now: int) {
    conds != [] &&
    if conds[0].ctype == Scaling && conds[0].reason == SCALING_START
    then conds[0].lastTransitionTime + timeout < now
    else TimedOut(conds[1..], timeout, now)
  }

  /** The conditions the controllers set are True, and Scaling carries the start reason. */
  predicate Issued(c: Condition) { c.status && (c.ctype == Scaling ==> c.reason == SCALING_START) }

  ghost predicate Started(conds: seq<Condition>, at: int) {
    var s := Get(conds, Scaling);
    s.Some? && s.value.status && s.value.reason == SCALING_START && s.value.lastTransitionTime == at
  }

  lemma {:induction false} TimedOutReadsScaling(conds: seq<Condition>, at: int, timeout: int, now: int)
    requires UniqueTypes(conds) && Started(conds, at)
    ensures TimedOut(conds, timeout, now) <==> at + timeout < now
  {
    GetType(conds, Scaling);
    if conds[0].ctype != Scaling { TimedOutReadsScaling(conds[1..], at, timeout, now); }
  }

  /** Once a scale-out has started, its deadline never moves, however often it is selected again
      and whatever else is recorded on it. */
  lemma {:induction false} DeadlineFixed(conds: seq<Condition>, cs: seq<Condition>, at: int, timeout: int, now: int)
    requires UniqueTypes(conds) && Exclusive(conds) && Started(conds, at)
    requires forall c :: c in cs ==> Issued(c)
    ensures TimedOut(SetAll(conds, cs), timeout, now) <==> at + timeout < now
    decreases |cs|
  {
    if cs == [] {
      TimedOutReadsScaling(conds, at, timeout, now);
    } else {
      assert cs[0] in cs;
      SetRefinesMap(conds, cs[0]);
      GetType(conds, Scaling);
      assert Started(Set(conds, cs[0]), at);
      DeadlineFixed(Set(conds, cs[0]), cs[1..], at, timeout, now);
    }
  }

  // ---------- the status record the operations update in place ----------

  /** JobStatus: the part of a job's or scaler's status that the condition functions change. */
  class JobStatus {
    var phase: ConditionType
    var conditions: seq<Condition>
    var currentScaler: string
    var restartCount: int

    constructor (phase: ConditionType, conditions: seq<Condition>, currentScaler: string, restartCount: int)
      ensures this.phase == phase && this.conditions == conditions
      ensures this.currentScaler == currentScaler && this.restartCount == restartCount
    {
      this.phase, this.conditions := phase, conditions;
      this.currentScaler, this.restartCount := currentScaler, restartCount;
    }

    method HasCondition(condType: ConditionType) returns (has: bool)
      ensures has <==> Has(conditions, condType)
    {
      for k := 0 to |conditions|
        invariant Has(conditions, condType) <==> Has(conditions[k..], condType)
      {
        assert conditions[k..][1..] == conditions[k + 1..];
        if conditions[k].ctype == condType && conditions[k].status { return true; }
      }
      return false;
    }

    method GetCondition(condType: ConditionType) returns (c: Option<Condition>)
      ensures c == Get(conditions, condType)
    {
      for k := 0 to |conditions|
        invariant Get(conditions, condType) == Get(conditions[k..], condType)
      {
        assert conditions[k..][1..] == conditions[k + 1..];
        if conditions[k].ctype == condType { return Some(conditions[k]); }
      }
      return None;
    }

    /** filterOutCondition. */
    method FilterOutCondition(condType: ConditionType) returns (newConditions: seq<Condition>)
      ensures newConditions == FilterOut(conditions, condType)
    {
      newConditions := [];
      for k := 0 to |conditions|
        invariant newConditions == FilterOut(conditions[..k], condType)
      {
        FilterOutTake(conditions, condType, k);
        var c := conditions[k];
        if condType == Restarting && c.ctype == Running { continue; }
        if condType == Running && c.ctype == Restarting { continue; }
        if c.ctype == condType { continue; }
        if (condType == Failed || condType == Succeeded) && c.ctype == Running {
          c := c.(status := false);
        }
        newConditions := newConditions + [c];
      }
      assert conditions[..|conditions|] == conditions;
    }

    /** setCondition. */
    method SetCondition(condition: Condition)
      modifies this`conditions
      ensures conditions == Set(old(conditions), condition)
    {
      var failed := HasCondition(Failed);
      if failed { return; }
      var currentCond := GetCondition(condition.ctype);
      if currentCond.Some? && currentCond.value.status == condition.status
         && currentCond.value.reason == condition.reason
         && currentCond.value.message == condition.message
      {
        return;
      }
      var adjusted := condition;
      if currentCond.Some? && currentCond.value.status == condition.status {
        adjusted := condition.(lastTransitionTime := currentCond.value.lastTransitionTime);
      }
      var newConditions := FilterOutCondition(condition.ctype);
      conditions := newConditions + [adjusted];
    }

    /** updateJobConditions. */
    method UpdateJobConditions(t: ConditionType, reason: string, message: string, now: int)
      modifies this`conditions
      ensures conditions == Set(old(conditions), NewCondition(t, reason, message, now))
    {
      SetCondition(NewCondition(t, reason, message, now));
    }

    /** updateStatus: the condition and the phase together. */
    method UpdateStatus(t: ConditionType, reason: string, message: string, now: int)
      modifies this`conditions, this`phase
      ensures conditions == Set(old(conditions), NewCondition(t, reason, message, now)) && phase == t
    {
      UpdateJobConditions(t, reason, message, now);
      phase := t;
    }

    /** IsScaleOutTimeout. */
    method IsScaleOutTimeout(timeout: int, now: int) returns (late: bool)
      ensures late <==> TimedOut(conditions, timeout, now)
    {
      for k := 0 to |conditions|
        invariant TimedOut(conditions, timeout, now) <==> TimedOut(conditions[k..], timeout, now)
      {
        assert conditions[k..][1..] == conditions[k + 1..];
        var condition := conditions[k];
        if condition.ctype == Scaling && condition.reason == SCALING_START {
          return condition.lastTransitionTime + timeout < now;
        }
      }
      return false;
    }
  }
}
