/**
 * The two enumerations the core relies on: the plan status stored in the
 * `plans.status` column and the pipeline step codes. Their defining module is
 * not part of this model; the member sets are the ones the code refers to,
 * and each member's string value is taken to be its name.
 */
module Enums {
  import opened Wrappers
  import opened Text

  // ---------------------------------------------------------------- plan status

  datatype PlanStatus =
    | PASSIVEL_RESC
    | NOVO
    | SEM_TRATAMENTO
    | RESCINDIDO
    | LIQUIDADO
    | NAO_RESCINDIDO
    | ESPECIAL

  const AllPlanStatuses: seq<PlanStatus> :=
    [PASSIVEL_RESC, NOVO, SEM_TRATAMENTO, RESCINDIDO, LIQUIDADO, NAO_RESCINDIDO, ESPECIAL]

  /** The string stored in the database for a status (`status.value`). */
  function PlanStatusValue(s: PlanStatus): (v: string)
    ensures v != ""
  {
    match s
    case PASSIVEL_RESC => "PASSIVEL_RESC"
    case NOVO => "NOVO"
    case SEM_TRATAMENTO => "SEM_TRATAMENTO"
    case RESCINDIDO => "RESCINDIDO"
    case LIQUIDADO => "LIQUIDADO"
    case NAO_RESCINDIDO => "NAO_RESCINDIDO"
    case ESPECIAL => "ESPECIAL"
  }

  lemma AllPlanStatusesComplete(s: PlanStatus)
    ensures s in AllPlanStatuses
  {
  }

  /** `PlanStatus(raw)`: the member whose value is `raw`, or `None` where Python raises `ValueError`. */
  function PlanStatusFromValue(raw: string): (r: Option<PlanStatus>)
    ensures r.Some? ==> PlanStatusValue(r.value) == raw
    ensures r.None? ==> forall s: PlanStatus :: PlanStatusValue(s) != raw
  {
    var r := FindStatus(raw, 0);
    assert r.None? ==> forall s: PlanStatus :: PlanStatusValue(s) != raw by {
      forall s: PlanStatus
        ensures s in AllPlanStatuses
      {
        AllPlanStatusesComplete(s);
      }
    }
    r
  }

  function FindStatus(raw: string, i: nat): (r: Option<PlanStatus>)
    requires i <= |AllPlanStatuses|
    ensures r.Some? ==> PlanStatusValue(r.value) == raw
    ensures r.None? ==> forall j :: i <= j < |AllPlanStatuses| ==> PlanStatusValue(AllPlanStatuses[j]) != raw
    decreases |AllPlanStatuses| - i
  {
    if i == |AllPlanStatuses| then None
    else if PlanStatusValue(AllPlanStatuses[i]) == raw then Some(AllPlanStatuses[i])
    else FindStatus(raw, i + 1)
  }

  lemma PlanStatusValueInjective(a: PlanStatus, b: PlanStatus)
    requires PlanStatusValue(a) == PlanStatusValue(b)
    ensures a == b
  {
  }

  /** Parsing a stored value gives the status back. */
  lemma PlanStatusRoundTrip(s: PlanStatus)
    ensures PlanStatusFromValue(PlanStatusValue(s)) == Some(s)
  {
    var r := PlanStatusFromValue(PlanStatusValue(s));
    PlanStatusValueInjective(r.value, s);
  }

  // ---------------------------------------------------------------- steps

  /** The pipeline step codes referred to by the step catalogue. */
  datatype Step =
    | ETAPA_1 | ETAPA_2 | ETAPA_3 | ETAPA_4 | ETAPA_5
    | ETAPA_7 | ETAPA_8 | ETAPA_9 | ETAPA_10 | ETAPA_11 | ETAPA_12 | ETAPA_13

  /** The members in declaration order (`Step.__members__`). */
  const AllSteps: seq<Step> :=
    [ETAPA_1, ETAPA_2, ETAPA_3, ETAPA_4, ETAPA_5,
     ETAPA_7, ETAPA_8, ETAPA_9, ETAPA_10, ETAPA_11, ETAPA_12, ETAPA_13]

  lemma AllStepsComplete(s: Step)
    ensures s in AllSteps
  {
  }

  /** The number in a step's member name. */
  function Ordinal(s: Step): (n: nat)
    ensures 1 <= n <= 13 && n != 6
  {
    match s
    case ETAPA_1 => 1
    case ETAPA_2 => 2
    case ETAPA_3 => 3
    case ETAPA_4 => 4
    case ETAPA_5 => 5
    case ETAPA_7 => 7
    case ETAPA_8 => 8
    case ETAPA_9 => 9
    case ETAPA_10 => 10
    case ETAPA_11 => 11
    case ETAPA_12 => 12
    case ETAPA_13 => 13
  }

  const StepPrefix: string := "ETAPA_"

  /** `step.name`. */
  function StepName(s: Step): string {
    match s
    case ETAPA_1 => "ETAPA_1"
    case ETAPA_2 => "ETAPA_2"
    case ETAPA_3 => "ETAPA_3"
    case ETAPA_4 => "ETAPA_4"
    case ETAPA_5 => "ETAPA_5"
    case ETAPA_7 => "ETAPA_7"
    case ETAPA_8 => "ETAPA_8"
    case ETAPA_9 => "ETAPA_9"
    case ETAPA_10 => "ETAPA_10"
    case ETAPA_11 => "ETAPA_11"
    case ETAPA_12 => "ETAPA_12"
    case ETAPA_13 => "ETAPA_13"
  }

  /** Every member name is `ETAPA_` followed by the member's number in decimal. */
  lemma StepNameDigits(s: Step)
    ensures StepName(s) == StepPrefix + NatToString(Ordinal(s))
    ensures StartsWith(StepName(s), StepPrefix)
  {
  }

  lemma OrdinalInjective(a: Step, b: Step)
    requires Ordinal(a) == Ordinal(b)
    ensures a == b
  {
  }

  /** Distinct members have distinct names. */
  lemma StepNameInjective(a: Step, b: Step)
    requires StepName(a) == StepName(b)
    ensures a == b
  {
    StepNameDigits(a);
    StepNameDigits(b);
    assert StepName(a)[|StepPrefix|..] == NatToString(Ordinal(a));
    assert StepName(b)[|StepPrefix|..] == NatToString(Ordinal(b));
    ParseNatToString(Ordinal(a));
    ParseNatToString(Ordinal(b));
    OrdinalInjective(a, b);
  }

  /** `name in Step.__members__` followed by `Step[name]`. */
  function StepFromName(name: string): (r: Option<Step>)
    ensures r.Some? ==> StepName(r.value) == name
    ensures r.None? ==> forall s: Step :: StepName(s) != name
  {
    var r := FindStep(name, 0);
    assert r.None? ==> forall s: Step :: StepName(s) != name by {
      forall s: Step
        ensures s in AllSteps
      {
        AllStepsComplete(s);
      }
    }
    r
  }

  function FindStep(name: string, i: nat): (r: Option<Step>)
    requires i <= |AllSteps|
    ensures r.Some? ==> StepName(r.value) == name
    ensures r.None? ==> forall j :: i <= j < |AllSteps| ==> StepName(AllSteps[j]) != name
    decreases |AllSteps| - i
  {
    if i == |AllSteps| then None
    else if StepName(AllSteps[i]) == name then Some(AllSteps[i])
    else FindStep(name, i + 1)
  }

  predicate IsStepName(name: string) {
    StepFromName(name).Some?
  }

  lemma StepFromNameOfName(s: Step)
    ensures StepFromName(StepName(s)) == Some(s)
  {
    var r := StepFromName(StepName(s));
    StepNameInjective(r.value, s);
  }
}
