/**
 * The skill data model of src/types/skills.ts: the closed enumerations, the
 * `ISkill` record, its refinement shapes, the runtime effect record and the
 * potential-passive constructor.
 */
module Skills {
  import opened Wrappers

  /** Target-selection rules (`SkillTarget`). */
  datatype SkillTarget =
    | Self | Team | TeamExceptSelf | TeamLeastHp | SingleEnemy | AllEnemies
    | Fire | Water | Wind | Light | Dark
    | Attacker | Protector | Healer | Obstructer | Support | Leftmost

  /** Action kinds (`SkillActionType`), numbered 0 to 20 in declaration order. */
  datatype ActionType =
    | NormalAttack | Ultimate | CounterStrike | FollowUpAttack | RealAttack
    | Guard | Heal | Shield | CancelGuard | ChangeCd | ChangeCurrentCd
    | ChangeMaxHp | ClearAbnormal | ClearAttackDebuff | ClearSustainDebuff
    | ClearEffectFromSelf | Taunt | Sleep | Silence | Paralysis | AddSkill

  /** Effect kinds (`SkillEffectType`), numbered from 21 in declaration order. */
  datatype EffectType =
    | AttackPower | NormalAttackDamage | UltimateDamage | DealtDamage
    | AttributeDamaged | AttributeEffect | Damaged | NormalAttackDamaged
    | UltimateDamaged | GuardEffect | HealEffect | Healed | ShieldEffect
    | Shielded | CdFreezed | ImmuneChangeCd | ImmuneSleep | ImmuneSilence
    | ImmuneParalysis | Slept | Silenced | Paralyzed

  /** The stat a magnitude is computed against (`SkillEffectBasis`). */
  datatype Basis = SelfAtk | TargetAtk | TargetMaxHp | TargetCurrentHp | Damage

  /** Trigger conditions (`SkillCondition`). */
  datatype Condition =
    | Attack | NormalAttack | Ultimate | Guard | Attacked | Healed
    | TurnBased | BattleBegin | HpGreaterThan | HpLessThan | ExistCharacter

  /** The phase of a turn at which a skill fires (`SkillOn`). */
  datatype SkillOn = TurnBegin | BeforeAction | OnAction | AfterAction | ActionEnd | TurnEnd

  /** Action codes in their enum order: the code of `ActionList[n]` is `n`. */
  const ActionList: seq<ActionType> := [
    ActionType.NormalAttack, ActionType.Ultimate, CounterStrike, FollowUpAttack, RealAttack,
    ActionType.Guard, Heal, Shield, CancelGuard, ChangeCd, ChangeCurrentCd,
    ChangeMaxHp, ClearAbnormal, ClearAttackDebuff, ClearSustainDebuff,
    ClearEffectFromSelf, Taunt, Sleep, Silence, Paralysis, AddSkill]

  /** Effect codes in their enum order: the code of `EffectList[n]` is `21 + n`. */
  const EffectList: seq<EffectType> := [
    AttackPower, NormalAttackDamage, UltimateDamage, DealtDamage,
    AttributeDamaged, AttributeEffect, Damaged, NormalAttackDamaged,
    UltimateDamaged, GuardEffect, HealEffect, EffectType.Healed, ShieldEffect,
    Shielded, CdFreezed, ImmuneChangeCd, ImmuneSleep, ImmuneSilence,
    ImmuneParalysis, Slept, Silenced, Paralyzed]

  /** The first code taken by an effect kind. */
  const FirstEffectCode: nat := 21

  /** The numeric value of an action-kind enum member. */
  function ActionCode(a: ActionType): (n: nat)
    ensures n < |ActionList| && ActionList[n] == a
  {
    match a
    case NormalAttack => 0
    case Ultimate => 1
    case CounterStrike => 2
    case FollowUpAttack => 3
    case RealAttack => 4
    case Guard => 5
    case Heal => 6
    case Shield => 7
    case CancelGuard => 8
    case ChangeCd => 9
    case ChangeCurrentCd => 10
    case ChangeMaxHp => 11
    case ClearAbnormal => 12
    case ClearAttackDebuff => 13
    case ClearSustainDebuff => 14
    case ClearEffectFromSelf => 15
    case Taunt => 16
    case Sleep => 17
    case Silence => 18
    case Paralysis => 19
    case AddSkill => 20
  }

  /** The numeric value of an effect-kind enum member (the enum starts at 21). */
  function EffectCode(e: EffectType): (n: nat)
    ensures FirstEffectCode <= n < FirstEffectCode + |EffectList|
    ensures EffectList[n - FirstEffectCode] == e
  {
    match e
    case AttackPower => 21
    case NormalAttackDamage => 22
    case UltimateDamage => 23
    case DealtDamage => 24
    case AttributeDamaged => 25
    case AttributeEffect => 26
    case Damaged => 27
    case NormalAttackDamaged => 28
    case UltimateDamaged => 29
    case GuardEffect => 30
    case HealEffect => 31
    case Healed => 32
    case ShieldEffect => 33
    case Shielded => 34
    case CdFreezed => 35
    case ImmuneChangeCd => 36
    case ImmuneSleep => 37
    case ImmuneSilence => 38
    case ImmuneParalysis => 39
    case Slept => 40
    case Silenced => 41
    case Paralyzed => 42
  }

  /** A skill's `type`: the union `SkillActionType | SkillEffectType`. */
  datatype SkillType = Action(action: ActionType) | Effect(effect: EffectType)

  /** Reads a numeric `type` back as the enum member it denotes, if any. */
  function TypeOfCode(n: int): (r: Option<SkillType>)
    ensures r.Some? <==> 0 <= n < FirstEffectCode + |EffectList|
    ensures r.Some? ==> (r.value.Action? <==> n < FirstEffectCode)
  {
    if 0 <= n < |ActionList| then Some(Action(ActionList[n]))
    else if FirstEffectCode <= n < FirstEffectCode + |EffectList| then Some(Effect(EffectList[n - FirstEffectCode]))
    else None
  }

  /** The number a skill's `type` holds at run time. */
  function TypeCode(t: SkillType): (n: nat)
    ensures t.Action? <==> n < FirstEffectCode
    ensures TypeOfCode(n) == Some(t)
  {
    match t
    case Action(a) => ActionCode(a)
    case Effect(e) => EffectCode(e)
  }

  /** No two kinds share a number, so a numeric `type` names one kind. */
  lemma TypeCodeInjective(s: SkillType, t: SkillType)
    ensures TypeCode(s) == TypeCode(t) ==> s == t
  {
  }

  /** `otherConditionValue` is a number or a string. */
  datatype Operand = Num(num: real) | Text(text: string)

  /** `target` is a rule, a list of indices or a list of ids. */
  datatype TargetSpec = Rule(rule: SkillTarget) | Indices(indices: seq<int>) | Ids(ids: seq<string>)

  /** The nested `ExtraSkill` record a skill may grant. */
  datatype ExtraSkill = ExtraSkill(
    condition: Condition,
    kind: SkillType,
    basis: Option<Basis>,
    value: Option<real>,
    target: SkillTarget,
    on: SkillOn,
    duration: Option<int>,
    skillDuration: Option<int>,
    repeat: Option<int>)

  /**
   * The `ISkill` record. The source's field `type` is called `kind` here;
   * `byAttribute` holds the numeric code of a `CharacterAttribute`.
   */
  datatype Skill = Skill(
    kind: SkillType,
    condition: Condition,
    conditionValue: Option<real>,
    otherCondition: Option<Condition>,
    otherConditionValue: Option<Operand>,
    value: Option<real>,
    basis: Option<Basis>,
    target: TargetSpec,
    on: SkillOn,
    duration: Option<int>,
    cd: Option<int>,
    maxStack: Option<int>,
    byAttribute: Option<int>,
    repeat: Option<int>,
    possibility: Option<real>,
    extra: Option<ExtraSkill>)

  /** The conditions `otherCondition` may hold. */
  predicate IsOtherCondition(c: Condition) {
    c == HpGreaterThan || c == HpLessThan || c == ExistCharacter
  }

  /** The field restrictions of the `ExtraSkill` type. */
  predicate ValidExtra(x: ExtraSkill) {
    && (x.condition == Condition.NormalAttack || x.condition == Condition.Ultimate
        || x.condition == Attack || x.condition == Attacked || x.condition == BattleBegin)
    && (x.kind == Action(ActionType.NormalAttack) || x.kind == Action(ActionType.Ultimate)
        || x.kind == Action(CounterStrike) || x.kind == Action(FollowUpAttack)
        || x.kind == Action(Heal) || x.kind == Effect(AttackPower)
        || x.kind == Effect(UltimateDamage) || x.kind == Effect(NormalAttackDamage)
        || x.kind == Effect(ImmuneSilence) || x.kind == Effect(ImmuneSleep)
        || x.kind == Effect(ImmuneParalysis))
    && (x.basis == None || x.basis == Some(TargetAtk))
    && (x.target == SingleEnemy || x.target == AllEnemies || x.target == Self || x.target == Team)
  }

  /** The restrictions the `ISkill` interface puts on its own fields. */
  predicate WellTyped(s: Skill) {
    && (s.otherCondition.Some? ==> IsOtherCondition(s.otherCondition.value))
    && (s.extra.Some? ==> ValidExtra(s.extra.value))
  }

  /** `SkillAction`: a skill whose `type` is an action kind. */
  predicate IsSkillAction(s: Skill) {
    WellTyped(s) && s.kind.Action?
  }

  /** `UltimateSkill`: triggered by `ULTIMATE` and carrying a cooldown. */
  predicate IsUltimateSkill(s: Skill) {
    WellTyped(s) && s.condition == Condition.Ultimate && s.cd.Some?
  }

  /** `TurnBasedSkill`: triggered every n-th turn, with the turn and a value. */
  predicate IsTurnBased(s: Skill) {
    WellTyped(s) && s.condition == TurnBased && s.conditionValue.Some? && s.value.Some?
  }

  /**
   * `ConditionalPassiveSkill`: fires at battle begin under an HP threshold;
   * it has no `CD` and no `maxStack`.
   */
  predicate IsConditionalPassive(s: Skill) {
    && WellTyped(s)
    && s.condition == BattleBegin
    && (s.otherCondition == Some(HpGreaterThan) || s.otherCondition == Some(HpLessThan))
    && s.otherConditionValue.Some? && s.otherConditionValue.value.Num?
    && s.value.Some?
    && s.cd.None? && s.maxStack.None?
  }

  /**
   * `StackableSkill` as the source writes it: it omits the key "duartion",
   * which `ISkill` does not have, so `duration` stays allowed.
   */
  predicate IsStackableAsWritten(s: Skill) {
    WellTyped(s) && s.value.Some? && s.maxStack.Some?
  }

  /**
   * `StackableSkill` under the reading in which the omitted key was meant to
   * be `duration`: value and cap, and no `duration`.
   */
  predicate IsStackable(s: Skill) {
    IsStackableAsWritten(s) && s.duration.None?
  }

  /** A stackable skill as written may carry a duration. */
  lemma StackableAsWrittenAdmitsDuration()
    ensures exists s :: IsStackableAsWritten(s) && s.duration.Some?
  {
    var s := Skill(Effect(AttackPower), BattleBegin, None, None, None, Some(0.1), None,
                   Rule(Self), TurnBegin, Some(2), None, Some(3), None, None, None, None);
    assert IsStackableAsWritten(s) && s.duration.Some?;
  }

  /** The corrected shape: every stackable skill is permanent and capped. */
  lemma StackableIsPermanent(s: Skill)
    requires IsStackable(s)
    ensures s.duration.None? && s.maxStack.Some? && s.value.Some?
    ensures IsStackableAsWritten(s)
  {
  }

  /** `FollowUpAttackSkill`: a follow-up attack with a value. */
  predicate IsFollowUp(s: Skill) {
    WellTyped(s) && s.kind == Action(FollowUpAttack) && s.value.Some?
  }

  /** `EndTurnSkill`: a heal, attack or ultimate fired at turn end. */
  predicate IsEndTurn(s: Skill) {
    && WellTyped(s)
    && (s.kind == Action(Heal) || s.kind == Action(ActionType.NormalAttack) || s.kind == Action(ActionType.Ultimate))
    && s.basis.Some? && s.basis.value != Damage
    && s.value.Some?
    && s.on == TurnEnd
  }

  /** The refinement shapes that pin the trigger condition exclude each other. */
  lemma ShapesByConditionDisjoint(s: Skill)
    ensures !(IsUltimateSkill(s) && IsTurnBased(s))
    ensures !(IsUltimateSkill(s) && IsConditionalPassive(s))
    ensures !(IsTurnBased(s) && IsConditionalPassive(s))
  {
  }

  /** End-of-turn and follow-up skills are actions; their numeric type is below 21. */
  lemma ActionShapesHaveActionCodes(s: Skill)
    requires IsEndTurn(s) || IsFollowUp(s)
    ensures IsSkillAction(s)
    ensures TypeCode(s.kind) < FirstEffectCode
  {
  }

  /** `ISkillSet`: a character's skills grouped by how they are used. */
  datatype SkillSet = SkillSet(normalAttack: seq<Skill>, ultimate: seq<Skill>, passive: seq<Skill>)

  /** Every skill is well typed and every ultimate is an `UltimateSkill`. */
  predicate ValidSkillSet(set_: SkillSet) {
    && (forall i :: 0 <= i < |set_.normalAttack| ==> WellTyped(set_.normalAttack[i]))
    && (forall i :: 0 <= i < |set_.ultimate| ==> IsUltimateSkill(set_.ultimate[i]))
    && (forall i :: 0 <= i < |set_.passive| ==> WellTyped(set_.passive[i]))
  }

  /**
   * `SkillEffect`: a live effect. It keeps every `ISkill` field except `CD`,
   * `possibility` and `repeat`, and adds the index and player of its source
   * and an optional stack count.
   */
  datatype SkillEffect = SkillEffect(
    kind: SkillType,
    condition: Condition,
    conditionValue: Option<real>,
    otherCondition: Option<Condition>,
    otherConditionValue: Option<Operand>,
    value: Option<real>,
    basis: Option<Basis>,
    target: TargetSpec,
    on: SkillOn,
    duration: Option<int>,
    maxStack: Option<int>,
    byAttribute: Option<int>,
    extra: Option<ExtraSkill>,
    from: int,
    fromPlayer: string,
    stack: Option<int>)

  /** The skill fields an effect is built from: `CD`, `possibility`, `repeat` dropped. */
  function EffectSkill(e: SkillEffect): (s: Skill)
    ensures s.cd.None? && s.possibility.None? && s.repeat.None?
    ensures ToEffect(s, e.from, e.fromPlayer, e.stack) == e
  {
    Skill(e.kind, e.condition, e.conditionValue, e.otherCondition, e.otherConditionValue,
          e.value, e.basis, e.target, e.on, e.duration, None, e.maxStack, e.byAttribute,
          None, None, e.extra)
  }

  /** The effect a skill produces when it fires from character `from` of `fromPlayer`. */
  function ToEffect(s: Skill, from: int, fromPlayer: string, stack: Option<int>): (e: SkillEffect)
    ensures e.from == from && e.fromPlayer == fromPlayer && e.stack == stack
    ensures e.kind == s.kind && e.value == s.value && e.duration == s.duration && e.maxStack == s.maxStack
  {
    SkillEffect(s.kind, s.condition, s.conditionValue, s.otherCondition, s.otherConditionValue,
                s.value, s.basis, s.target, s.on, s.duration, s.maxStack, s.byAttribute,
                s.extra, from, fromPlayer, stack)
  }

  /** Turning a skill into an effect loses exactly `CD`, `possibility` and `repeat`. */
  lemma EffectDropsOnlyCooldownChanceRepeat(s: Skill, from: int, fromPlayer: string, stack: Option<int>)
    ensures EffectSkill(ToEffect(s, from, fromPlayer, stack)) == s.(cd := None, possibility := None, repeat := None)
  {
  }

  /** The effect kinds `potentialPassive` accepts. */
  predicate IsPotentialKind(e: EffectType) {
    e == AttackPower || e == Damaged || e == GuardEffect || e == EffectType.Healed
    || e == NormalAttackDamage || e == UltimateDamage
    || e == ImmuneSilence || e == ImmuneParalysis || e == ImmuneSleep
  }

  /** The immunity kinds, for which `potentialPassive` sets no value. */
  predicate IsImmunity(e: EffectType) {
    e == ImmuneSilence || e == ImmuneParalysis || e == ImmuneSleep
  }

  type PotentialKind = e: EffectType | IsPotentialKind(e) witness AttackPower

  /** The result of `potentialPassive`: a skill tagged with its potential level. */
  datatype PotentialSkill = PotentialSkill(potential: int, skill: Skill)

  /** The bonus value `potentialPassive` assigns to a kind, if any. */
  function PotentialValue(kind: PotentialKind): (v: Option<real>)
    ensures v.None? <==> IsImmunity(kind)
    ensures v.Some? && v.value < 0.0 <==> kind == Damaged
  {
    match kind
    case AttackPower => Some(0.1)
    case Damaged => Some(-0.05)
    case GuardEffect => Some(0.1)
    case Healed => Some(0.15)
    case NormalAttackDamage => Some(0.1)
    case UltimateDamage => Some(0.1)
    case _ => None
  }

  /**
   * `potentialPassive`: a permanent self-buff that fires at battle begin, at
   * the start of the turn, with the value table's bonus for its kind.
   */
  function PotentialPassive(potential: int, kind: PotentialKind): (r: PotentialSkill)
    ensures r.potential == potential && r.skill.kind == Effect(kind)
    ensures r.skill.condition == BattleBegin && r.skill.target == Rule(Self) && r.skill.on == TurnBegin
    ensures r.skill.basis.Some? <==> kind == AttackPower
    ensures r.skill.basis.Some? ==> r.skill.basis.value == TargetAtk
    ensures r.skill.value.None? <==> IsImmunity(kind)
    ensures r.skill.duration.None? && r.skill.cd.None? && r.skill.maxStack.None?
    ensures r.skill.otherCondition.None? && r.skill.extra.None?
    ensures r.skill.conditionValue.None? && r.skill.otherConditionValue.None? && r.skill.byAttribute.None?
    ensures r.skill.repeat.None? && r.skill.possibility.None?
    ensures r.skill.value == PotentialValue(kind)
    ensures WellTyped(r.skill)
  {
    var skill := Skill(Effect(kind), BattleBegin, None, None, None, PotentialValue(kind),
                       if kind == AttackPower then Some(TargetAtk) else None,
                       Rule(Self), TurnBegin, None, None, None, None, None, None, None);
    PotentialSkill(potential, skill)
  }

  /** The value table of `potentialPassive`. */
  lemma PotentialValueTable(p: int)
    ensures PotentialPassive(p, AttackPower).skill.value == Some(0.1)
    ensures PotentialPassive(p, Damaged).skill.value == Some(-0.05)
    ensures PotentialPassive(p, GuardEffect).skill.value == Some(0.1)
    ensures PotentialPassive(p, EffectType.Healed).skill.value == Some(0.15)
    ensures PotentialPassive(p, NormalAttackDamage).skill.value == Some(0.1)
    ensures PotentialPassive(p, UltimateDamage).skill.value == Some(0.1)
  {
  }

  /**
   * A potential passive is a well-typed effect skill of none of the other
   * refinement shapes: not an action, not an ultimate, not turn-based, not a
   * conditional passive, not stackable, and its numeric type is at least 21.
   */
  lemma PotentialPassiveShape(p: int, kind: PotentialKind)
    ensures var s := PotentialPassive(p, kind).skill;
      && WellTyped(s) && !IsSkillAction(s) && TypeCode(s.kind) >= FirstEffectCode
      && !IsUltimateSkill(s) && !IsTurnBased(s) && !IsConditionalPassive(s)
      && !IsStackable(s) && !IsStackableAsWritten(s) && !IsEndTurn(s) && !IsFollowUp(s)
  {
  }

  /** Different inputs give different potential passives. */
  lemma PotentialPassiveInjective(p: int, k: PotentialKind, q: int, l: PotentialKind)
    ensures PotentialPassive(p, k) == PotentialPassive(q, l) ==> p == q && k == l
  {
  }
}
