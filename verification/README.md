# tkfmtools battle-board and skill model in Dafny

This project models the pure logic of a companion web tool for a team-based mobile RPG.
It covers five pieces:

- **Skill data model** (`skills.dfy`, module `Skills`). It holds the closed enumerations of action kinds (codes 0-20) and effect kinds (codes 21-42), along with conditions, targets, bases and turn phases. It also holds the `ISkill` record, the refinement shapes of that record as predicates, the runtime `SkillEffect` record, and the `potentialPassive` constructor.
- **Battle-board move gating** (`battle_board.dfy`, module `BattleBoard`). Each click handler is a pure function that returns `Dispatch(move)` or `Reject`; `Reject` stands for opening the error notice. The four legality predicates `canSelect`, `canTarget`, `canAttack` and `canUltimate` are uninterpreted function values in a `Legality<G>` record, where `G` is the rest of the engine state. This module also covers the round number in the header, the game-over overlay and its verdict, and the "calculating" spinner.
- **Localized link path** (`localized_link.dfy`, module `LocalizedLink`). A route gets a `/lang` prefix; the index route is special-cased.
- **Render mask of `useSwitch`** (`use_switch.dfy`, module `UseSwitch`). This is the mask's initial value and its effect-driven update. It also includes `Replay`, which runs that update over a history of stored layouts.
- **Lineup thumbnails of `CharsBox`** (`team.dfy`, module `Team`).

`wrappers.dfy` defines the `Option` type that stands for JavaScript `undefined`.

Modelling conventions:

- JavaScript truthiness is written out. A stored layout is falsy when it is `undefined` or `""`. A character id shows an image only when it is present and non-empty.
- Indexing past the end of an array yields `undefined`, which never equals a truthy layout.
- Three skill fields are renamed. `type` is called `kind`, because `type` is a keyword. `skill` (the nested extra skill) is called `extra`. `CD` is called `cd`.
- Numeric skill magnitudes are exact `real`s. Durations, cooldowns, stack caps, repeat counts and the `potential` level of `potentialPassive` are `int`s. `conditionValue` is a `real`, even though a turn-based skill stores a turn index there, because other conditions store an HP threshold in the same field.
- `byAttribute` keeps the numeric code of a `CharacterAttribute`. src/types/characters.ts is not part of this model.

## Model

| member | source | states |
|---|---|---|
| Skills.ActionCode | src/types/skills.ts:23-45 | the 21 action kinds are numbered 0..20 in declaration order, and the decode table agrees |
| Skills.EffectCode | src/types/skills.ts:47-70 | effect kinds start at 21 and occupy 21..42, and the decode table agrees |
| Skills.TypeOfCode | src/types/skills.ts:23-70 | a number names a kind exactly when it is in 0..42, and it names an action exactly when it is below 21 |
| Skills.TypeCode | src/types/skills.ts:104 | a skill's numeric `type` is below 21 exactly when the skill is an action, and decoding that number gives the skill's type back |
| Skills.TypeCodeInjective | src/types/skills.ts:23-70 | no two kinds share a number, so a numeric `type` is unambiguous |
| Skills.IsPotentialKind | src/types/skills.ts:219-228 | the nine effect kinds `potentialPassive` accepts |
| Skills.IsOtherCondition | src/types/skills.ts:107-110 | `otherCondition` may only be `HP_GREATER_THAN`, `HP_LESS_THAN` or `EXIST_CHARACTER` |
| Skills.ValidExtra | src/types/skills.ts:125-155 | an extra skill's condition, type, basis and target lie in the subsets the `ExtraSkill` type allows |
| Skills.WellTyped | src/types/skills.ts:103-123 | an `ISkill` value respects the restricted types of `otherCondition` and `skill` |
| Skills.IsConditionalPassive | src/types/skills.ts:157-162 | condition `BATTLE_BEGIN`, an `HP_GREATER_THAN`/`HP_LESS_THAN` other condition with a numeric threshold, a value, and no `CD` or `maxStack` |
| Skills.IsUltimateSkill | src/types/skills.ts:169-173 | condition `ULTIMATE` and a `CD` |
| Skills.IsTurnBased | src/types/skills.ts:175-179 | condition `TURN_BASED` with both a trigger turn and a value |
| Skills.IsFollowUp | src/types/skills.ts:181-185 | type `FOLLOW_UP_ATTACK` with a value |
| Skills.IsSkillAction | src/types/skills.ts:187-189 | the type is an action kind |
| Skills.IsEndTurn | src/types/skills.ts:191-203 | type `HEAL`, `NORMAL_ATTACK` or `ULTIMATE`, a basis other than `DAMAGE`, a value, and phase `TURN_END` |
| Skills.IsStackableAsWritten | src/types/skills.ts:164-167 | the shape as written: a value and a `maxStack`, with `duration` still allowed |
| Skills.IsStackable | src/types/skills.ts:164-167 | the shape under the reading in which the omitted key was meant to be `duration`: a value and a `maxStack`, and no `duration` |
| Skills.ValidSkillSet | src/types/skills.ts:211-215 | every skill of the set is well typed and every ultimate is an `UltimateSkill` |
| Skills.ShapesByConditionDisjoint | src/types/skills.ts:157-179 | ultimate, turn-based and conditional-passive shapes exclude each other, because each fixes a different condition |
| Skills.ActionShapesHaveActionCodes | src/types/skills.ts:181-203 | end-of-turn and follow-up skills are `SkillAction`s whose numeric type is below 21 |
| Skills.StackableAsWrittenAdmitsDuration | src/types/skills.ts:164-167 | as written, the stackable shape still admits a `duration` |
| Skills.StackableIsPermanent | src/types/skills.ts:164-167 | the corrected stackable shape has a value and a stack cap and no duration |
| Skills.EffectSkill | src/types/skills.ts:205-209 | an effect's skill part has no `CD`, `possibility` or `repeat`, and rebuilding the effect from it with the same source, player and stack gives the effect back |
| Skills.ToEffect | src/types/skills.ts:205-209 | a runtime effect records its source index, source player and stack, and keeps the skill's kind, value, duration and cap |
| Skills.EffectDropsOnlyCooldownChanceRepeat | src/types/skills.ts:205-209 | turning a skill into an effect loses exactly `CD`, `possibility` and `repeat` |
| Skills.PotentialValue | src/types/skills.ts:238-258 | immunity kinds get no value, and only `DAMAGED` gets a negative value |
| Skills.PotentialPassive | src/types/skills.ts:217-261 | the result keeps `potential` and `type`; it has condition `BATTLE_BEGIN`, target `SELF` and phase `TURN_BEGIN`; only `ATTACK_POWER` sets a basis, and that basis is `TARGET_ATK`; the value is the table's value for the kind, so immunities have none; no condition value, other condition, attribute, duration, `CD`, stack cap, repeat, possibility or extra skill is set, so it always fires and never repeats; the record is well typed |
| Skills.PotentialValueTable | src/types/skills.ts:239-257 | the values are ATTACK_POWER 0.1, DAMAGED -0.05, GUARD_EFFECT 0.1, HEALED 0.15, NORMAL_ATTACK_DAMAGE 0.1 and ULTIMATE_DAMAGE 0.1 |
| Skills.PotentialPassiveShape | src/types/skills.ts:230-236 | a potential passive is an effect skill with numeric type at least 21, and it is none of the other refinement shapes |
| Skills.PotentialPassiveInjective | src/types/skills.ts:230-232 | different potentials or kinds give different records |
| BattleBoard.Live | src/components/battle/BattleBoard.tsx:147 | `ctx.turn > 0 && !ctx.gameover`: the battle has started and is not over; every gated handler tests this |
| BattleBoard.Lookup | src/components/battle/BattleBoard.tsx:143-144 | the current player's selected or target index is `undefined` exactly when the table has no entry for that player |
| BattleBoard.HandleCharacterClick | src/components/battle/BattleBoard.tsx:146-159 | nothing is dispatched unless the battle is live; on the current player's side the only possible move is `switchMember(ind)`, and it is dispatched iff `canSelect` holds; on the other side the only possible move is `switchTarget(ind)`, and it is dispatched iff `canTarget` holds; a refused selection never becomes a targeting |
| BattleBoard.HandleAttackClick | src/components/battle/BattleBoard.tsx:161-167 | an attack is dispatched iff the battle is live and `canAttack` holds on the current player's own selected and target indices, and it carries those indices |
| BattleBoard.HandleUltimateClick | src/components/battle/BattleBoard.tsx:169-179 | the same as attack, gated by `canUltimate` |
| BattleBoard.HandleGuardClick | src/components/battle/BattleBoard.tsx:181-187 | guard is dispatched iff the battle is live and `canSelect` holds on the selected index, and it guards that same index |
| BattleBoard.HandleUndoClick | src/components/battle/BattleBoard.tsx:189-195 | undo happens iff `turn > 0` and the game is not over |
| BattleBoard.HandleRedoClick | src/components/battle/BattleBoard.tsx:197-203 | redo happens iff `turn > 0` and the game is not over |
| BattleBoard.HandleClick | src/components/battle/BattleBoard.tsx:247-297 | each control runs its own handler; reset always dispatches reset; any other control that dispatches does so only in a live battle, and never dispatches reset |
| BattleBoard.HandleClickDecisionTable | src/components/battle/BattleBoard.tsx:146-203 | each control dispatches exactly the move it asks for when the per-move `Permitted` relation allows that move, and otherwise opens the notice; reset is never gated |
| BattleBoard.DispatchedMovesArePermitted | src/components/battle/BattleBoard.tsx:146-203 | every dispatched move satisfies `Permitted` |
| BattleBoard.NoMoveUnlessLive | src/components/battle/BattleBoard.tsx:146-203 | at turn 0 or after game over, every control except reset opens the notice |
| BattleBoard.Round | src/components/battle/BattleBoard.tsx:220-222 | the shown round r is the floor of (turn+1)/2: 2r <= turn+1 < 2r+2 |
| BattleBoard.RoundOfTurns | src/components/battle/BattleBoard.tsx:220-222 | turn 0 shows round 0, and turns 2k-1 and 2k both show round k |
| BattleBoard.RoundMonotone | src/components/battle/BattleBoard.tsx:220-222 | the shown round never decreases as the turn counter grows |
| BattleBoard.ShowOverlay | src/components/battle/BattleBoard.tsx:211 | the overlay is shown iff `turn > 0` and `gameover` is defined |
| BattleBoard.ShowSpinner | src/components/battle/BattleBoard.tsx:224-225 | the spinner is shown iff the current player is "1" and the game is not over |
| BattleBoard.OverlayVerdict | src/components/battle/BattleBoard.tsx:213-217 | the overlay reads "win" iff the game is over and the winner is "0" |
| BattleBoard.OverlayExcludesSpinnerAndMoves | src/components/battle/BattleBoard.tsx:211-231 | while the overlay is shown, the spinner is not, and no control except reset dispatches anything |
| LocalizedLink.IsIndex | src/components/LocalizedLink.js:9 | the route is the index route `"/"` |
| LocalizedLink.Localized | src/components/LocalizedLink.js:12 | the language segment is added unless `disableLocale` is set or the language is the default |
| LocalizedLink.LangPrefix | src/components/LocalizedLink.js:15-16 | the language segment is "/" followed by the language |
| LocalizedLink.LocalizedPath | src/components/LocalizedLink.js:9-16 | if locale is disabled or the language is the default, the path is `to`; otherwise it starts with `/lang`; the index route becomes exactly `/lang`; any other route `to` is what follows the segment |
| LocalizedLink.DelocalizeRecoversRoute | src/components/LocalizedLink.js:16 | dropping the language segment from a localized non-index path gives the route back |
| LocalizedLink.IndexHasNoTrailingSlash | src/components/LocalizedLink.js:9-15 | the localized index route is `/lang` with nothing after it |
| LocalizedLink.LocalizedPathInjective | src/components/LocalizedLink.js:14-16 | for a fixed language, two distinct routes give the same path only if they are the empty route and the index route |
| LocalizedLink.EmptyRouteMeetsIndex | src/components/LocalizedLink.js:9-16 | the empty route and the index route do share the path `/lang` |
| UseSwitch.Truthy | src/hooks/useSwitch.js:16 | the stored layout is truthy: present and not the empty string |
| UseSwitch.Matches | src/hooks/useSwitch.js:23 | `layouts[i] === localLayout`, which is false past the end of `layouts` |
| UseSwitch.InitialMask | src/hooks/useSwitch.js:11-13 | the mask starts with one entry per layout, and every entry is false |
| UseSwitch.UpdateMask | src/hooks/useSwitch.js:15-26 | the length is preserved; a falsy layout changes nothing; every slot of the current layout becomes true; with `unmountOnLeave`, exactly those slots are true; without it, true entries stay true; no other entry turns on |
| UseSwitch.UpdateIdempotent | src/hooks/useSwitch.js:22-23 | running the update twice with the same layout gives the same mask as running it once |
| UseSwitch.Replay | src/hooks/useSwitch.js:15-26 | the mask after the effect has run once per stored layout of a history, oldest first; its length never changes |
| UseSwitch.LastVisit | src/hooks/useSwitch.js:15-26 | the most recent truthy layout of a history: an entry of it with no truthy entry after it, or none when no entry is truthy |
| UseSwitch.VisitedLayoutsStayMounted | src/hooks/useSwitch.js:15-26 | without `unmountOnLeave`, every slot of every layout ever stored stays true |
| UseSwitch.UnmountKeepsOnlyLastVisit | src/hooks/useSwitch.js:15-26 | with `unmountOnLeave`, the mask after a history of layouts depends only on the last truthy layout in it |
| Team.IdOf | src/pages/team/index.js:143 | `c?.id` is `undefined` for a `null` slot and the member's id otherwise |
| Team.HasId | src/pages/team/index.js:143 | `c?.id !== undefined`: `null` ids and empty strings count as having an id |
| Team.ShowsImage | src/pages/team/index.js:150 | `c?.id` is truthy: a string other than `""` |
| Team.ImageName | src/pages/team/index.js:152 | an image name is "char_small_" followed by the character id |
| Team.ImageNames | src/pages/team/index.js:149-155 | there are never more images than lineup slots, and every image name carries the "char_small_" prefix |
| Team.ShownPositions | src/pages/team/index.js:149-155 | the positions of slots with a truthy id, strictly increasing and complete |
| Team.ImageNamesInLineupOrder | src/pages/team/index.js:149-155 | the k-th image is that of the k-th slot with a truthy id, so the images are exactly those slots in lineup order |
| Team.CharsBox | src/pages/team/index.js:140-158 | the placeholder is shown iff no slot has an id (null slots included); otherwise the images of the filtered slots are shown, and there are no more images than slots |
| Team.EmptyLineupsShowPlaceholder | src/pages/team/index.js:143-144 | an empty lineup, or one made only of null slots and members without an id, shows the placeholder |
| Team.NoTruthyIdNoPositions | src/pages/team/index.js:150 | a lineup without a truthy id has no slot that renders an image |
| Team.FalsyIdsShowNothing | src/pages/team/index.js:143-155 | every lineup that has some defined id but no truthy one (all ids `null`, `""` or missing) shows neither the placeholder nor any image |
| Team.FalsyIdExamples | src/pages/team/index.js:143-155 | `[{id: ""}]` and `[{id: null}]` are such lineups and render an empty container |

Two modelled details that are easy to miss:

- `ISkillSet.normalAttack` is typed `Exclude<ISkill, TurnBasedSkill>[]`. That exclusion removes nothing, because `ISkill` is not a union. So `ValidSkillSet` puts no turn-based restriction on normal attacks.
- `CharsBox` tests for an absent id with `=== undefined` but filters images by truthiness. A lineup whose ids are all `""` or `null` therefore renders an empty container (`Team.FalsyIdsShowNothing`).

## Left out

- The battle engine (combat resolution, the effect ledger, the legality predicates, the search bot) lives in modules this model does not include. The legality predicates are parameters without bodies.
- The host game framework: its state container, move dispatch and undo/redo history are represented only by the `Move` constructors `Undo`, `Redo` and `Reset`.
- The notice (snackbar) state is represented only by `Reject`. Closing the notice is not modelled.
- All rendering, styled-components and Material-UI widgets, tab persistence, `Layout.js`, `Header.js` and `CharTagMasonry.js` are left out, because they are presentation only.
- `BattleSettings.tsx` is left out: its slider bounds are widget configuration.
- The team-storage actions are left out, because they belong to a provider outside this model.
- Local storage for `useSwitch` is left out. The stored layout is passed in as a value, and `setLayout` only writes it.
- UseSwitch.Replay assumes the hook's `layouts` and `unmountOnLeave` arguments stay the same over the whole history. The effect depends only on the stored layout, so in the source each run uses the arguments of the render in which the layout changed. `canRender` also keeps the length it had at mount.
- React runs the `useSwitch` effect once on mount and again whenever the stored layout changes. The first entry of a `UseSwitch.Replay` history is the layout at mount; the later entries are the stored layouts after each change. `Replay` also accepts repeated entries; because the update is idempotent (`UseSwitch.UpdateIdempotent`), a repeat changes nothing.
- A defined `gameover` is assumed to be an object, as the `ctx.gameover?.winner` read suggests. A falsy `gameover` such as `null` or `false` is not modelled. The handlers and the spinner test `!ctx.gameover`, but the overlay tests `ctx.gameover !== undefined`. So with a falsy `gameover` the source would show the overlay and the spinner together and still dispatch moves. `BattleBoard.OverlayExcludesSpinnerAndMoves` depends on this assumption.
- Floating point is left out. The `potentialPassive` constants are exact reals, and no arithmetic is done on them.
- `LocalizedLink.d.ts` is left out, because it is a type declaration only.
- Character attributes are left out. `byAttribute` is an integer code, because the attribute enumeration is not part of this model.

## Findings

| source | as written | input that shows it | evidently intended | confidence | as-written member | corrected member |
|---|---|---|---|---|---|---|
| src/types/skills.ts:164 | `StackableSkill = Omit<ISkill, "duartion">` omits a key that `ISkill` does not have, so `duration` stays allowed | a skill with value 0.1, `maxStack` 3 and `duration` 2 is a `StackableSkill` | unclear: if the key was meant to be `duration`, a stackable skill is permanent and carries no duration; but a stack cap combined with a duration refreshed on each re-trigger is an equally plausible design, in which case nothing was meant to be omitted | low, not executed | Skills.StackableAsWrittenAdmitsDuration | Skills.StackableIsPermanent |
