# Training console: client-side state, translation lookup and avatar choice

This project models the four pieces of client-side logic in a browser console for a
personal-training business (trainers manage clients, exercises and training plans).
The rest of the console is a presentation layer over a REST backend.

- **Plan-creation wizard store** (`plan_wizard.dfy`, module `PlanWizard`). The class
  `PlanWizardStore` holds the draft plan: its name and description, an ordered list of
  days, each day's ordered list of exercises, and the active step of the four-step
  wizard. Each action replaces `days` through a pure transform. The transforms are
  `AppendDay`, `WithoutDay`, `RenameDay`, `AppendExercise`, `WithoutExercise` and
  `PatchExercise`. Lemmas state what each transform keeps and changes. Other lemmas
  prove that day ids and per-day exercise ids stay distinct when temporary ids are
  fresh. Step navigation saturates at 0 and 3. `setStep` does not clamp.
- **Session store** (`auth_store.dfy`, module `AuthStore`). The class `AuthStore` holds
  the user, the token and `isAuthenticated`, plus the browser storage as a
  `map<string, string>`. `JSON.stringify` and `JSON.parse` are function values given to
  the constructor. `login`, `logout` and `initAuth` are methods, each tied to pure
  functions of the storage. A client method shows that a login survives a page reload.
- **Translation lookup** (`translation.dfy`, module `Translation`). A dictionary is a
  tree with string leaves. `t` splits the path on dots and walks the tree. When a
  segment is missing it returns the path itself. It then applies each parameter with
  `String.prototype.replace`, which replaces only the first `{key}` and gives `$`
  special meaning in the value. The provider class holds the current language
  (Spanish by default) and persists it under "language".
- **Avatar selection** (`avatar.dfy`, module `Avatar`). `GetAvatarIndex` runs the hash
  loop over the id's UTF-16 code units. The shift works on the 32-bit view of the hash;
  the subtraction works on the unwrapped number. The index is `|hash| mod 6`. The
  chosen URL follows the priority `src`, then `avatarUrl`, then the collection.
- `js_semantics.dfy` (module `JsSemantics`) holds the JavaScript semantics these rely
  on: absent values, string truthiness, `ToInt32`, `<<`, UTF-16 code units and the
  decimal text of an integer.

Besides next and back, the wizard store has `setStep`, which jumps to any step without
clamping. The progress bar calls it to return to a completed step
(`app/(dashboard)/training-plans/create/components/WizardProgress.tsx`, line 28).

## Model

| member | source | states |
|---|---|---|
| JsSemantics.Get | stores/auth-store.ts:37-38 | reading a storage key gives its value if present and null otherwise |
| JsSemantics.ToInt32 | components/ui/avatar.tsx:27 | the 32-bit view `<<` takes of its operand: in [-2^31, 2^31), congruent to the input modulo 2^32, and the input itself when already in range |
| JsSemantics.ShiftLeft | components/ui/avatar.tsx:27 | `x << n` is a 32-bit integer congruent to x·2^n modulo 2^32 |
| JsSemantics.Utf16 | components/ui/avatar.tsx:26-27 | the code units `charCodeAt` reads: between one and two per character, exactly one per character when all are in the Basic Multilingual Plane |
| JsSemantics.NatToString | stores/plan-wizard.store.ts:74 | the template-literal text of a count is a non-empty string of decimal digits |
| JsSemantics.NatToStringRoundTrip | stores/plan-wizard.store.ts:74 | reading that text back as a decimal gives the count, so different day numbers give different labels |
| Avatar.HashStep | components/ui/avatar.tsx:27 | one loop step is `31 * hash + charCode` modulo 2^32 and moves the unwrapped hash by at most 2^31 + 2^16 - 1 |
| Avatar.Hash | components/ui/avatar.tsx:25-28 | the hash after the whole loop: each code unit moves it by at most 2^31 + 2^16 - 1, so its size is bounded by the id's length |
| Avatar.AvatarIndex | components/ui/avatar.tsx:29 | `Math.abs(hash) % 6` is a valid index into the six-picture collection |
| Avatar.GetAvatarIndex | components/ui/avatar.tsx:24-30 | the loop's index is in [0, 6) and equals the hash-mod specification of the id alone |
| Avatar.EmptyIdPicksFirst | components/ui/avatar.tsx:24-30 | the empty id keeps hash 0 and picks index 0 |
| Avatar.SingleUnitHash | components/ui/avatar.tsx:25-29 | a one-character id hashes to its character code and picks code mod 6 |
| Avatar.HashInt32View | components/ui/avatar.tsx:26-28 | the 32-bit view of the hash equals the classic wrapped `31*h + c` string hash, an independent definition |
| Avatar.HashExactAsDouble | components/ui/avatar.tsx:26-28 | for ids under 2^20 code units every intermediate value is below 2^53, so double arithmetic is exact and unbounded integers match it |
| Avatar.FinalAvatarUrl | components/ui/avatar.tsx:32 | `src` if truthy, else `avatarUrl` if truthy, else the collection entry at the id's index; the URL is never empty |
| Avatar.FallbackFromCollection | components/ui/avatar.tsx:14-32 | with neither source given, the URL is a collection member and depends on the id alone |
| Avatar.SizeClass | components/ui/avatar.tsx:34-39 | every size gets a square box: height and width take the same spacing step, `h-N w-N` with N the size's step |
| Avatar.DefaultSizeIsMedium | components/ui/avatar.tsx:12 | an avatar rendered without a size is medium, class "h-10 w-10" |
| Avatar.SizeStepGrows | components/ui/avatar.tsx:34-39 | the steps grow with the size: sm < md < lg < xl |
| Avatar.SizeClassInjective | components/ui/avatar.tsx:34-39 | different sizes get different classes |
| Translation.SavedLanguage | hooks/use-translation.tsx:28-33 | a stored language is adopted exactly when the stored text is "en" or "es" |
| Translation.SavedLanguageRoundTrip | hooks/use-translation.tsx:29-37 | the language written by `setLanguage` is the one a later mount reads back |
| Translation.Split | hooks/use-translation.tsx:41 | splitting on "." gives at least one piece, and no piece contains a dot |
| Translation.JoinSplit | hooks/use-translation.tsx:41 | joining the pieces with dots gives back the path |
| Translation.SplitJoin | hooks/use-translation.tsx:41 | splitting dot-free keys joined by dots gives back the keys |
| Translation.Lookup | hooks/use-translation.tsx:44-50 | the empty path stays at the node; a first segment that is missing, or that meets a string, makes the lookup missing |
| Translation.Descend | hooks/use-translation.tsx:42-50 | the key loop computes the lookup, stopping at the first missing segment |
| Translation.LookupAppend | hooks/use-translation.tsx:44-50 | descending a path means descending its prefix, then the rest from the node reached |
| Translation.MissingSegment | hooks/use-translation.tsx:44-47 | a segment missing at any depth makes the whole lookup missing |
| Translation.IndexOf | hooks/use-translation.tsx:56 | the result is the first occurrence of the pattern, or none exists |
| Translation.Expand | hooks/use-translation.tsx:56 | the substitution `replace` makes of its value: a value without "$" is inserted verbatim; a value `$$`, `$&`, `` $` `` or `$'` followed by dollar-free text becomes a dollar sign, the match, the text before it or the text after it, followed by that text |
| Translation.Replace | hooks/use-translation.tsx:56 | an absent placeholder leaves the text unchanged; with a dollar-free value only the first occurrence is replaced, by the value |
| Translation.DollarAmpersandReinsertsMatch | hooks/use-translation.tsx:56 | a value "$&" + v, with v dollar-free, puts the placeholder itself back, followed by v, at the first occurrence |
| Translation.SubstituteAll | hooks/use-translation.tsx:54-58 | the parameters applied in entry order; those whose placeholders do not occur leave the translation unchanged |
| Translation.FillPlaceholders | hooks/use-translation.tsx:54-58 | the parameter loop computes the in-order substitution |
| Translation.Translate | hooks/use-translation.tsx:40-61 | a missing segment gives back the path; a leaf comes back with its placeholders filled, or unchanged without parameters; an object reached with no or empty parameters comes back as that object, and the call fails exactly when non-empty parameters are applied to it |
| Translation.MissingKeyReturnsPath | hooks/use-translation.tsx:44-47 | a missing segment at any depth makes `t` return the path itself, with no substitution |
| Translation.DottedPathDescends | hooks/use-translation.tsx:40-52 | `t` of dotted keys returns the leaf they reach, unchanged when no parameters or an empty parameter object are passed |
| Translation.OneParamFillsFirstPlaceholder | hooks/use-translation.tsx:52-60 | one dollar-free parameter replaces the first `{key}` only, or changes nothing if it is absent |
| Translation.TranslationProvider.constructor | hooks/use-translation.tsx:25 | the provider starts in Spanish |
| Translation.TranslationProvider.LoadSavedLanguage | hooks/use-translation.tsx:28-33 | on mount, a stored "en"/"es" becomes the language; storage is not written |
| Translation.TranslationProvider.SetLanguage | hooks/use-translation.tsx:35-38 | sets the language and writes its code under "language" |
| Translation.TranslationProvider.T | hooks/use-translation.tsx:40-61 | `t` on the current language's dictionary computes the lookup-then-substitute specification |
| Translation.LanguageSurvivesReload | hooks/use-translation.tsx:25-38 | after `setLanguage(l)`, a fresh provider over the same storage mounts in l |
| AuthStore.LoginStorage | stores/auth-store.ts:19-23 | login writes "token" and "user" and keeps every other key |
| AuthStore.ClearSession | stores/auth-store.ts:27-31 | removes exactly "token" and "user" |
| AuthStore.ClearSessionIdempotent | stores/auth-store.ts:27-33 | a second logout changes the storage no further |
| AuthStore.StoredSession | stores/auth-store.ts:35-42 | no session unless both keys hold non-empty text; unreadable exactly when parsing fails; otherwise the stored token and parsed user |
| AuthStore.InitAuthSession | stores/auth-store.ts:40-49 | the in-memory state is replaced only when a session was restored: authenticated, with the stored token and the parsed user |
| AuthStore.InitAuthStorage | stores/auth-store.ts:40-48 | storage is cleared only when the stored user cannot be parsed, else unchanged |
| AuthStore.InitAuthKeepsConsistent | stores/auth-store.ts:35-50 | `isAuthenticated ⇔ token and user present` survives `initAuth` unless the stored user parses to null |
| AuthStore.InitAuthNullUserBreaksConsistency | stores/auth-store.ts:42-43 | a stored user text parsing to null yields an authenticated session without a user |
| AuthStore.LoginIsRestored | stores/auth-store.ts:19-43 | a login is restored by the next `initAuth` exactly when its token is non-empty, given a round-tripping codec |
| AuthStore.LogoutIsNotRestored | stores/auth-store.ts:27-40 | after logout, `initAuth` finds no session and changes nothing |
| AuthStore.AuthStore.constructor | stores/auth-store.ts:14-17 | the store starts unauthenticated with no user and no token |
| AuthStore.AuthStore.Login | stores/auth-store.ts:19-25 | token and user are the arguments, authenticated; storage updated only in a browser |
| AuthStore.AuthStore.Logout | stores/auth-store.ts:27-33 | signed out; both keys removed only in a browser |
| AuthStore.AuthStore.InitAuth | stores/auth-store.ts:35-51 | state and storage follow the restore functions in a browser and stay unchanged on the server; consistency kept unless the stored user is null |
| AuthStore.SessionSurvivesReload | stores/auth-store.ts:19-43 | a fresh store over the storage a login wrote restores the same signed-in session |
| PlanWizard.MergePlanInfo | stores/plan-wizard.store.ts:64 | spread of the argument over the plan info: a key the argument carries wins, a key it lacks keeps its value |
| PlanWizard.FullPlanInfoPatchReplaces | stores/plan-wizard.store.ts:64 | spreading a full plan info over the old one replaces both fields |
| PlanWizard.Merge | stores/plan-wizard.store.ts:124-134 | spread of a config over an exercise, field by field for all thirteen fields: a key the config carries wins, a key it lacks keeps the exercise's value; an empty config changes nothing |
| PlanWizard.MergeIdempotent | stores/plan-wizard.store.ts:130 | applying a config twice equals applying it once |
| PlanWizard.MergeThen | stores/plan-wizard.store.ts:130 | two successive config updates equal one update with the combined config |
| PlanWizard.Advance | stores/plan-wizard.store.ts:66 | next step is step+1 below 3 and 3 from 3 upward |
| PlanWizard.Retreat | stores/plan-wizard.store.ts:67 | previous step is step-1 above 0 and 0 from 0 downward |
| PlanWizard.AdvanceSaturates | stores/plan-wizard.store.ts:66 | n ≥ 1 presses of next give min(step+n, 3) |
| PlanWizard.RetreatSaturates | stores/plan-wizard.store.ts:67 | n ≥ 1 presses of back give max(step-n, 0) |
| PlanWizard.NavigationStaysInRange | stores/plan-wizard.store.ts:66-67 | next and back keep a step in 0..3 inside 0..3 |
| PlanWizard.Filter | stores/plan-wizard.store.ts:82 | the filter is no longer than its input |
| PlanWizard.FilterAllKept | stores/plan-wizard.store.ts:82 | the filter returns its input unchanged when the callback accepts every element |
| PlanWizard.FilterMembers | stores/plan-wizard.store.ts:82 | the filter keeps exactly the elements the callback accepts |
| PlanWizard.FilterConcat | stores/plan-wizard.store.ts:82 | filtering works piecewise, so kept elements keep their relative order |
| PlanWizard.FilterKeepsDistinct | stores/plan-wizard.store.ts:82 | filtering keeps distinct ids distinct |
| PlanWizard.FilterDropsOne | stores/plan-wizard.store.ts:82 | dropping one rejected element between kept stretches closes the gap |
| PlanWizard.FilterDropsAt | stores/plan-wizard.store.ts:82 | when only the element at index k is rejected, the filter is the input without index k |
| PlanWizard.AppendDay | stores/plan-wizard.store.ts:69-79 | one day appended at the end, labelled "Day n+1" with order n+1 and no exercises; earlier days unchanged |
| PlanWizard.AppendDayKeepsIdsDistinct | stores/plan-wizard.store.ts:69-79 | a fresh id keeps day ids distinct |
| PlanWizard.WithoutDay | stores/plan-wizard.store.ts:81-83 | keeps exactly the days with a different id; an unknown id leaves the days unchanged |
| PlanWizard.OtherDaysKept | stores/plan-wizard.store.ts:81-83 | with distinct ids, every other day survives removal of day k |
| PlanWizard.WithoutDayRemovesOne | stores/plan-wizard.store.ts:81-83 | with distinct ids, removing day k's id gives the days before and after k, in order |
| PlanWizard.WithoutDayKeepsIdsDistinct | stores/plan-wizard.store.ts:81-83 | removal keeps day ids distinct |
| PlanWizard.MapMatching | stores/plan-wizard.store.ts:86 | only days with the matching id are transformed; the length is kept |
| PlanWizard.RenameDay | stores/plan-wizard.store.ts:85-87 | length, ids, orders and exercises kept; only matching days' names change |
| PlanWizard.NewExercise | stores/plan-wizard.store.ts:98-108 | the appended exercise copies the catalogue id and name, with 3 sets, "8-12" reps, RIR 2, 90 s rest and the given order |
| PlanWizard.AppendExercise | stores/plan-wizard.store.ts:91-112 | each matching day gains one exercise at the end, ordered by its previous count + 1; other days untouched |
| PlanWizard.AppendExerciseKeepsIdsDistinct | stores/plan-wizard.store.ts:91-112 | fresh temporary ids keep day ids and per-day exercise ids distinct |
| PlanWizard.DropExercise | stores/plan-wizard.store.ts:114-121 | the day keeps its id, name and order; its exercises are the filter by a different temporary id, so exactly those remain |
| PlanWizard.WithoutExercise | stores/plan-wizard.store.ts:114-122 | only matching days change, and their exercises are filtered by a different temporary id |
| PlanWizard.WithoutExerciseKeepsIdsDistinct | stores/plan-wizard.store.ts:114-122 | removal keeps day and exercise ids distinct |
| PlanWizard.PatchExercise | stores/plan-wizard.store.ts:124-134 | in matching days, matching exercises take the config's present fields; all other days, exercises and fields stay |
| PlanWizard.PatchExerciseKeepsIdsDistinct | stores/plan-wizard.store.ts:124-134 | a config without `id` keeps day and exercise ids distinct |
| PlanWizard.PlanWizardStore.constructor | stores/plan-wizard.store.ts:56-62 | empty name and description, no days, step 0 |
| PlanWizard.PlanWizardStore.SetPlanInfo | stores/plan-wizard.store.ts:64 | plan info is the spread of the argument over the old info; nothing else changes |
| PlanWizard.PlanWizardStore.SetStep | stores/plan-wizard.store.ts:65 | the step is set as given, unclamped; nothing else changes |
| PlanWizard.PlanWizardStore.NextStep | stores/plan-wizard.store.ts:66 | step becomes min(step+1, 3); nothing else changes |
| PlanWizard.PlanWizardStore.PrevStep | stores/plan-wizard.store.ts:67 | step becomes max(step-1, 0); nothing else changes |
| PlanWizard.PlanWizardStore.AddDay | stores/plan-wizard.store.ts:69-79 | days become the appended list; distinct day ids stay distinct; nothing else changes |
| PlanWizard.PlanWizardStore.RemoveDay | stores/plan-wizard.store.ts:81-83 | days become the filtered list; distinct day ids stay distinct |
| PlanWizard.PlanWizardStore.UpdateDayName | stores/plan-wizard.store.ts:85-87 | days become the renamed list; nothing else changes |
| PlanWizard.PlanWizardStore.ReorderDays | stores/plan-wizard.store.ts:89 | days are the caller's list as given, orders not renumbered |
| PlanWizard.PlanWizardStore.AddExerciseToDay | stores/plan-wizard.store.ts:91-112 | days gain the new exercise; id distinctness kept |
| PlanWizard.PlanWizardStore.RemoveExerciseFromDay | stores/plan-wizard.store.ts:114-122 | days lose the exercise; id distinctness kept |
| PlanWizard.PlanWizardStore.UpdateExerciseConfig | stores/plan-wizard.store.ts:124-134 | days take the patched exercise; id distinctness kept when the config has no `id` |
| PlanWizard.PlanWizardStore.Reset | stores/plan-wizard.store.ts:136-140 | the draft equals the initial draft |

## Left out

- Rendering, React context and effects scheduling: JSX, how the size class and the caller's `className` are combined on the element, the `<img>` element, the image's alt text, the `onError` fallback to a generated-avatar URL, and `useTranslation` throwing outside a provider. `SizeClass` models the `sizeClasses` table itself.
- Logging: `console.warn` on a missing translation and `console.error` on an unreadable user are not modelled.
- Randomness: `crypto.randomUUID` is a parameter. `PlanWizardStore.AddDay` and `PlanWizardStore.AddExerciseToDay` require it to be fresh, which the browser guarantees in practice.
- Numbers: exercise fields, orders and steps are integers. `NaN` from `parseInt` and fractional values are not modelled.
- Avatar.GetAvatarIndex: the hash is exact integer arithmetic. JavaScript doubles lose precision only for ids of 2^20 or more code units, as `HashExactAsDouble` shows.
- Avatar.GetAvatarIndex: ids are Dafny strings, whose characters are Unicode scalar values. A JavaScript id holding a lone surrogate code unit cannot be expressed.
- Translation.TranslationProvider.T: property reads on a string leaf (numeric indices, `length`) and inherited object members such as `toString` count as missing segments. In the browser they return a character, a number or a function.
- Translation.TranslationProvider.T: parameters are an entry sequence in `Object.entries` order, with string values. The integer-keys-first ordering and `String(number)` formatting are not modelled.
- Translation.OneParamFillsFirstPlaceholder: stated only for values without "$". A value with "$$", "$&", "$`" or "$'" is expanded by `replace`. `Replace` and `DollarAmpersandReinsertsMatch` model that.
- AuthStore.InitAuthKeepsConsistent: excludes a stored user text that parses to `null`. As written, the source then sets `isAuthenticated` with no user (`InitAuthNullUserBreaksConsistency`).
- JSON results other than an object or `null` (numbers, strings, arrays) are not modelled as parsed users. `JSON.stringify` and `JSON.parse` are abstract function values.
- The user record carries only id, email, name and role, and the session store never looks inside it. The catalogue exercise carries only id, name, description and muscle group; `addExerciseToDay` reads its id and name (`NewExercise`), and nothing reads the rest.
- Config keys present with `undefined` are modelled only for optional exercise fields. `Partial<WizardExercise>` would also accept `undefined` for a required field such as `targetSets`. The model cannot represent that; the exercise step passes only parsed numbers or input text (`app/(dashboard)/training-plans/create/components/PlanExercisesStep.tsx`, lines 78-105).
- Browser storage is one `localStorage` in the source. Each store here holds its own map. Their keys ("token" and "user" vs "language") do not overlap.
