# Termix cocktail game: a verified model of its decision logic

Termix is a terminal game in which a bartender character mixes cocktails.
The player either follows a catalog recipe or mixes freely. This project
models the logic that decides the outcome:

- the built-in catalog of 40 ingredients and 17 recipes;
- the scoring of a mixed drink against a recipe, and its five grades;
- recipe unlocking;
- the two free-mixing front ends (the console demo and the free-mixing
  bench), each with its own recipe matcher, and the demo's free score;
- the ingredient pickers that build a selection (ingredient name to ml):
  the 10 ml and 15 ml pick-again toggles, paging, keyboard focus, and the
  clear and start buttons;
- the view switcher, and the frame counters of the animations;
- configuration loading: enum-name resolution, later entries replacing
  earlier ones, the built-in defaults, and the validator's error list;
- the quick-reference panel: series classification by flavour tag,
  order-preserving grouping, the three-ingredient summary, and lookup by
  name.

Python dicts are modelled as `Dicts.Dict`, an insertion-ordered key list
with a map. First match wins in several places, so the order matters.
Amounts are whole millilitres. Each relative tolerance is compared by
cross-multiplication. For example, `abs(a - t) / t > 0.5` becomes
`2 * |a - t| > t`, and lemmas connect each such test to the real-number
division. The source's scoring, search, validation, loading and grouping
loops are methods with `while` loops, each proved against a function that
specifies it. Widgets whose handlers update fields are classes.

Three places where the code's behaviour is easy to misread:

- The demo's free score is 50 plus fixed bonuses for a base spirit, a mixer
  and a garnish, plus a size term. It is at least 45, and 50 for an empty
  selection.
- There are two matchers, and they differ. The demo's is symmetric: two or
  more shared ingredients, each within 30% of the larger amount. The
  bench's is one-sided: the same ingredient set, each amount within 20% of
  the second argument's.
- The three pickers differ. The grid picker adds 10 ml per pick; the paged
  and keyboard pickers add 15 ml.

## Model

| member | source | states |
|---|---|---|
| Dicts.Dict.Put | src/free_mixing.py:217-224 | `d[k] = v` keeps the position of an existing key and appends a new one; the association is updated at `k` only |
| Dicts.Dict.Remove | src/ui_components.py:148-151 | `del d[k]` drops the key from the order and from the association, keeps the other keys distinct and in their order |
| Dicts.WithoutAppend | src/ui_components.py:148-151 | dropping a key from an ordered key list commutes with concatenation, so the remaining keys keep their relative order |
| Dicts.PutTwice | src/free_mixing.py:217-224 | assigning a key twice is assigning it the second value |
| Domain.IngredientTableOf | src/cocktail_system.py:52-427 | a dict display of ingredients keyed by their own names is a valid table with percentage alcohol content |
| Domain.RecipeTableOf | src/cocktail_system.py:429-680 | a dict display of recipes keyed by their own names is a valid recipe table with positive targets |
| Domain.RecipeTableOfLookup | src/cocktail_system.py:429-680 | the entry a name keeps in a dict display is the last entry written with that name |
| Domain.AmountsOf | src/cocktail_system.py:435-442 | a recipe's amount display, with no repeated name and positive amounts, is a valid ordered map with positive targets, in the order written |
| DefaultCatalog.Ingredients | src/cocktail_system.py:52-427 | the built-in ingredient table files every ingredient under its own name |
| DefaultCatalog.Recipes | src/cocktail_system.py:429-680 | the built-in recipe table files every recipe under its own name with positive targets |
| Cocktail.IngredientPenalty | src/cocktail_system.py:703-717 | one recipe ingredient costs at most 20, and 20 exactly when it is missing or 0 ml |
| Cocktail.PenaltyFollowsDeviation | src/cocktail_system.py:703-717 | the penalty is 20 for 0 ml, 15 above relative deviation 0.5, 8 above 0.2, else 0, with real division |
| Cocktail.ScaledComparison | src/cocktail_system.py:711-716 | `a / t > c` holds exactly when `a > c * t`, for positive `t` |
| Cocktail.PenaltySum | src/cocktail_system.py:703-717 | the deductions over a list of recipe ingredients are at most 20 per ingredient |
| Cocktail.RecipePenalty | src/cocktail_system.py:703-717 | the first loop's deductions are at most 20 per recipe ingredient |
| Cocktail.Extras | src/cocktail_system.py:720-723 | a name is an extra exactly when it is submitted, not in the recipe, and its amount is positive |
| Cocktail.RawScore | src/cocktail_system.py:699-723 | the unclamped score never exceeds 100, because it only decreases from 100 |
| Cocktail.Score | src/cocktail_system.py:699-726 | the score is in [0, 100]; it is the raw score, or 0 when that is negative |
| Cocktail.Grade.Text | src/cocktail_system.py:729-738 | every grade has a non-empty evaluation text |
| Cocktail.Grade.Threshold | src/cocktail_system.py:729-738 | no threshold is above 90 |
| Cocktail.GradeOf | src/cocktail_system.py:729-738 | a non-negative score reaches its grade's threshold |
| Cocktail.GradeBands | src/cocktail_system.py:729-738 | a score earns a grade exactly when it reaches that grade's threshold and no higher one (90/80/70/60) |
| Cocktail.GradeMonotone | src/cocktail_system.py:729-738 | a higher score never earns a lower grade |
| Cocktail.Evaluate | src/cocktail_system.py:690-740 | an unknown recipe gives (0, "未知配方"); a known one gives a score in [0, 100] with its grade's text |
| Cocktail.OwnAmountsPerfect | src/cocktail_system.py:699-717 | submitting a recipe's own amounts scores 100 and earns the top grade |
| Cocktail.ExactPenaltyZero | src/cocktail_system.py:703-717 | exact amounts cost nothing |
| Cocktail.EmptySubmission | src/cocktail_system.py:703-726 | an empty submission scores max(0, 100 - 20 per recipe ingredient) |
| Cocktail.MissingPenalty | src/cocktail_system.py:705-707 | each missing ingredient costs exactly 20 |
| Cocktail.ExtraIngredientCost | src/cocktail_system.py:720-723 | adding an ingredient the recipe lacks costs exactly 10 if its amount is positive and nothing otherwise, and leaves the other deductions alone |
| Cocktail.ExtrasGrow | src/cocktail_system.py:720-723 | adding a new non-recipe ingredient adds one extra exactly when its amount is positive |
| Cocktail.UnrelatedPenalty | src/cocktail_system.py:703-717 | the recipe deductions depend only on the submitted amounts of the recipe's own ingredients |
| Cocktail.MojitoTest | src/cocktail_system.py:775-785 | scoring "莫吉托" in the built-in catalog with the mojito's own amounts gives 100 and "完美！🌟" |
| Cocktail.MojitoFiled | src/cocktail_system.py:433-447 | the built-in catalog files the mojito under "莫吉托" |
| Cocktail.Lookup | src/cocktail_system.py:686-688 | the list is never longer than the names; when every name is in the table it holds, in name order, the entry of each name |
| Cocktail.LookupAppend | src/cocktail_system.py:686-688 | looking up two name lists one after the other is looking up their concatenation |
| Cocktail.LookupContents | src/cocktail_system.py:686-688 | a recipe is listed exactly when some unlocked name files it in the catalog |
| Cocktail.Unlocked | src/cocktail_system.py:753-758 | unlocking reports true exactly for a catalog recipe not yet unlocked, and then appends it; otherwise the list is unchanged |
| Cocktail.UnlockKeepsDistinct | src/cocktail_system.py:753-758 | unlocking keeps the list free of repeats and only ever adds the catalog name asked for |
| Cocktail.UnlockIdempotent | src/cocktail_system.py:753-758 | unlocking the same name again changes nothing and reports false |
| Cocktail.RecipeDeductions | src/cocktail_system.py:703-717 | the first loop's accumulated deduction equals the specified recipe penalty |
| Cocktail.ExtraCountIsSize | src/cocktail_system.py:720-723 | counting extras one by one over distinct names gives the number of extras among them |
| Cocktail.CountExtras | src/cocktail_system.py:720-723 | the second loop counts exactly the extras |
| Cocktail.InitialUnlockedDistinct | src/cocktail_system.py:50 | the initial unlocked list has no repeats |
| Cocktail.InitialUnlockedKnown | src/cocktail_system.py:50 | the five recipes unlocked at the start are built-in catalog recipes |
| Cocktail.MargaritaFiled | src/cocktail_system.py:448-461 | the built-in catalog files the margarita under its own name |
| Cocktail.GinTonicFiled | src/cocktail_system.py:475-487 | the built-in catalog files the gin and tonic under its own name |
| Cocktail.ScrewdriverFiled | src/cocktail_system.py:579-592 | the built-in catalog files the screwdriver under its own name |
| Cocktail.BlackRussianFiled | src/cocktail_system.py:606-617 | the built-in catalog files the black russian under its own name |
| Cocktail.DefaultSystemValid | src/cocktail_system.py:46-50 | the built-in catalog is well formed, every owned name is an ingredient, and the unlocked list has no repeats and names only catalog recipes |
| Cocktail.CocktailSystem.constructor | src/cocktail_system.py:46-50 | a new game has the built-in catalog, owns every ingredient in catalog order, and has five recipes unlocked |
| Cocktail.CocktailSystem.AvailableIngredients | src/cocktail_system.py:682-684 | the available ingredients are, in inventory order, the catalog entry of each owned name |
| Cocktail.CocktailSystem.UnlockedRecipes | src/cocktail_system.py:686-688 | the unlocked recipes are, in unlock order, the catalog entry of each unlocked name |
| Cocktail.CocktailSystem.CalculateScore | src/cocktail_system.py:690-740 | the two loops, the clamp and the grade give exactly what `Evaluate` specifies |
| Cocktail.CocktailSystem.UnlockRecipe | src/cocktail_system.py:753-758 | the new unlocked list and the result are those of `Unlocked`, and the list stays free of repeats |
| Selection.Accumulate | demo.py:270-273 | adding an amount sums onto an existing entry or appends a new key; no other entry changes |
| Selection.AccumulateKeepsPositive | demo.py:262-273 | adding positive amounts keeps every stored amount positive |
| Selection.AccumulateTwice | src/free_mixing.py:217-224 | adding `a` then `b` to one ingredient is adding `a + b` once |
| Selection.Volume | src/free_mixing.py:148-159 | the volume of a non-empty list of positive amounts is positive |
| Selection.Total | src/free_mixing.py:148-159 | a non-empty selection of positive amounts has positive total volume |
| Selection.AccumulateAddsVolume | src/free_mixing.py:148-159 | adding an amount adds exactly that amount to the total volume |
| Selection.VolumeOfUpdate | src/free_mixing.py:148-159 | changing one amount changes the volume by the difference |
| Selection.VolumeSame | src/free_mixing.py:148-159 | selections that agree on a list of names give it the same volume |
| Selection.Toggle | src/keyboard_ingredient_display.py:161-175 | an absent ingredient is set to 30; a present one gains the step, or is removed when it would pass 200; no other entry changes |
| Selection.ToggleStaysWithin | src/ui_components.py:144-158 | toggling keeps every stored amount in [30, 200] |
| Selection.ToggleFifteenStaysOnGrid | src/keyboard_ingredient_display.py:161-175 | with a 15 ml step every stored amount stays in 30, 45, ..., 195 |
| Selection.GridStep | src/keyboard_ingredient_display.py:163-170 | one more 15 ml step that does not pass 200 stays on the grid |
| Selection.Picks | src/ingredient_display.py:149-170 | repeated picks keep the selection a valid dict |
| Selection.FifteenCycle | src/ingredient_display.py:158-168 | picking an absent ingredient stores 30, 45, ..., 195 over twelve picks, and the thirteenth pick removes it |
| Selection.PageCount | src/keyboard_ingredient_display.py:61 | the page count is the ceiling of n / per: enough pages for every item and no empty last page |
| Selection.PageSlice | src/keyboard_ingredient_display.py:67-70 | a page holds items `page*per` up to `min(page*per + per, n)` of the list, in order, and is empty past the end |
| Selection.PagesCoverList | src/ingredient_display.py:62-71 | the pages laid end to end are the ingredient list itself |
| Selection.PagesPrefix | src/ingredient_display.py:62-71 | the first `p` pages laid end to end are the first `min(p*per, n)` items |
| Selection.PrevPage | src/keyboard_ingredient_display.py:179-183 | previous moves one page back unless on the first page, and never forward |
| Selection.NextPage | src/keyboard_ingredient_display.py:184-190 | next moves one page on exactly when a later page exists, otherwise stays, and keeps a reachable page reachable |
| Grouping.Filter | src/quick_reference.py:117-125 | a group holds only input items with its key, and no more items than the input |
| Grouping.FirstOccurrences | src/quick_reference.py:78-95 | the group keys are each key of the input once, with no repeats |
| Grouping.KeysOf | src/quick_reference.py:121-122 | the key list has one key per item, in input order |
| Grouping.Groups | src/quick_reference.py:78-95 | the loop's dict of groups is a valid ordered dict |
| Grouping.GroupsAreFilters | src/quick_reference.py:78-95 | each group holds exactly the items with its key, in input order, and no group is empty |
| Grouping.GroupOrder | src/quick_reference.py:78-95 | groups come in the order their key first occurs |
| Grouping.EachItemInItsGroup | src/quick_reference.py:120-125 | an item occurs in its own group as often as in the input, and in no other group |
| Grouping.ItemInExactlyOneGroup | src/quick_reference.py:78-95 | an item is in the group of its own key and in no other |
| Grouping.GroupsStep | src/quick_reference.py:93-95 | one more item appends it to its key's group |
| Grouping.AddToGroup | src/quick_reference.py:93-95 | opening a group if needed and appending is a single append to the key's group |
| Grouping.GroupBy | src/quick_reference.py:78-95 | the grouping loop builds exactly the specified groups |
| Grouping.IngredientsByType | src/free_mixing.py:96-101 | ingredients are grouped by type label, groups in first-appearance order, each in list order |
| FreeMixing.WithinFifthIsTolerance | src/free_mixing.py:188-194 | the multiplied-out test agrees with `abs(a1 - a2) / a2 > 0.2` failing, wherever the source divides |
| FreeMixing.MatchIsNotSymmetric | src/free_mixing.py:183-194 | swapping the two maps can change the verdict, because the tolerance is taken against the second |
| FreeMixing.RecipesMatch | src/free_mixing.py:183-194 | the loop returns true exactly when the key sets are equal and each amount is within a fifth of the recipe's |
| FreeMixing.FindMatchingRecipe | src/free_mixing.py:176-181 | the result is the first matching recipe in catalog order, or "" when none matches |
| FreeMixing.FreeMixingScreen.constructor | src/free_mixing.py:21-27 | the bench starts with an empty selection and the side panels shown |
| FreeMixing.FreeMixingScreen.IngredientList | src/free_mixing.py:96-101 | the side list groups the available ingredients by type, in first-appearance order, each group in list order |
| FreeMixing.FreeMixingScreen.AddIngredient | src/free_mixing.py:209-237 | only a chosen ingredient with a positive amount is added, onto any existing amount; otherwise nothing changes |
| FreeMixing.FreeMixingScreen.MatchingRecipe | src/free_mixing.py:138-181 | the shown match is the first matching catalog recipe, or "" |
| FreeMixing.FreeMixingScreen.Press | src/free_mixing.py:196-207 | add accumulates, clear empties, toggle flips the panels, and start posts the selection only when it is non-empty |
| Demo.Common | demo.py:310 | the shared ingredients are exactly the keys of both maps |
| Demo.CloseIsTolerance | demo.py:315-319 | the multiplied-out test agrees with `abs(a1 - a2) / max(a1, a2) > 0.3` failing, wherever the source divides |
| Demo.PositiveDivisible | demo.py:315-319 | selections of positive amounts never make the comparison divide by zero |
| Demo.FewCommonNotSimilar | demo.py:310-312 | fewer than two shared ingredients is never similar |
| Demo.SimilarSymmetric | demo.py:307-321 | similarity does not depend on argument order |
| Demo.RecipesSimilar | demo.py:307-321 | the loop returns true exactly when there are two or more shared ingredients, each within 30% of the larger amount |
| Demo.FindSimilar | demo.py:281-285 | the result is the first similar recipe in catalog order, or none when no recipe is similar |
| Demo.SimilarStep | demo.py:282-285 | one round tests exactly the recipe at that catalog position |
| Demo.HasType | demo.py:329-345 | the `any(...)` test holds exactly when some selected ingredient's type label is the one asked for |
| Demo.HasTypeIsHolds | demo.py:329-345 | each `any(...)` test holds exactly when the selection holds an ingredient of that type |
| Demo.FreeScore | demo.py:323-358 | the free score is in [0, 100] |
| Demo.FreeScoreAtLeast45 | demo.py:323-358 | the free score is never below 45, so the clamp at 0 never applies |
| Demo.FreeScorePerfect | demo.py:323-358 | 100 is scored exactly with a base spirit, a mixer, a garnish and three to six ingredients |
| Demo.EmptyFreeScore | demo.py:323-358 | an empty selection scores the base 50 |
| Demo.FreeGrade | demo.py:297-302 | 80 and up is "创意十足！", 60 to 79 "不错的尝试！", below 60 "继续努力！" |
| Demo.BaseAndMixerAreCreative | demo.py:323-358 | a base spirit with a mixer always reaches the top free-mix band |
| Demo.NoBaseSpiritNotCreative | demo.py:323-358 | without a base spirit the score is at most 85, and without a mixer too the top band is out of reach |
| Demo.CocktailName | demo.py:288 | a matched recipe's non-empty name is used, else "创意鸡尾酒" |
| Demo.FreeMixSession.constructor | demo.py:204 | a session starts with an empty selection |
| Demo.FreeMixSession.AddIngredientInteractive | demo.py:236-276 | an answer is accepted exactly for an available ingredient number and a positive amount, and then accumulates; otherwise nothing changes |
| Demo.FreeMixSession.Clear | demo.py:230-232 | clearing empties the selection |
| Demo.FreeMixSession.MixFreeCocktail | demo.py:278-305 | the score is in [0, 100]; the first similar recipe is scored by the engine under its name; with none, the free score and band under "创意鸡尾酒" |
| Demo.FreeMixSession.Start | demo.py:224-229 | mixing happens exactly when the selection is non-empty, and its outcome is the one `MixFreeCocktail` promises |
| KeyboardDisplay.FocusUp | src/keyboard_ingredient_display.py:250-254 | up moves the focus one slot back unless it is on the first slot |
| KeyboardDisplay.FocusDown | src/keyboard_ingredient_display.py:255-262 | down moves the focus one slot on unless it is on the page's last item |
| KeyboardDisplay.FocusStaysOnPage | src/keyboard_ingredient_display.py:250-262 | up and down keep a focus on the page on it |
| KeyboardDisplay.FocusedIngredient | src/keyboard_ingredient_display.py:151-159 | there is a focused ingredient exactly when the slot is filled, and it is the list item at `page*6 + focus` |
| KeyboardDisplay.SelectFocused | src/keyboard_ingredient_display.py:264-268 | selecting keeps the selection a valid dict |
| KeyboardDisplay.EmptySlotSelectsNothing | src/keyboard_ingredient_display.py:264-268 | selecting an empty slot leaves the selection unchanged |
| KeyboardDisplay.FilledSlotTogglesItsIngredient | src/keyboard_ingredient_display.py:161-175 | selecting a filled slot leaves every other ingredient's entry unchanged |
| KeyboardDisplay.KeyboardIngredientDisplay.constructor | src/keyboard_ingredient_display.py:18-24 | the display starts on page 0, focus 0, with an empty selection |
| KeyboardDisplay.KeyboardIngredientDisplay.Select | src/keyboard_ingredient_display.py:264-268 | the focused ingredient is toggled by 15 ml, amounts stay on the 15 ml grid, page and focus stay |
| KeyboardDisplay.KeyboardIngredientDisplay.Prev | src/keyboard_ingredient_display.py:179-183 | previous moves back a page and resets focus, except on the first page |
| KeyboardDisplay.KeyboardIngredientDisplay.Next | src/keyboard_ingredient_display.py:184-190 | next moves on a page and resets focus, except on the last page |
| KeyboardDisplay.KeyboardIngredientDisplay.Clear | src/keyboard_ingredient_display.py:198-200 | clearing empties the selection and keeps page and focus |
| KeyboardDisplay.KeyboardIngredientDisplay.Start | src/keyboard_ingredient_display.py:201-205 | start posts the selection exactly when it is non-empty |
| KeyboardDisplay.KeyboardIngredientDisplay.Press | src/keyboard_ingredient_display.py:177-205 | each button does its one thing and keeps the rest: a page move resets the focus only when the page changes, a slot is focused and toggled, clear keeps page and focus, start changes nothing and posts only a non-empty selection |
| KeyboardDisplay.KeyboardIngredientDisplay.OnKey | src/keyboard_ingredient_display.py:207-262 | digits 1-6 focus and toggle a slot, a/d and left/right move pages (focus reset only on a move), up/down move the focus, c clears and keeps page and focus, enter changes nothing and posts only a non-empty selection, any other key changes nothing |
| IngredientDisplay.ItemsPerPage | src/ingredient_display.py:26-27 | the page size is the configured one, or 6 when none is configured |
| IngredientDisplay.ShortDescription | src/ingredient_display.py:87 | a description up to 25 characters is shown whole, a longer one as its first 25 and "..." |
| IngredientDisplay.ShortDescriptionBounded | src/ingredient_display.py:87 | a shown description is at most 28 characters and starts like the real one |
| IngredientDisplay.FloorDiv | src/ingredient_display.py:134 | Python's `//` rounds toward minus infinity, for either sign of divisor |
| IngredientDisplay.TotalPages | src/ingredient_display.py:133-134 | for a positive page size the page total is the page count of the list; for a negative one it is at most 0 once the list is long enough |
| IngredientDisplay.PyIndex | src/ingredient_display.py:155 | a negative list index counts from the end |
| IngredientDisplay.SelectAt | src/ingredient_display.py:149-170 | a position past the list changes nothing; a position in the list, counted from the end when negative, is toggled by 15 ml; one before the list raises; with a page size of 0 or more nothing raises |
| IngredientDisplay.IngredientDisplayNew.constructor | src/ingredient_display.py:19-27 | the display starts on page 0 with an empty selection and the configured page size, whatever its value |
| IngredientDisplay.IngredientDisplayNew.Press | src/ingredient_display.py:126-147 | next raises ZeroDivisionError exactly for page size 0 and select raises IndexError exactly before the list, changing nothing; otherwise previous and next move one page within the page total, select toggles, clear empties, start posts only when non-empty |
| UiComponents.IngredientSelector.constructor | src/ui_components.py:92-95 | the picker starts with an empty selection |
| UiComponents.IngredientSelector.ToggleIngredient | src/ui_components.py:144-158 | a card click toggles its ingredient by 10 ml, and amounts stay in [30, 200] |
| UiComponents.IngredientSelector.Clear | src/ui_components.py:138-140 | clearing empties the selection |
| UiComponents.IngredientSelector.Start | src/ui_components.py:141-142 | start posts the selection as it is |
| UiComponents.CharacterDisplay.constructor | src/ui_components.py:57-61 | the bartender starts happy at frame 0 |
| UiComponents.CharacterDisplay.AnimateWorking | src/ui_components.py:81-86 | the mood becomes working and the frame steps through 0..5, wrapping to 0 |
| UiComponents.FrameIndex | src/ui_components.py:270-282 | the frame index is always valid: the step itself, the last frame past the end, or counted from the end for a negative step |
| UiComponents.MixingFrame | src/ui_components.py:270-282 | the frame shown is one of the seven, and the last one from step 6 on |
| UiComponents.View.Index | src/ui_components.py:339-359 | the four views have indices below 4 |
| UiComponents.GameScreen.constructor | src/ui_components.py:288-326 | before the first switch every view is displayed and only the ingredients button is primary |
| UiComponents.GameScreen.ShowView | src/ui_components.py:339-359 | after the switch exactly the chosen view is displayed and exactly its nav button is primary |
| UiComponents.ExactlyOneDisplayed | src/ui_components.py:339-359 | after a switch a view is displayed exactly when it is the chosen one |
| ConfigLoader.Section.Fields | src/config_loader.py:227-241 | the required fields of each section are distinct |
| ConfigLoader.SectionNamed | src/config_loader.py:219-245 | only "ingredients" and "recipes" are checked, each against its own section |
| ConfigLoader.FieldErrors | src/config_loader.py:228-232 | each error of one item names that item and a required field it lacks |
| ConfigLoader.ItemErrors | src/config_loader.py:227-243 | each error names an item of the list, counted from 1, and a required field that item lacks |
| ConfigLoader.UnknownTypeNoErrors | src/config_loader.py:219-245 | an unknown config type gives no errors |
| ConfigLoader.MissingSectionOneError | src/config_loader.py:224-225 | a missing list gives exactly one error, and no item is checked |
| ConfigLoader.FieldErrorsComplete | src/config_loader.py:228-232 | every required field an item lacks gets its error |
| ConfigLoader.FieldErrorsOrdered | src/config_loader.py:228-232 | one item's errors name distinct fields, in required-field order |
| ConfigLoader.InOrderWiden | src/config_loader.py:228-232 | errors in order over the first k fields are in order over k + 1 |
| ConfigLoader.InOrderSnoc | src/config_loader.py:228-232 | an error for the next field may follow errors for earlier fields |
| ConfigLoader.ItemErrorsComplete | src/config_loader.py:227-243 | every pair of an item and a required field it lacks gets its error |
| ConfigLoader.ItemErrorsOrdered | src/config_loader.py:227-243 | errors come item by item, then in field order, so none repeats |
| ConfigLoader.ValidateItem | src/config_loader.py:228-232 | the inner loop's errors are exactly the specified ones for the item |
| ConfigLoader.ValidateItems | src/config_loader.py:227-232 | the outer loop's errors are exactly the specified ones for the list |
| ConfigLoader.ValidateConfig | src/config_loader.py:219-245 | the validator returns exactly the specified error list |
| ConfigLoader.TypeNamed | src/config_loader.py:31-35 | a resolved type carries the given enum name |
| ConfigLoader.TypeNamedComplete | src/config_loader.py:31-35 | a name is resolved exactly when some enum member carries it, and then to that member |
| ConfigLoader.EveryTypeListed | src/config_loader.py:31-35 | the enumeration visits every member |
| ConfigLoader.ResolveType | src/config_loader.py:31-35 | the enumeration loop finds exactly the member so named, or none |
| ConfigLoader.IngredientOutcome | src/config_loader.py:29-50 | an item loads exactly when it carries every required field, its type names a member, its name is a string and its alcohol content a number, and then the ingredient is built from those fields; it is skipped exactly when it has a type and a name and the type names no member |
| ConfigLoader.RecipeOutcome | src/config_loader.py:70-80 | a recipe loads exactly when it carries every required field with a string name, an amounts dict, a numeric difficulty and a list of tags, and then it is built from those fields; no recipe is ever skipped |
| ConfigLoader.Collect | src/config_loader.py:29-50 | the loaded table files every entry under its own name |
| ConfigLoader.SkippedChangesNothing | src/config_loader.py:37-39 | a skipped item leaves the table as it was |
| ConfigLoader.FailureIsFatal | src/config_loader.py:54-62 | one item that raises loses the whole file, wherever it sits |
| ConfigLoader.LastEntryWins | src/config_loader.py:50 | the table keeps the last entry written under a name |
| ConfigLoader.CollectEntries | src/config_loader.py:29-50 | the loading loop builds exactly the specified table |
| ConfigLoader.LoadIngredients | src/config_loader.py:22-62 | the file's ingredients keyed by name, or the defaults when the file is unreadable or an item raises |
| ConfigLoader.LoadRecipes | src/config_loader.py:64-92 | the file's recipes keyed by name, or the defaults when the file is unreadable or an item raises |
| ConfigLoader.UnknownTypeSkipped | src/config_loader.py:31-39 | an ingredient whose type names no member is skipped and the rest are kept |
| ConfigLoader.DefaultIngredients | src/config_loader.py:109-157 | the default ingredients are filed under their own names |
| ConfigLoader.DefaultRecipes | src/config_loader.py:159-175 | the default recipe is filed under its own name with positive targets |
| ConfigLoader.DefaultRecipeResolves | src/config_loader.py:109-175 | every ingredient the default recipe names is a default ingredient |
| ConfigLoader.DefaultUnlockedKnown | src/config_loader.py:177-194 | the default unlocked list names only default recipes |
| ConfigLoader.DefaultGameConfigUsable | src/config_loader.py:177-194 | the default page size is positive and every difficulty 1-5 has a name |
| QuickReference.CategoryOf | src/quick_reference.py:81-91 | "其他" exactly when no tag is a series tag; a "经典" tag always gives "经典系列" |
| QuickReference.FirstRuleWins | src/quick_reference.py:81-91 | the first rule that fires decides the series |
| QuickReference.NoRuleFires | src/quick_reference.py:81 | with no rule firing the series is "其他" |
| QuickReference.CategoryIsFirstRule | src/quick_reference.py:81-91 | the if/elif chain is the precedence 经典 > 热带 > 果味 > 咖啡 > {创意, 复杂, 强烈} > 其他 |
| QuickReference.RecipesByCategory | src/quick_reference.py:78-95 | series come in first-appearance order, each holding its recipes in list order |
| QuickReference.IngredientSummary | src/quick_reference.py:103-106 | the first min(3, k) ingredients with amounts are shown, and the remainder k - 3 only when k > 3 |
| QuickReference.SummaryCountsIngredients | src/quick_reference.py:103-106 | the shown entries plus the remainder count the recipe's ingredients |
| QuickReference.DistinctCount | src/quick_reference.py:105-106 | a list of distinct names has as many names as its set |
| QuickReference.FindRecipe | src/quick_reference.py:171-177 | the result is the first recipe with that name, or none exactly when no recipe has it |
| QuickReference.QuickReferencePanel.constructor | src/quick_reference.py:17-20 | the panel starts on the recipes tab |
| QuickReference.QuickReferencePanel.Press | src/quick_reference.py:38-47 | a tab button switches to its tab |
| QuickReference.QuickReferencePanel.RecipesReference | src/quick_reference.py:71-111 | the unlocked recipes are grouped by series, in first-appearance order, each in unlock order |
| QuickReference.QuickReferencePanel.IngredientsReference | src/quick_reference.py:113-135 | the owned ingredients are grouped by type label, in first-appearance order, each in list order |
| QuickReference.QuickRecipeSelector.constructor | src/quick_reference.py:140-142 | the picker starts with no details shown |
| QuickReference.QuickRecipeSelector.SelectChanged | src/quick_reference.py:165-177 | a blank or unknown choice changes nothing; a non-blank choice some unlocked recipe carries shows the first unlocked recipe of that name |

## Left out

- Rendering and widget plumbing (Textual and rich: `compose`, `query_one`, `update`, tables, panels, styles) is not modelled. Button variants are modelled only for the view switcher.
- Animations, `sleep`/`asyncio.sleep`, the progress bar, the random recipe hint and the random art are left out: they are timing and randomness with no decision logic.
- The float average of alcohol content in the selection summaries is left out. Only the total volume is modelled.
- Alcohol content is a whole-number percentage. The source declares `alcohol_content` as a float (src/cocktail_system.py:27), so a configured value such as 12.5 has no counterpart here; a configuration item whose alcohol content is not a whole number is not modelled.
- Amounts are whole millilitres. Fractional amounts typed by the player, and the parsing of that text, are not modelled.
- Reading and parsing the JSON files is left to the caller. `None` stands for a file that could not be opened or parsed, and the loaders then return the defaults.
- `load_game_config`, `save_user_config`, `load_user_config` and `create_sample_configs` are file I/O and are not modelled.
- A configuration value of the wrong JSON type is treated as an exception of its item, which abandons the file. The list under "ingredients" or "recipes" is assumed to be a list.
- Cosmetic fields are not carried: colour, emoji, flavour profile and description. The description appears only in `ShortDescription`.
- Config files may hold recipes with zero or negative amounts, and the loaders keep them. The scoring engine divides by these amounts, so the model scores only recipes with positive targets.
- Of the built-in catalog's entries, only the mojito and the four other starting recipes are proved to be filed under their names. Lookups of the other twelve recipes are not proved.
- The demo's menus and prompts are not modelled. Re-asking until the answer is valid becomes the `accepted` result of `AddIngredientInteractive`. The recipe-mixing menu `_recipe_mixing` is not part of this model.
- Demo.FreeScore: requires every selected name to be a catalog ingredient. The Python raises `KeyError` only when its loop reaches a missing name, and that path is not modelled. The demo only ever adds catalog names.
- `IngredientDisplayNew` reads its page size from the game configuration object, which is outside this model. It is taken as a constructor parameter.
- IngredientDisplayNew: with a page size of 0, `on_mount` and every redraw divide by zero in `_update_display`. Rendering is not modelled, so only the next-page handler's own division raises here.
- The quick recipe picker's blank choice is modelled as "". Its "view details" and "mix selected" buttons do nothing in the source and are not modelled.
- The free-mixing bench's `show_ingredients_panel` and `show_recipes_panel` fields are never read, so only the panels' shared display flag is kept.
- config_manager.py (an interactive file editor), help_system.py (static text), main.py (app wiring) and src/data_models.py (a copy of the entity types) are not part of this model. The `src.character` module is not part of this model either.
