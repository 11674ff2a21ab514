# The Dragon's Quest: three editions of a text adventure

The game keeps a few globals: health, gold, the current location, an
inventory of item records and a `gameRunning` flag. The player moves between
a village, a blacksmith, a market, a forest and the dragon's mountain or
lair. The player buys weapons, armor and potions, and fights monsters and
finally the dragon. The equipment used in a fight is chosen automatically.
`getItemsByType` filters the inventory by type, and `getBestItem` keeps the
earliest item of maximal effect.

There are three editions, and their rules differ. Each is modelled as its
own module with a `Game` class over its globals:

- `UpdatedQuest` (`modified-original-code/updated.js`):
  - Health is clamped to [0, 100].
  - A fight loops until one side drops.
  - An under-equipped player is asked before the dragon fight. If they go
    ahead, the dragon gains 20 health and 10 damage.
  - A monster may drop a potion.
- `DragonQuest` (`dragon-quest.js`):
  - Health is clamped.
  - Each `handleCombat` call plays a single round against a fresh enemy.
  - `move` lets the player onto the mountain only with good equipment.
- `AdventureGame` (`game.js`):
  - There is no gold and health is never clamped.
  - A fight needs both a weapon and armor, and loops until one side is down.
  - The dragon is fought only with good equipment, and only a won dragon
    fight ends the game.

Shared logic lives in two modules:

- `Items` holds the item record, the filter, the first-maximum fold and the
  `splice` of one entry.
- `Damage` holds the health clamp and the minimum-one counter-attack.

Each state-changing function of a script becomes a method of its `Game`
class. The method's `ensures` ties the new state to a pure specification
function of the old state:

- `Resolve` for updated.js;
- `Skirmish` for dragon-quest.js;
- `Combat` and `Exchange` for game.js.

Lemmas then prove what the scripts promise about those functions. Each
module also proves what its catalog makes of the rules, under the
`CatalogOnly` condition that every inventory entry is a catalog item.
Purchases, drops and potion use preserve that condition. The consequences:

- In dragon-quest.js the dragon can never be defeated. It starts every call
  with 50 health, and the strongest weapon deals 20. So the victory branch
  of its `handleCombat` is unreachable in play.
- In the other two editions, a player with good equipment and more than 30
  health always slays the dragon.

## Model

| member | source | states |
|---|---|---|
| Items.ItemsByType | modified-original-code/updated.js:163-165 | The result keeps exactly the inventory items of the requested type, each of that type, and is no longer than the inventory |
| Items.ItemsByTypeAppend | modified-original-code/updated.js:163-165 | Filtering distributes over concatenation, so the filter keeps inventory order |
| Items.Reduce | modified-original-code/updated.js:176 | The strictly-greater fold ends on its seed or on a folded item, never below the seed's effect and at least as good as every folded item |
| Items.BestItem | modified-original-code/updated.js:172-178 | Null exactly when no item has the type; otherwise an item of that type whose effect is at least every other such item's, and strictly above every earlier one's (the first wins ties) |
| Items.BestItemIsOwned | modified-original-code/updated.js:172-178 | The selected item is in the inventory and has the requested type |
| Items.BestItemIsMaximal | modified-original-code/updated.js:172-178 | Any owned item of the type makes the selection non-null, and no such item has a greater effect than the selected one |
| Items.ReduceFiltered | modified-original-code/updated.js:172-178 | The strictly-greater fold over the filtered list ends on the first item of maximal effect |
| Items.SeededReduceSame | dragon-quest.js:71-77 | Folding without a seed, as dragon-quest.js and game.js do, gives the same item as seeding with the first element, as updated.js does |
| Items.ReduceSnoc | modified-original-code/updated.js:172-178 | One more item replaces the running best only when its effect is strictly greater |
| Items.BestItemAfterAppend | modified-original-code/updated.js:172-178 | Acquiring an item changes the selection for its own type only, and only when it is strictly better than the current choice |
| Items.Protection | modified-original-code/updated.js:277 | The protection a counter-attack meets is the selected armor's effect, and 0 when no armor is selected (the same expression is dragon-quest.js line 209) |
| Items.RemoveAt | modified-original-code/updated.js:349 | `splice(i, 1)` removes exactly entry i: one shorter, earlier entries kept, later ones shifted down, and the multiset loses exactly that item |
| Damage.Clamp | modified-original-code/updated.js:305-319 | The stored health lies in [0, 100]; it equals the raw sum exactly when that sum is already in range, and is 100 above and 0 below |
| Damage.CounterDamage | modified-original-code/updated.js:278-279 | A counter-attack deals at least 1 and at least damage minus protection, and is one of the two |
| Damage.HitLowersHealth | modified-original-code/updated.js:288 | Each counter-attack on a living player lowers the clamped health by at least 1 |
| UpdatedQuest.Catalog | modified-original-code/updated.js:69-72 | The blacksmith sells Sword, Steel Sword, Wooden Shield and Iron Shield in that order; the market sells the Health Potion; any other key has no catalog |
| UpdatedQuest.HasGoodEquipment | modified-original-code/updated.js:185-189 | Holds exactly when some item has id "sword_steel" and some item is armor |
| UpdatedQuest.GoodEquipmentIsSteelSword | modified-original-code/updated.js:185-189 | With catalog items only, good equipment means the Steel Sword is the chosen weapon and the chosen armor protects by 5 or 12 |
| UpdatedQuest.Enemy | modified-original-code/updated.js:231-250 | A monster has 20 health and 10 damage, the dragon 50 and 20, and the dragon facing an under-equipped player who goes ahead 70 and 30 |
| UpdatedQuest.Reward | modified-original-code/updated.js:261 | A defeated dragon pays 100 gold, a monster 10 |
| UpdatedQuest.RetreatPenalty | modified-original-code/updated.js:207-219 | Fighting without a weapon costs 40 health against the dragon and 20 against a monster |
| UpdatedQuest.Rounds | modified-original-code/updated.js:253-295 | The loop is won exactly when the enemy ends at or below 0, and then the player is alive; otherwise a player who started alive ends at 0; health never rises; strikes and counter-attacks differ by the final winning strike; a won loop stops at the first strike that takes the enemy to 0 or below |
| UpdatedQuest.RoundsCounts | modified-original-code/updated.js:253-295 | The enemy loses exactly weapon times the strikes; the player's health is the start less incoming times the counter-attacks, clamped; before the final winning strike the enemy was still above 0, so the strikes are exactly those the loop makes |
| UpdatedQuest.CounterAttacksCostHealth | modified-original-code/updated.js:276-295 | In a won loop, every counter-attack cost the player at least 1 health |
| UpdatedQuest.RoundsStep | modified-original-code/updated.js:253-295 | A round survived by both sides leaves the loop's outcome and final health unchanged |
| UpdatedQuest.Resolve | modified-original-code/updated.js:200-298 | Health never rises; a win needs a weapon and a living player, and against the under-equipped dragon the player's consent; a win pays exactly the reward and may add one potion only after a monster; a loss keeps gold and inventory; a loss the player survives means no weapon or a declined dragon fight |
| UpdatedQuest.Settle | modified-original-code/updated.js:258-272 | A finished round loop: a win pays exactly the reward and adds a Health Potion only after a monster and on the drop; a loss keeps gold and inventory; health is the loop's final health |
| UpdatedQuest.ResolveFought | modified-original-code/updated.js:246-297 | Proof helper for `Game.HandleCombat`: any call that is neither unarmed nor declined is the round loop against the enemy's stats, settled by the reward and the potion drop |
| UpdatedQuest.NoWeaponRetreat | modified-original-code/updated.js:207-221 | When `getBestItem` finds no weapon, health drops by 40 against the dragon or 20 against a monster, clamped, and nothing else changes |
| UpdatedQuest.DeclinedDragonChangesNothing | modified-original-code/updated.js:236-244 | An armed but under-equipped player who declines keeps health, gold and inventory |
| UpdatedQuest.FightEndsInWinOrDeath | modified-original-code/updated.js:253-297 | A fight that starts has at least one strike; it is won exactly when the enemy ends at or below 0, and lost exactly when the player ends at 0 |
| UpdatedQuest.WellEquippedSlaysDragon | modified-original-code/updated.js:231-272 | With catalog items, good equipment and more than 30 health, the dragon fight is won and pays exactly 100 gold |
| UpdatedQuest.Handles | modified-original-code/updated.js:429-520 | `move` handles exactly 1 to 4 in the village; elsewhere only 1 or 2, and 2 everywhere |
| UpdatedQuest.MaxOption | modified-original-code/updated.js:582-586 | The main loop accepts up to 8 in the village and up to 6 elsewhere |
| UpdatedQuest.IsValidChoice | modified-original-code/updated.js:525-529 | A choice is valid exactly when it parsed to a number between 1 and the maximum |
| UpdatedQuest.MovesAreMenuChoices | modified-original-code/updated.js:582-586 | Every entry `move` handles passes the main loop's range check at that location |
| UpdatedQuest.Game.constructor | modified-original-code/updated.js:9-75 | The game starts running at the village with 100 health and 20 gold (lines 9-13) and an empty inventory (line 75) |
| UpdatedQuest.Game.UpdateHealth | modified-original-code/updated.js:305-319 | The new health is the old plus the amount, clamped to [0, 100], and is returned |
| UpdatedQuest.Game.HandleCombat | modified-original-code/updated.js:200-298 | The result and the new health, gold and inventory are exactly those of `Resolve` on the old state; health stays in range and gold non-negative |
| UpdatedQuest.Game.FightRounds | modified-original-code/updated.js:253-297 | The loop's result and new state are the settled outcome of `Rounds` from the current health |
| UpdatedQuest.Game.UseItem | modified-original-code/updated.js:324-362 | True exactly for a number within the inventory; a potion then heals (clamped) and only that entry is removed; weapons and armor, empty inventories, "cancel" and bad numbers change nothing |
| UpdatedQuest.Game.ShopBrowseAndBuy | modified-original-code/updated.js:383-416 | An affordable catalog entry costs exactly its price and appends exactly one copy; cancel, bad numbers, unknown shops and too little gold change nothing |
| UpdatedQuest.Game.BuyFromBlacksmith | modified-original-code/updated.js:418-420 | Entries 1 to 4 buy the Sword, Steel Sword, Wooden Shield and Iron Shield, all or nothing |
| UpdatedQuest.Game.BuyFromMarket | modified-original-code/updated.js:422-424 | Entry 1 buys a Health Potion for 5 gold, all or nothing |
| UpdatedQuest.Game.Move | modified-original-code/updated.js:429-520 | Returns whether the location handles the number, and an unhandled number changes nothing; forest fights the player survives without winning lead to the village; a dragon win or death stops the game; any other dragon outcome leads to the village |
| DragonQuest.GoodEquipmentIsSteelSword | dragon-quest.js:79-83 | With catalog items only, good equipment means the Steel Sword is the chosen weapon and some armor is worn |
| DragonQuest.HasGoodEquipment | dragon-quest.js:79-83 | Holds exactly when some item is named "Steel Sword" and the fight will wear some armor |
| DragonQuest.Skirmish | dragon-quest.js:182-238 | Without a weapon, health drops by the enemy's damage and nothing else changes; otherwise exactly one strike lands; a kill returns true, pays the reward, keeps health and ends the game exactly for the dragon; otherwise one counter-attack lands, and the call returns true exactly when the player survives, with death ending the game |
| DragonQuest.Foe | dragon-quest.js:183-187 | Each call meets a fresh monster with 20 health and 10 damage, or a fresh dragon with 50 and 20 |
| DragonQuest.Reward | dragon-quest.js:217 | A defeated dragon pays 100 gold, a monster 10 |
| DragonQuest.SkirmishKill | dragon-quest.js:213-226 | Proof helper for `Game.HandleCombat`: a strike that takes the enemy to 0 or below returns true and only pays the reward |
| DragonQuest.SkirmishHit | dragon-quest.js:227-237 | Proof helper for `Game.HandleCombat`: a strike the enemy survives is answered by one clamped counter-attack |
| DragonQuest.NoWeaponRetreat | dragon-quest.js:194-198 | With no weapon, the call returns false, health drops by 20 or 10 (clamped), and gold, inventory and the running flag are kept |
| DragonQuest.DragonUnbeatable | dragon-quest.js:183-219 | With catalog items the dragon always survives the strike, so it never pays its reward |
| DragonQuest.MonsterFallsOnlyToSteelSword | dragon-quest.js:183-219 | With catalog items, a monster falls to the one strike exactly when the Steel Sword is owned |
| DragonQuest.BlacksmithPick | dragon-quest.js:277-284 | Exactly the texts "1" to "4" pick an item, the one listed at that position |
| DragonQuest.Handles | dragon-quest.js:307-354 | `move` handles only 1 to 4; the mountain entry exactly with good equipment; outside the village only 1 or 2 |
| DragonQuest.Game.constructor | dragon-quest.js:11-16 | The game starts running at the village with 100 health, 20 gold and an empty inventory |
| DragonQuest.Game.UpdateHealth | dragon-quest.js:170-176 | The new health is the old plus the amount, clamped to [0, 100], and is returned |
| DragonQuest.Game.HandleCombat | dragon-quest.js:182-238 | The result, the new health and gold, and the running flag are exactly those `Skirmish` gives for the old state |
| DragonQuest.Game.UseItem | dragon-quest.js:243-267 | Only a potion at a valid position changes anything: it heals (clamped) and only that entry is removed |
| DragonQuest.Game.BuyFromBlacksmith | dragon-quest.js:269-294 | A picked, affordable item costs exactly its price and appends one copy; "5", other text and too little gold change nothing |
| DragonQuest.Game.BuyFromMarket | dragon-quest.js:296-302 | A Health Potion is bought for 5 gold exactly when the gold covers it |
| DragonQuest.Game.Move | dragon-quest.js:307-354 | Returns whether the number is handled, and an unhandled one changes nothing; the mountain opens only with good equipment; entering the forest fights one round and stays in the forest; return options lead to the village |
| AdventureGame.GoodEquipmentIsSteelSword | game.js:35-39 | With catalog items only, good equipment means the Steel Sword is the chosen weapon and the chosen armor protects by 5 or 15 |
| AdventureGame.HasGoodEquipment | game.js:35-39 | Holds exactly when some item is named "Steel Sword" and some item is armor |
| AdventureGame.Exchange | game.js:63-75 | Health never rises; with both sides standing at the start, at least one strike lands and exactly one side ends down; the monster's counter-attacks are one fewer than the strikes when it falls; the loop stops at the first strike that takes the monster to 0 or below |
| AdventureGame.Foe | game.js:53-57 | The goblin has 20 health and 10 damage, the dragon 50 and 20 |
| AdventureGame.ExchangeCounts | game.js:63-75 | The monster loses exactly weapon times the strikes, the player exactly incoming times the counter-attacks, without clamping |
| AdventureGame.ExchangeStep | game.js:63-75 | A round survived by both sides leaves the loop's final health unchanged |
| AdventureGame.Combat | game.js:44-84 | Without a weapon or armor the call returns false and nothing changes; otherwise it returns true exactly when the player's health ends above 0; health never rises |
| AdventureGame.CombatWonIffMonsterDown | game.js:63-83 | A fight with both pieces of equipment, from any starting health, is won exactly when the monster ends at or below 0, and costs exactly the counter-attacks taken |
| AdventureGame.HealthCanEndNegative | game.js:71-73 | Health is not clamped: at 3 health with the starting equipment, a goblin fight ends at -2 |
| AdventureGame.WellEquippedSlaysDragon | game.js:158-161 | With catalog items, good equipment and more than 30 health, the dragon fight is won |
| AdventureGame.Lower | game.js:93 | Lower-casing keeps the length and maps every character to its lower-case form |
| AdventureGame.LowerIdempotent | game.js:93 | Lower-casing twice is lower-casing once |
| AdventureGame.FindByName | game.js:93 | Nothing exactly when no name matches ignoring case; otherwise the first item whose name matches |
| AdventureGame.FindIgnoresCase | game.js:93 | The search gives the same item whatever the case of the requested name |
| AdventureGame.Destination | game.js:132-169 | Every move changes the location; in the village exactly 1 to 4 move, and every move elsewhere leads to the village |
| AdventureGame.StoreSellsMenuItems | game.js:143-144 | The blacksmith's two menu entries find the Steel Sword and the Iron Shield |
| AdventureGame.ActionsStayPut | game.js:132-169 | Viewing the inventory, shopping and fighting keep the location |
| AdventureGame.Game.constructor | game.js:19-109 | The game starts with a Basic Sword and Wooden Shield and 100 health (lines 19-20), running, at the village (lines 108-109) |
| AdventureGame.Game.HandleCombat | game.js:44-84 | The result and the new health are exactly those of `Combat` on the old health and inventory |
| AdventureGame.Game.BuyFromBlacksmith | game.js:91-100 | Appends the matching store item, found ignoring case, and nothing otherwise; gold plays no part |
| AdventureGame.Game.BuyPotion | game.js:102-105 | Always appends one Healing Potion |
| AdventureGame.Game.Victory | game.js:177-182 | The game stops running |
| AdventureGame.Game.Move | game.js:132-169 | Only the listed travel and return options change the location; blacksmith 1 and 2 add the Steel Sword or Iron Shield, market 1 a potion; the forest fight changes only health; the dragon is fought only with good equipment, and only a win stops the game |

## Left out

- Prompts and output are not modelled. This covers `readline`, `console.log`, `showStatus`, `showLocation`, `showHelp`, `checkInventory` and `viewInventory`.
- The main input loops are not modelled: updated.js lines 566-699, dragon-quest.js lines 359-439, and game.js's `gameLoop` with its callback. The updated.js range check is kept as `IsValidChoice` over `MaxOption`. So is the menu each location handles (`Handles`, `Destination`).
- Answers arrive already parsed. `parseInt` is not modelled: a numeric answer is an `Option<int>`. None stands for "cancel", the empty string or anything that parses to NaN. The dragon-quest.js blacksmith compares the raw text, so there the answer is a string.
- Two inputs become boolean parameters of `UpdatedQuest.Resolve` and the methods above it: the yes/no question before an under-equipped dragon fight (`proceed`), and `Math.random() < 0.5` for the potion drop (`potionDrop`).
- The player's name and the unused constants `weaponDamage`, `monsterDefense` and `healingPotionValue` are not modelled.
- attack2V2.py and main.py are GUI code driven by random numbers and are not part of this model.
- Item types are an enumeration of weapon, armor and potion. The "can't be used" branch of updated.js `useItem` therefore cannot be reached.
- Object identity is not modelled. Copies (`{ ...item }`) and the same object pushed twice (game.js) are the same value, because no item is ever mutated.
- UpdatedQuest.Game.FightRounds: this is the round loop of updated.js `handleCombat`, split into a method of its own. `HandleCombat` does the set-up and calls it.
- AdventureGame.Lower: only ASCII letters are lower-cased. `toLowerCase` also folds other scripts.
