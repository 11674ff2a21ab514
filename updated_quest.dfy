/** The completed edition of The Dragon's Quest (modified-original-code/updated.js).
    Combat loops until one side drops; the dragon is reached without a gate
    and an under-equipped player is asked before the fight, which is then
    made harder. The yes/no answer and the potion-drop coin flip are
    parameters. */
module UpdatedQuest {
  import opened Items
  import opened Damage

  // Item catalog
  const HealthPotion := Item(Some("health_potion"), "Health Potion", Potion, 5, 30, "Restores 30 health points")
  const Sword := Item(Some("sword_basic"), "Sword", Weapon, 10, 10, "A sturdy blade for combat")
  const SteelSword := Item(Some("sword_steel"), "Steel Sword", Weapon, 20, 18, "A sharp steel sword with superior damage")
  const WoodenShield := Item(Some("shield_wood"), "Wooden Shield", Armor, 8, 5, "Reduces damage taken in combat")
  const IronShield := Item(Some("shield_iron"), "Iron Shield", Armor, 15, 12, "Heavy iron shield that greatly reduces incoming damage")

  /** Every item the game can hand to the player. */
  const Stock := [HealthPotion, Sword, SteelSword, WoodenShield, IronShield]

  /** Every inventory entry is a copy of a catalog item. */
  predicate CatalogOnly(inv: seq<Item>)
  {
    forall x :: x in inv ==> x in Stock
  }

  datatype Location = Village | Blacksmith | Market | Forest | Mountains

  /** `shopCatalog[shopKey]`: what the blacksmith and the market sell; any
      other key has no catalog. */
  function Catalog(shopKey: Location): (r: seq<Item>)
    ensures shopKey == Blacksmith ==> r == [Sword, SteelSword, WoodenShield, IronShield]
    ensures shopKey == Market ==> r == [HealthPotion]
    ensures shopKey !in {Blacksmith, Market} ==> r == []
  {
    match shopKey
    case Blacksmith => [Sword, SteelSword, WoodenShield, IronShield]
    case Market => [HealthPotion]
    case _ => []
  }

  /** `hasGoodEquipment`: the Steel Sword, recognised by its id, and any armor. */
  function HasGoodEquipment(inv: seq<Item>): (r: bool)
    ensures r <==> (exists i :: 0 <= i < |inv| && inv[i].id == Some("sword_steel"))
                   && (exists j :: 0 <= j < |inv| && inv[j].kind == Armor)
  {
    var hasSteel := exists i :: 0 <= i < |inv| && inv[i].id == SteelSword.id;
    var anyArmor := |ItemsByType(inv, Armor)| > 0;
    if !anyArmor then NoneOfKind(inv, Armor); false
    else assert ItemsByType(inv, Armor)[0] in inv; hasSteel
  }

  lemma StockWithSteelId(x: Item)
    requires x in Stock && x.id == Some("sword_steel")
    ensures x == SteelSword
  {
  }

  lemma StockWeapon(x: Item)
    requires x in Stock && x.kind == Weapon
    ensures x == Sword || x == SteelSword
  {
  }

  lemma StockArmor(x: Item)
    requires x in Stock && x.kind == Armor
    ensures x == WoodenShield || x == IronShield
  {
  }

  /** With only catalog items, good equipment means the Steel Sword is the
      weapon `getBestItem` picks and the armor worn protects by 5 or 12. */
  lemma GoodEquipmentIsSteelSword(inv: seq<Item>)
    requires CatalogOnly(inv) && HasGoodEquipment(inv)
    ensures BestItem(inv, Weapon) == Some(SteelSword)
    ensures BestItem(inv, Armor).Some? && BestItem(inv, Armor).value.effect in {5, 12}
  {
    var i :| 0 <= i < |inv| && inv[i].id == Some("sword_steel");
    assert inv[i] in inv;
    StockWithSteelId(inv[i]);
    BestItemIsMaximal(inv, Weapon, SteelSword);
    BestItemIsOwned(inv, Weapon);
    StockWeapon(BestItem(inv, Weapon).value);
    var j :| 0 <= j < |inv| && inv[j].kind == Armor;
    BestItemIsMaximal(inv, Armor, inv[j]);
    BestItemIsOwned(inv, Armor);
    StockArmor(BestItem(inv, Armor).value);
  }

  /** Gold found on a defeated enemy. */
  function Reward(isDragon: bool): (r: int)
    ensures isDragon ==> r == 100
    ensures !isDragon ==> r == 10
  {
    if isDragon then 100 else 10
  }

  /** Health lost when fighting without a weapon. */
  function RetreatPenalty(isDragon: bool): (r: int)
    ensures isDragon ==> r == 40
    ensures !isDragon ==> r == 20
  {
    if isDragon then 40 else 20
  }

  datatype Encounter = Encounter(health: int, damage: int)

  /** The enemy's health and damage: a monster (20, 10), the dragon (50, 20),
      or the dragon facing an under-equipped player who went ahead, which
      gains 20 health and 10 damage. */
  function Enemy(isDragon: bool, underEquipped: bool): (e: Encounter)
    ensures !isDragon ==> e == Encounter(20, 10)
    ensures isDragon && !underEquipped ==> e == Encounter(50, 20)
    ensures isDragon && underEquipped ==> e == Encounter(70, 30)
  {
    var health := if isDragon then 50 else 20;
    var damage := if isDragon then 20 else 10;
    if isDragon && underEquipped then Encounter(health + 20, damage + 10)
    else Encounter(health, damage)
  }

  /** How the round loop ended: whether the enemy fell, both final health
      values, the player's strikes and the enemy's counter-attacks. */
  datatype Battle = Battle(won: bool, enemyHealth: int, playerHealth: int, strikes: nat, hits: nat)

  /** The round loop of `handleCombat`: while both live, the player strikes
      for `weapon`; a surviving enemy hits back for `incoming`, clamped. */
  function Rounds(weapon: int, incoming: int, enemy: int, player: int): (b: Battle)
    requires incoming >= 1 && enemy > 0 && 0 <= player <= MaxHealth
    ensures b.won <==> b.enemyHealth <= 0
    ensures b.won ==> b.enemyHealth + weapon > 0
    ensures b.hits == if b.won then b.strikes - 1 else b.strikes
    ensures 0 <= b.playerHealth <= player
    ensures player > 0 ==> b.strikes >= 1 && (if b.won then b.playerHealth > 0 else b.playerHealth == 0)
    ensures player == 0 ==> b == Battle(false, enemy, 0, 0, 0)
    decreases player
  {
    if player <= 0 then Battle(false, enemy, player, 0, 0)
    else if enemy - weapon <= 0 then Battle(true, enemy - weapon, player, 1, 0)
    else
      var p := Clamp(player - incoming);
      if p <= 0 then Battle(false, enemy - weapon, p, 1, 1)
      else
        var b := Rounds(weapon, incoming, enemy - weapon, p);
        b.(strikes := b.strikes + 1, hits := b.hits + 1)
  }

  /** Each strike takes exactly `weapon` from the enemy and each
      counter-attack exactly `incoming` from the player, clamped at 0; a won
      loop stops at the first strike that takes the enemy to 0 or below. */
  lemma {:induction false} RoundsCounts(weapon: int, incoming: int, enemy: int, player: int)
    requires incoming >= 1 && enemy > 0 && 0 <= player <= MaxHealth
    ensures var b := Rounds(weapon, incoming, enemy, player);
      b.enemyHealth == enemy - b.strikes * weapon && b.playerHealth == Clamp(player - b.hits * incoming)
      && (b.won ==> enemy - (b.strikes - 1) * weapon > 0)
    decreases player
  {
    var p := Clamp(player - incoming);
    if player > 0 && enemy - weapon > 0 && p > 0 {
      RoundsCounts(weapon, incoming, enemy - weapon, p);
      var b := Rounds(weapon, incoming, enemy - weapon, p);
      MulStep(b.strikes, weapon);
      MulStep(b.hits, incoming);
    }
    var b := Rounds(weapon, incoming, enemy, player);
    if b.won {
      MulStep(b.strikes - 1, weapon);
    }
  }

  /** Every counter-attack the player lives through costs at least 1 health. */
  lemma {:induction false} CounterAttacksCostHealth(weapon: int, incoming: int, enemy: int, player: int)
    requires incoming >= 1 && enemy > 0 && 0 < player <= MaxHealth
    ensures var b := Rounds(weapon, incoming, enemy, player);
      b.won ==> b.playerHealth <= player - b.hits
    decreases player
  {
    var p := Clamp(player - incoming);
    if enemy - weapon > 0 && p > 0 {
      CounterAttacksCostHealth(weapon, incoming, enemy - weapon, p);
    }
  }

  /** One round that neither side loses leaves the outcome of the rest of
      the loop unchanged. */
  lemma RoundsStep(weapon: int, incoming: int, enemy: int, player: int, enemy': int, player': int)
    requires incoming >= 1 && enemy > 0 && 0 < player <= MaxHealth
    requires enemy' == enemy - weapon && player' == Clamp(player - incoming)
    requires enemy' > 0 && player' > 0
    ensures var b := Rounds(weapon, incoming, enemy, player);
      var b' := Rounds(weapon, incoming, enemy', player');
      b.won == b'.won && b.playerHealth == b'.playerHealth
  {
  }

  /** The part of the game state a fight reads and changes. */
  datatype Player = Player(health: int, gold: int, inventory: seq<Item>)

  datatype Resolution = Resolution(won: bool, after: Player)

  /** `handleCombat(isDragon)` as a function of the state before it, the
      yes/no answer (`proceed`) and the potion coin flip (`potionDrop`). */
  function Resolve(p: Player, isDragon: bool, proceed: bool, potionDrop: bool): (r: Resolution)
    requires 0 <= p.health <= MaxHealth
    ensures 0 <= r.after.health <= p.health
    ensures r.won ==> BestItem(p.inventory, Weapon).Some? && r.after.health > 0
    ensures r.won && isDragon ==> HasGoodEquipment(p.inventory) || proceed
    ensures r.won ==> r.after.gold == p.gold + Reward(isDragon)
    ensures !r.won ==> r.after.gold == p.gold && r.after.inventory == p.inventory
    ensures r.after.inventory == p.inventory
            || (r.won && !isDragon && potionDrop && r.after.inventory == p.inventory + [HealthPotion])
    ensures !r.won && r.after.health > 0 ==>
              BestItem(p.inventory, Weapon).None? || (isDragon && !HasGoodEquipment(p.inventory) && !proceed)
  {
    match BestItem(p.inventory, Weapon)
    case None => Resolution(false, p.(health := Clamp(p.health - RetreatPenalty(isDragon))))
    case Some(weapon) =>
      var underEquipped := isDragon && !HasGoodEquipment(p.inventory);
      if underEquipped && !proceed then Resolution(false, p)
      else
        var e := Enemy(isDragon, underEquipped);
        var incoming := CounterDamage(e.damage, Protection(BestItem(p.inventory, Armor)));
        var b := Rounds(weapon.effect, incoming, e.health, p.health);
        Settle(p, isDragon, potionDrop, b)
  }

  /** The effect of a finished round loop: a win pays the reward and may
      drop a potion after a monster, a loss only changes health. */
  function Settle(p: Player, isDragon: bool, potionDrop: bool, b: Battle): (r: Resolution)
    ensures r.won == b.won && r.after.health == b.playerHealth
    ensures r.won ==> r.after.gold == p.gold + Reward(isDragon)
    ensures r.won ==> r.after.inventory == p.inventory + (if !isDragon && potionDrop then [HealthPotion] else [])
    ensures !r.won ==> r.after.gold == p.gold && r.after.inventory == p.inventory
  {
    if b.won then
      var drop := if !isDragon && potionDrop then [HealthPotion] else [];
      Resolution(true, Player(b.playerHealth, p.gold + Reward(isDragon), p.inventory + drop))
    else Resolution(false, p.(health := b.playerHealth))
  }

  /** Proof helper for `Game.HandleCombat`: a call that reaches the round
      loop is the loop against the enemy's stats, settled by `Settle`. */
  lemma ResolveFought(p: Player, isDragon: bool, proceed: bool, potionDrop: bool, b: Battle)
    requires 0 <= p.health <= MaxHealth && BestItem(p.inventory, Weapon).Some?
    requires !(isDragon && !HasGoodEquipment(p.inventory) && !proceed)
    requires var e := Enemy(isDragon, isDragon && !HasGoodEquipment(p.inventory));
      b == Rounds(BestItem(p.inventory, Weapon).value.effect,
                  CounterDamage(e.damage, Protection(BestItem(p.inventory, Armor))), e.health, p.health)
    ensures Resolve(p, isDragon, proceed, potionDrop) == Settle(p, isDragon, potionDrop, b)
  {
  }

  /** Without a weapon no strike happens: health drops by 40 against the
      dragon or 20 against a monster, clamped, and nothing else changes. */
  lemma NoWeaponRetreat(p: Player, isDragon: bool, proceed: bool, potionDrop: bool)
    requires 0 <= p.health <= MaxHealth && BestItem(p.inventory, Weapon).None?
    ensures Resolve(p, isDragon, proceed, potionDrop)
            == Resolution(false, p.(health := Clamp(p.health - (if isDragon then 40 else 20))))
  {
  }

  /** Declining the under-equipped dragon fight changes nothing. */
  lemma DeclinedDragonChangesNothing(p: Player, potionDrop: bool)
    requires 0 <= p.health <= MaxHealth
    requires BestItem(p.inventory, Weapon).Some? && !HasGoodEquipment(p.inventory)
    ensures Resolve(p, true, false, potionDrop) == Resolution(false, p)
  {
  }

  /** A fight that is won is exactly a round loop that takes the enemy to 0
      or below; a fight that starts with a living player and ends neither in
      a win nor in a retreat leaves the player dead. */
  lemma FightEndsInWinOrDeath(p: Player, isDragon: bool, proceed: bool, potionDrop: bool)
    requires 0 < p.health <= MaxHealth
    requires BestItem(p.inventory, Weapon).Some?
    requires !isDragon || HasGoodEquipment(p.inventory) || proceed
    ensures var r := Resolve(p, isDragon, proceed, potionDrop);
      var underEquipped := isDragon && !HasGoodEquipment(p.inventory);
      var e := Enemy(isDragon, underEquipped);
      var b := Rounds(BestItem(p.inventory, Weapon).value.effect,
                      CounterDamage(e.damage, Protection(BestItem(p.inventory, Armor))), e.health, p.health);
      (r.won <==> b.enemyHealth <= 0) && (!r.won <==> r.after.health == 0) && b.strikes >= 1
  {
  }

  /** With good equipment the dragon (50 health) falls on the third strike
      of the Steel Sword (18) after at most two counter-attacks of 15, so a
      player with more than 30 health always slays it and collects 100 gold. */
  lemma WellEquippedSlaysDragon(p: Player, proceed: bool, potionDrop: bool)
    requires 30 < p.health <= MaxHealth && CatalogOnly(p.inventory) && HasGoodEquipment(p.inventory)
    ensures Resolve(p, true, proceed, potionDrop).won
    ensures Resolve(p, true, proceed, potionDrop).after.gold == p.gold + 100
  {
    GoodEquipmentIsSteelSword(p.inventory);
    var incoming := CounterDamage(20, Protection(BestItem(p.inventory, Armor)));
    assert incoming <= 15;
    var h1 := Clamp(p.health - incoming);
    var h2 := Clamp(h1 - incoming);
    assert Rounds(18, incoming, 14, h2).won;
    RoundsStep(18, incoming, 32, h1, 14, h2);
    RoundsStep(18, incoming, 50, p.health, 32, h1);
    assert Enemy(true, false) == Encounter(50, 20);
    ResolveFought(p, true, proceed, potionDrop, Rounds(18, incoming, 50, p.health));
  }

  /** The menu entries `move` handles at each location. */
  function Handles(loc: Location, choiceNum: int): (r: bool)
    ensures r ==> 1 <= choiceNum <= 4
    ensures loc == Village ==> (r <==> 1 <= choiceNum <= 4)
    ensures loc != Village ==> (choiceNum == 2 ==> r) && (r ==> choiceNum <= 2)
  {
    match loc
    case Village => 1 <= choiceNum <= 4
    case Blacksmith => choiceNum == 2
    case Market => choiceNum == 2
    case Forest => choiceNum == 1 || choiceNum == 2
    case Mountains => choiceNum == 1 || choiceNum == 2
  }

  /** The largest menu number the main loop accepts at each location. */
  function MaxOption(loc: Location): (r: int)
    ensures loc == Village ==> r == 8
    ensures loc != Village ==> r == 6
  {
    if loc == Village then 8 else 6
  }

  /** `isValidChoice` over the already-parsed input: None stands for the
      empty string or anything `parseInt` reads as NaN. */
  function IsValidChoice(input: Option<int>, max: int): (r: bool)
    ensures r <==> input.Some? && 1 <= input.value <= max
  {
    input.Some? && 1 <= input.value <= max
  }

  /** Every entry `move` handles is a number the main loop accepts at that
      location. */
  lemma MovesAreMenuChoices(loc: Location, choiceNum: int)
    ensures Handles(loc, choiceNum) ==> IsValidChoice(Some(choiceNum), MaxOption(loc))
  {
  }

  /** The global game state of the script. The player's name is display
      only and is not modelled. */
  class Game {
    var gameRunning: bool
    var playerHealth: int
    var playerGold: int
    var currentLocation: Location
    var inventory: seq<Item>

    ghost predicate Valid()
      reads this
    {
      0 <= playerHealth <= MaxHealth && playerGold >= 0
    }

    function Stats(): Player
      reads this
    {
      Player(playerHealth, playerGold, inventory)
    }

    /** The initial values of the globals. */
    constructor ()
      ensures Valid()
      ensures gameRunning && playerHealth == 100 && playerGold == 20
      ensures currentLocation == Village && inventory == [] && CatalogOnly(inventory)
    {
      gameRunning := true;
      playerHealth := 100;
      playerGold := 20;
      currentLocation := Village;
      inventory := [];
    }

    /** `updateHealth(amount)`: adds `amount`, keeps the result in [0, 100]
      and returns it. */
    method UpdateHealth(amount: int) returns (h: int)
      modifies this`playerHealth
      ensures playerHealth == Clamp(old(playerHealth) + amount)
      ensures h == playerHealth
    {
      playerHealth := playerHealth + amount;
      if playerHealth > 100 {
        playerHealth := 100;
      }
      if playerHealth < 0 {
        playerHealth := 0;
      }
      h := playerHealth;
    }

    /** `handleCombat(isDragon)`. */
    method HandleCombat(isDragon: bool, proceed: bool, potionDrop: bool) returns (won: bool)
      requires Valid()
      modifies this`playerHealth, this`playerGold, this`inventory
      ensures Valid()
      ensures Resolution(won, Stats()) == Resolve(old(Stats()), isDragon, proceed, potionDrop)
      ensures CatalogOnly(old(inventory)) ==> CatalogOnly(inventory)
    {
      ghost var before := Stats();
      var bestWeapon := BestItem(inventory, Weapon);
      var bestArmor := BestItem(inventory, Armor);

      if bestWeapon.None? {
        NoWeaponRetreat(before, isDragon, proceed, potionDrop);
        if isDragon {
          var _ := UpdateHealth(-40);
          return false;
        } else {
          var _ := UpdateHealth(-20);
          return false;
        }
      }

      var monsterHealth := if isDragon then 50 else 20;
      var monsterDamage := if isDragon then 20 else 10;

      if isDragon && !HasGoodEquipment(inventory) {
        if !proceed {
          DeclinedDragonChangesNothing(before, potionDrop);
          return false;
        }
        monsterDamage := monsterDamage + 10;
        monsterHealth := monsterHealth + 20;
      }

      assert Enemy(isDragon, isDragon && !HasGoodEquipment(before.inventory)) == Encounter(monsterHealth, monsterDamage);
      ghost var battle := Rounds(bestWeapon.value.effect, CounterDamage(monsterDamage, Protection(bestArmor)),
                                 monsterHealth, playerHealth);
      ResolveFought(before, isDragon, proceed, potionDrop, battle);
      won := FightRounds(bestWeapon.value, bestArmor, monsterHealth, monsterDamage, isDragon, potionDrop);
    }

    /** The round loop of `handleCombat` (the statements after the set-up):
      the player strikes first; a surviving enemy hits back for its damage
      less the armor's protection, at least 1; the loop stops when either
      side is down. */
    method FightRounds(bestWeapon: Item, bestArmor: Option<Item>, startHealth: int, monsterDamage: int,
                       isDragon: bool, potionDrop: bool) returns (won: bool)
      requires Valid() && startHealth > 0
      modifies this`playerHealth, this`playerGold, this`inventory
      ensures Valid()
      ensures Resolution(won, Stats()) ==
        Settle(old(Stats()), isDragon, potionDrop,
               Rounds(bestWeapon.effect, CounterDamage(monsterDamage, Protection(bestArmor)), startHealth, old(playerHealth)))
    {
      ghost var incomingDamage := CounterDamage(monsterDamage, Protection(bestArmor));
      ghost var battle := Rounds(bestWeapon.effect, incomingDamage, startHealth, playerHealth);
      var monsterHealth := startHealth;
      while monsterHealth > 0 && playerHealth > 0
        invariant 0 <= playerHealth <= MaxHealth && monsterHealth > 0
        invariant playerGold == old(playerGold) && inventory == old(inventory)
        invariant var b := Rounds(bestWeapon.effect, incomingDamage, monsterHealth, playerHealth);
          b.won == battle.won && b.playerHealth == battle.playerHealth
        decreases playerHealth
      {
        ghost var monsterBefore, healthBefore := monsterHealth, playerHealth;
        var playerHit := bestWeapon.effect;
        monsterHealth := monsterHealth - playerHit;
        if monsterHealth <= 0 {
          var goldReward := if isDragon then 100 else 10;
          playerGold := playerGold + goldReward;
          if !isDragon && potionDrop {
            inventory := inventory + [HealthPotion];
          }
          return true;
        }

        var protection := if bestArmor.Some? then bestArmor.value.effect else 0;
        var incoming := monsterDamage - protection;
        if incoming < 1 {
          incoming := 1;
        }
        assert incoming == incomingDamage;
        var _ := UpdateHealth(-incoming);
        if playerHealth <= 0 {
          return false;
        }
        RoundsStep(bestWeapon.effect, incomingDamage, monsterBefore, healthBefore, monsterHealth, playerHealth);
      }
      return false;
    }

    /** `useItem()`, with the answer already parsed: None stands for
      "cancel" or a non-number. A potion is drunk and removed; a weapon or
      armor is only reported as equipped. */
    method UseItem(choice: Option<int>) returns (used: bool)
      requires Valid()
      modifies this`playerHealth, this`inventory
      ensures Valid()
      ensures CatalogOnly(old(inventory)) ==> CatalogOnly(inventory)
      ensures used <==> choice.Some? && 1 <= choice.value <= |old(inventory)|
      ensures !used ==> playerHealth == old(playerHealth) && inventory == old(inventory)
      ensures used && old(inventory)[choice.value - 1].kind == Potion ==>
                playerHealth == Clamp(old(playerHealth) + old(inventory)[choice.value - 1].effect)
                && inventory == RemoveAt(old(inventory), choice.value - 1)
      ensures used && old(inventory)[choice.value - 1].kind != Potion ==>
                playerHealth == old(playerHealth) && inventory == old(inventory)
    {
      if |inventory| == 0 {
        return false;
      }
      if choice.None? {
        return false;
      }
      var index := choice.value - 1;
      if index < 0 || index >= |inventory| {
        return false;
      }
      var item := inventory[index];
      match item.kind {
        case Potion =>
          var _ := UpdateHealth(item.effect);
          inventory := inventory[..index] + inventory[index + 1..];
          used := true;
        case Weapon =>
          used := true;
        case Armor =>
          used := true;
      }
    }

    /** `shopBrowseAndBuy(shopKey)`, with the answer already parsed: None
      stands for a non-number, and one past the catalog is "Cancel / Back".
      A purchase is all or nothing. */
    method ShopBrowseAndBuy(shopKey: Location, choice: Option<int>)
      requires Valid()
      modifies this`playerGold, this`inventory
      ensures Valid()
      ensures CatalogOnly(old(inventory)) ==> CatalogOnly(inventory)
      ensures var catalog := Catalog(shopKey);
        if choice.Some? && 1 <= choice.value <= |catalog| && old(playerGold) >= catalog[choice.value - 1].value
        then playerGold == old(playerGold) - catalog[choice.value - 1].value
             && inventory == old(inventory) + [catalog[choice.value - 1]]
        else playerGold == old(playerGold) && inventory == old(inventory)
    {
      var catalog := Catalog(shopKey);
      if |catalog| == 0 {
        return;
      }
      if choice.None? || choice.value < 1 || choice.value > |catalog| + 1 {
        return;
      }
      if choice.value == |catalog| + 1 {
        return;
      }
      var chosen := catalog[choice.value - 1];
      if playerGold >= chosen.value {
        playerGold := playerGold - chosen.value;
        inventory := inventory + [chosen];
      }
    }

    /** `buyFromBlacksmith()`: the blacksmith's catalog, where entries 1 to 4
      are the Sword, the Steel Sword, the Wooden Shield and the Iron Shield. */
    method BuyFromBlacksmith(choice: Option<int>)
      requires Valid()
      modifies this`playerGold, this`inventory
      ensures Valid()
      ensures var menu := [Sword, SteelSword, WoodenShield, IronShield];
        if choice.Some? && 1 <= choice.value <= 4 && old(playerGold) >= menu[choice.value - 1].value
        then playerGold == old(playerGold) - menu[choice.value - 1].value
             && inventory == old(inventory) + [menu[choice.value - 1]]
        else playerGold == old(playerGold) && inventory == old(inventory)
    {
      ShopBrowseAndBuy(Blacksmith, choice);
    }

    /** `buyFromMarket()`: entry 1 is a Health Potion for 5 gold. */
    method BuyFromMarket(choice: Option<int>)
      requires Valid()
      modifies this`playerGold, this`inventory
      ensures Valid()
      ensures if choice == Some(1) && old(playerGold) >= 5
              then playerGold == old(playerGold) - 5 && inventory == old(inventory) + [HealthPotion]
              else playerGold == old(playerGold) && inventory == old(inventory)
    {
      ShopBrowseAndBuy(Market, choice);
    }

    /** `move(choiceNum)`: the location state machine. Entering or searching
      the forest fights a monster, and a lost fight the player survives
      sends them back to the village; the dragon fight ends the game on a
      win or on death and otherwise sends the player back to the village. */
    method Move(choiceNum: int, proceed: bool, potionDrop: bool) returns (validMove: bool)
      requires Valid()
      modifies this
      ensures Valid()
      ensures CatalogOnly(old(inventory)) ==> CatalogOnly(inventory)
      ensures validMove == Handles(old(currentLocation), choiceNum)
      ensures !validMove ==> unchanged(this)
      ensures old(currentLocation) == Village && choiceNum in {1, 2, 4} ==>
                Stats() == old(Stats()) && gameRunning == old(gameRunning)
                && currentLocation == (if choiceNum == 1 then Blacksmith else if choiceNum == 2 then Market else Mountains)
      ensures old(currentLocation) != Village && choiceNum == 2 ==>
                Stats() == old(Stats()) && gameRunning == old(gameRunning) && currentLocation == Village
      ensures (old(currentLocation) == Village && choiceNum == 3) || (old(currentLocation) == Forest && choiceNum == 1) ==>
                var r := Resolve(old(Stats()), false, proceed, potionDrop);
                Stats() == r.after && gameRunning == old(gameRunning)
                && currentLocation == (if !r.won && r.after.health > 0 then Village else Forest)
      ensures old(currentLocation) == Mountains && choiceNum == 1 ==>
                var r := Resolve(old(Stats()), true, proceed, potionDrop);
                Stats() == r.after
                && if r.won || r.after.health <= 0
                   then !gameRunning && currentLocation == Mountains
                   else gameRunning == old(gameRunning) && currentLocation == Village
    {
      validMove := false;

      if currentLocation == Village {
        if choiceNum == 1 {
          currentLocation := Blacksmith;
          validMove := true;
        } else if choiceNum == 2 {
          currentLocation := Market;
          validMove := true;
        } else if choiceNum == 3 {
          currentLocation := Forest;
          validMove := true;
          var fought := HandleCombat(false, proceed, potionDrop);
          if !fought {
            if playerHealth > 0 {
              currentLocation := Village;
            }
          }
        } else if choiceNum == 4 {
          currentLocation := Mountains;
          validMove := true;
        }
      } else if currentLocation == Blacksmith {
        if choiceNum == 2 {
          currentLocation := Village;
          validMove := true;
        }
      } else if currentLocation == Market {
        if choiceNum == 2 {
          currentLocation := Village;
          validMove := true;
        }
      } else if currentLocation == Forest {
        if choiceNum == 2 {
          currentLocation := Village;
          validMove := true;
        } else if choiceNum == 1 {
          var fought := HandleCombat(false, proceed, potionDrop);
          if !fought && playerHealth > 0 {
            currentLocation := Village;
          }
          validMove := true;
        }
      } else if currentLocation == Mountains {
        if choiceNum == 2 {
          currentLocation := Village;
          validMove := true;
        } else if choiceNum == 1 {
          var won := HandleCombat(true, proceed, potionDrop);
          if won && playerHealth > 0 {
            gameRunning := false;
          } else {
            if playerHealth <= 0 {
              gameRunning := false;
            } else {
              currentLocation := Village;
            }
          }
          validMove := true;
        }
      }
    }
  }
}
