/** The Advanced Edition of The Dragon's Quest (dragon-quest.js). Every
    `handleCombat` call meets a fresh enemy and plays a single round: one
    strike by the player and, if the enemy survives, one counter-attack.
    The mountain is gated in `move` by `hasGoodEquipment`. */
module DragonQuest {
  import opened Items
  import opened Damage

  // Item catalog; items in this edition carry no id.
  const HealthPotion := Item(None, "Health Potion", Potion, 5, 30, "Restores 30 health points")
  const Sword := Item(None, "Sword", Weapon, 10, 10, "A sturdy blade for combat")
  const WoodenShield := Item(None, "Wooden Shield", Armor, 8, 5, "Reduces damage taken in combat")
  const IronShield := Item(None, "Iron Shield", Armor, 15, 10, "A sturdy shield that offers excellent protection")
  const SteelSword := Item(None, "Steel Sword", Weapon, 20, 20, "A sharp and durable blade forged from steel")

  /** What the blacksmith lists, in menu order 1 to 4. */
  const BlacksmithMenu := [Sword, SteelSword, WoodenShield, IronShield]

  /** Every item the game can hand to the player. */
  const Stock := [HealthPotion, Sword, WoodenShield, IronShield, SteelSword]

  /** Every inventory entry is a copy of a catalog item. */
  predicate CatalogOnly(inv: seq<Item>)
  {
    forall x :: x in inv ==> x in Stock
  }

  datatype Location = Village | Blacksmith | Market | Forest | Mountain

  /** `hasGoodEquipment`: an item named "Steel Sword" and any armor. */
  function HasGoodEquipment(inv: seq<Item>): (r: bool)
    ensures r <==> (exists i :: 0 <= i < |inv| && inv[i].name == "Steel Sword")
                   && BestItem(inv, Armor).Some?
  {
    (exists i :: 0 <= i < |inv| && inv[i].name == "Steel Sword")
    && (exists j :: 0 <= j < |inv| && inv[j].kind == Armor)
  }

  /** With only catalog items, the dragon gate means the Steel Sword is the
      weapon `getBestItem` picks and some armor will be worn. */
  lemma GoodEquipmentIsSteelSword(inv: seq<Item>)
    requires CatalogOnly(inv) && HasGoodEquipment(inv)
    ensures BestItem(inv, Weapon) == Some(SteelSword) && BestItem(inv, Armor).Some?
  {
    var i :| 0 <= i < |inv| && inv[i].name == "Steel Sword";
    assert inv[i] in inv;
    StockNamedSteel(inv[i]);
    BestItemIsMaximal(inv, Weapon, SteelSword);
    BestItemIsOwned(inv, Weapon);
    StockWeapon(BestItem(inv, Weapon).value);
  }

  lemma StockNamedSteel(x: Item)
    requires x in Stock && x.name == "Steel Sword"
    ensures x == SteelSword
  {
  }

  lemma StockWeapon(x: Item)
    requires x in Stock && x.kind == Weapon
    ensures x == Sword || x == SteelSword
  {
  }

  /** Gold found on a defeated enemy. */
  function Reward(isDragon: bool): (r: int)
    ensures isDragon ==> r == 100
    ensures !isDragon ==> r == 10
  {
    if isDragon then 100 else 10
  }

  datatype Encounter = Encounter(health: int, damage: int)

  /** The fresh enemy each call builds. */
  function Foe(isDragon: bool): (e: Encounter)
    ensures isDragon ==> e == Encounter(50, 20)
    ensures !isDragon ==> e == Encounter(20, 10)
  {
    if isDragon then Encounter(50, 20) else Encounter(20, 10)
  }

  /** The part of the game state a fight reads and changes. */
  datatype Player = Player(health: int, gold: int, inventory: seq<Item>)

  /** The outcome of one `handleCombat` call: its result, the player
      afterwards, whether it ends the game, and the enemy's health after the
      strike (its starting health when there was no strike). */
  datatype Turn = Turn(ok: bool, after: Player, ends: bool, enemyHealth: int)

  /** `handleCombat(isDragon)` as a function of the state before it. */
  function Skirmish(p: Player, isDragon: bool): (t: Turn)
    requires 0 <= p.health <= MaxHealth
    ensures 0 <= t.after.health <= p.health
    ensures t.after.inventory == p.inventory
    ensures BestItem(p.inventory, Weapon).None? ==>
              t == Turn(false, p.(health := Clamp(p.health - Foe(isDragon).damage)), false, Foe(isDragon).health)
    ensures BestItem(p.inventory, Weapon).Some? ==>
              t.enemyHealth == Foe(isDragon).health - BestItem(p.inventory, Weapon).value.effect
    ensures t.enemyHealth <= 0 ==>
              t.ok && t.after.health == p.health && t.after.gold == p.gold + Reward(isDragon) && (t.ends <==> isDragon)
    ensures t.enemyHealth > 0 ==> t.after.gold == p.gold
    ensures BestItem(p.inventory, Weapon).Some? && t.enemyHealth > 0 ==>
              t.after.health == Clamp(p.health - CounterDamage(Foe(isDragon).damage, Protection(BestItem(p.inventory, Armor))))
              && (t.ok <==> t.after.health > 0) && (t.ends <==> !t.ok)
  {
    var e := Foe(isDragon);
    match BestItem(p.inventory, Weapon)
    case None => Turn(false, p.(health := Clamp(p.health - e.damage)), false, e.health)
    case Some(weapon) =>
      var left := e.health - weapon.effect;
      if left <= 0 then Turn(true, p.(gold := p.gold + Reward(isDragon)), isDragon, left)
      else
        var h := Clamp(p.health - CounterDamage(e.damage, Protection(BestItem(p.inventory, Armor))));
        Turn(h > 0, p.(health := h), h <= 0, left)
  }

  /** Proof helper for `Game.HandleCombat`: the branch of `Skirmish` where
      a strike with `weapon` takes the enemy to 0 or below. */
  lemma SkirmishKill(p: Player, isDragon: bool, weapon: Item)
    requires 0 <= p.health <= MaxHealth && BestItem(p.inventory, Weapon) == Some(weapon)
    requires Foe(isDragon).health - weapon.effect <= 0
    ensures Skirmish(p, isDragon)
            == Turn(true, p.(gold := p.gold + Reward(isDragon)), isDragon, Foe(isDragon).health - weapon.effect)
  {
  }

  /** Proof helper for `Game.HandleCombat`: the branch of `Skirmish` where
      the enemy survives a strike with `weapon` and hits back for `incoming`. */
  lemma SkirmishHit(p: Player, isDragon: bool, weapon: Item, incoming: int)
    requires 0 <= p.health <= MaxHealth && BestItem(p.inventory, Weapon) == Some(weapon)
    requires Foe(isDragon).health - weapon.effect > 0
    requires incoming == CounterDamage(Foe(isDragon).damage, Protection(BestItem(p.inventory, Armor)))
    ensures var h := Clamp(p.health - incoming);
      Skirmish(p, isDragon) == Turn(h > 0, p.(health := h), h <= 0, Foe(isDragon).health - weapon.effect)
  {
  }

  /** Without a weapon the player retreats: health drops by the enemy's
      damage (20 for the dragon, 10 for a monster), clamped, and gold and
      inventory stay as they were. */
  lemma NoWeaponRetreat(p: Player, isDragon: bool)
    requires 0 <= p.health <= MaxHealth
    requires forall i :: 0 <= i < |p.inventory| ==> p.inventory[i].kind != Weapon
    ensures var t := Skirmish(p, isDragon);
      !t.ok && !t.ends && t.after == p.(health := Clamp(p.health - (if isDragon then 20 else 10)))
  {
  }

  /** The dragon starts every call with 50 health and the strongest weapon
      on sale deals 20, so with catalog items no call ever defeats it and
      the dragon never pays its reward. */
  lemma DragonUnbeatable(p: Player)
    requires 0 <= p.health <= MaxHealth && CatalogOnly(p.inventory)
    ensures Skirmish(p, true).enemyHealth > 0
    ensures Skirmish(p, true).after.gold == p.gold
  {
    if BestItem(p.inventory, Weapon).Some? {
      BestItemIsOwned(p.inventory, Weapon);
      StockWeapon(BestItem(p.inventory, Weapon).value);
    }
  }

  /** With catalog items, a monster falls to the single strike exactly when
      the player owns the Steel Sword. */
  lemma MonsterFallsOnlyToSteelSword(p: Player)
    requires 0 <= p.health <= MaxHealth && CatalogOnly(p.inventory)
    ensures Skirmish(p, false).enemyHealth <= 0 <==> SteelSword in p.inventory
  {
    if SteelSword in p.inventory {
      BestItemIsMaximal(p.inventory, Weapon, SteelSword);
    }
    if BestItem(p.inventory, Weapon).Some? {
      BestItemIsOwned(p.inventory, Weapon);
      StockWeapon(BestItem(p.inventory, Weapon).value);
    }
  }

  /** The blacksmith's answer compared as raw text: "1" to "4" pick the
      listed item; anything else, "5" included, buys nothing. */
  function BlacksmithPick(choice: string): (r: Option<Item>)
    ensures r.Some? <==> choice in {"1", "2", "3", "4"}
    ensures r.Some? ==> |choice| == 1 && r.value == BlacksmithMenu[(choice[0] as int) - ('1' as int)]
  {
    if choice == "1" then Some(Sword)
    else if choice == "2" then Some(SteelSword)
    else if choice == "3" then Some(WoodenShield)
    else if choice == "4" then Some(IronShield)
    else None
  }

  /** The menu entries `move` handles at each location; the mountain entry
      needs good equipment. */
  function Handles(loc: Location, choiceNum: int, inv: seq<Item>): (r: bool)
    ensures r ==> 1 <= choiceNum <= 4
    ensures loc == Village && choiceNum == 4 ==> (r <==> HasGoodEquipment(inv))
    ensures loc != Village ==> (r ==> choiceNum == 1 || choiceNum == 2)
  {
    match loc
    case Village => 1 <= choiceNum <= 3 || (choiceNum == 4 && HasGoodEquipment(inv))
    case Blacksmith => choiceNum == 2
    case Market => choiceNum == 2
    case Forest => choiceNum == 1
    case Mountain => choiceNum == 2
  }

  /** The global game state of the script. The player's name is display
      only and is not modelled. */
  class Game {
    var gameRunning: bool
    var playerHealth: int
    var playerGold: int
    var currentLocation: Location
    var inventory: seq<Item>

    /** Health stays in range and gold never goes negative. */
    ghost predicate Valid()
      reads this
    {
      0 <= playerHealth <= MaxHealth && playerGold >= 0
    }

    function Stats(): Player
      reads this
    {
      Player(playerHealth, playerGold, inventory)
    }

    /** The initial values of the globals. */
    constructor ()
      ensures Valid()
      ensures gameRunning && playerHealth == 100 && playerGold == 20
      ensures currentLocation == Village && inventory == [] && CatalogOnly(inventory)
    {
      gameRunning := true;
      playerHealth := 100;
      playerGold := 20;
      currentLocation := Village;
      inventory := [];
    }

    /** `updateHealth(amount)`: adds `amount`, keeps the result in [0, 100]
      and returns it. */
    method UpdateHealth(amount: int) returns (h: int)
      modifies this`playerHealth
      ensures playerHealth == Clamp(old(playerHealth) + amount)
      ensures h == playerHealth
    {
      playerHealth := playerHealth + amount;
      if playerHealth > 100 {
        playerHealth := 100;
      }
      if playerHealth < 0 {
        playerHealth := 0;
      }
      h := playerHealth;
    }

    /** `handleCombat(isDragon)`: one round against a fresh enemy. A dragon
      kill or the player's death clears `gameRunning`. */
    method HandleCombat(isDragon: bool) returns (ok: bool)
      requires Valid()
      modifies this`playerHealth, this`playerGold, this`gameRunning
      ensures Valid()
      ensures var t := Skirmish(old(Stats()), isDragon);
        ok == t.ok && Stats() == t.after && gameRunning == (old(gameRunning) && !t.ends)
    {
      ghost var before := Stats();
      var enemyHealth := if isDragon then 50 else 20;
      var enemyDamage := if isDragon then 20 else 10;
      assert Foe(isDragon) == Encounter(enemyHealth, enemyDamage);

      var bestWeapon := BestItem(inventory, Weapon);
      var bestArmor := BestItem(inventory, Armor);

      if bestWeapon.None? {
        assert Skirmish(before, isDragon) == Turn(false, before.(health := Clamp(before.health - enemyDamage)), false, enemyHealth);
        var _ := UpdateHealth(-enemyDamage);
        return false;
      }

      var playerAttack := bestWeapon.value.effect;
      var armorProtection := if bestArmor.Some? then bestArmor.value.effect else 0;
      var enemyAttack := if 1 >= enemyDamage - armorProtection then 1 else enemyDamage - armorProtection;

      enemyHealth := enemyHealth - playerAttack;

      if enemyHealth <= 0 {
        var reward := if isDragon then 100 else 10;
        playerGold := playerGold + reward;
        SkirmishKill(before, isDragon, bestWeapon.value);
        if isDragon {
          gameRunning := false;
        }
        return true;
      } else {
        SkirmishHit(before, isDragon, bestWeapon.value, enemyAttack);
        var _ := UpdateHealth(-enemyAttack);
        if playerHealth <= 0 {
          gameRunning := false;
          return false;
        }
      }

      return true;
    }

    /** `useItem()`, with the answer already parsed: None stands for
      "cancel" or a non-number. Only a potion at a valid position is used:
      it heals and is removed; every other answer changes nothing. */
    method UseItem(choice: Option<int>)
      requires Valid()
      modifies this`playerHealth, this`inventory
      ensures Valid()
      ensures CatalogOnly(old(inventory)) ==> CatalogOnly(inventory)
      ensures if choice.Some? && 1 <= choice.value <= |old(inventory)| && old(inventory)[choice.value - 1].kind == Potion
              then playerHealth == Clamp(old(playerHealth) + old(inventory)[choice.value - 1].effect)
                   && inventory == RemoveAt(old(inventory), choice.value - 1)
              else playerHealth == old(playerHealth) && inventory == old(inventory)
    {
      if |inventory| == 0 {
        return;
      }
      if choice.None? {
        return;
      }
      var index := choice.value - 1;
      if index >= 0 && index < |inventory| {
        var item := inventory[index];
        if item.kind == Potion {
          var _ := UpdateHealth(item.effect);
          inventory := inventory[..index] + inventory[index + 1..];
        }
      }
    }

    /** `buyFromBlacksmith()`, with the raw answer text: a listed item is
      bought when the gold covers its price, all or nothing. */
    method BuyFromBlacksmith(choice: string)
      requires Valid()
      modifies this`playerGold, this`inventory
      ensures Valid()
      ensures CatalogOnly(old(inventory)) ==> CatalogOnly(inventory)
      ensures var pick := BlacksmithPick(choice);
        if pick.Some? && old(playerGold) >= pick.value.value
        then playerGold == old(playerGold) - pick.value.value && inventory == old(inventory) + [pick.value]
        else playerGold == old(playerGold) && inventory == old(inventory)
    {
      if choice == "5" {
        return;
      }

      var item: Item;
      if choice == "1" {
        item := Sword;
      } else if choice == "2" {
        item := SteelSword;
      } else if choice == "3" {
        item := WoodenShield;
      } else if choice == "4" {
        item := IronShield;
      } else {
        return;
      }

      if playerGold >= item.value {
        inventory := inventory + [item];
        playerGold := playerGold - item.value;
      }
    }

    /** `buyFromMarket()`: one Health Potion when the gold covers it. */
    method BuyFromMarket()
      requires Valid()
      modifies this`playerGold, this`inventory
      ensures Valid()
      ensures CatalogOnly(old(inventory)) ==> CatalogOnly(inventory)
      ensures if old(playerGold) >= HealthPotion.value
              then playerGold == old(playerGold) - HealthPotion.value && inventory == old(inventory) + [HealthPotion]
              else playerGold == old(playerGold) && inventory == old(inventory)
    {
      if playerGold >= HealthPotion.value {
        inventory := inventory + [HealthPotion];
        playerGold := playerGold - HealthPotion.value;
      }
    }

    /** `move(choiceNum)`: the location state machine. Entering the forest
      fights one monster round and stays in the forest; the mountain opens
      only with good equipment; every return option leads to the village. */
    method Move(choiceNum: int) returns (validMove: bool)
      requires Valid()
      modifies this
      ensures Valid()
      ensures inventory == old(inventory)
      ensures validMove == Handles(old(currentLocation), choiceNum, old(inventory))
      ensures !validMove ==> unchanged(this)
      ensures old(currentLocation) == Village && choiceNum == 3 ==>
                var t := Skirmish(old(Stats()), false);
                currentLocation == Forest && Stats() == t.after && gameRunning == (old(gameRunning) && !t.ends)
      ensures validMove && !(old(currentLocation) == Village && choiceNum == 3) ==>
                Stats() == old(Stats()) && gameRunning == old(gameRunning)
                && currentLocation == (if old(currentLocation) != Village then Village
                                       else if choiceNum == 1 then Blacksmith
                                       else if choiceNum == 2 then Market
                                       else Mountain)
    {
      validMove := false;

      if currentLocation == Village {
        if choiceNum == 1 {
          currentLocation := Blacksmith;
          validMove := true;
        } else if choiceNum == 2 {
          currentLocation := Market;
          validMove := true;
        } else if choiceNum == 3 {
          currentLocation := Forest;
          var _ := HandleCombat(false);
          validMove := true;
        } else if choiceNum == 4 {
          if HasGoodEquipment(inventory) {
            currentLocation := Mountain;
            validMove := true;
          }
        }
      } else if currentLocation == Blacksmith && choiceNum == 2 {
        currentLocation := Village;
        validMove := true;
      } else if currentLocation == Market && choiceNum == 2 {
        currentLocation := Village;
        validMove := true;
      } else if currentLocation == Forest && choiceNum == 1 {
        currentLocation := Village;
        validMove := true;
      } else if currentLocation == Mountain && choiceNum == 2 {
        currentLocation := Village;
        validMove := true;
      }
    }
  }
}
