/** The Adventure Game (game.js). There is no gold and no health clamp:
    purchases are free, health may fall below 0, and a fight needs both a
    weapon and armor. The fight loops until one side is down; the dragon's
    lair is entered freely but the dragon is only fought with good
    equipment, and only a won dragon fight ends the game. */
module AdventureGame {
  import opened Items
  import opened Damage

  // Item templates; items in this edition carry no id.
  const BasicSword := Item(None, "Basic Sword", Weapon, 5, 10, "A simple sword")
  const SteelSword := Item(None, "Steel Sword", Weapon, 20, 20, "A sharp steel sword")
  const WoodenShield := Item(None, "Wooden Shield", Armor, 8, 5, "Reduces damage taken in combat")
  const IronShield := Item(None, "Iron Shield", Armor, 25, 15, "Provides strong protection")
  const HealingPotion := Item(None, "Healing Potion", Potion, 10, 20, "Restores 20 health")

  /** What `buyFromBlacksmith` searches, in order. */
  const Store := [SteelSword, IronShield]

  /** Every item the game can hand to the player. */
  const Stock := [BasicSword, SteelSword, WoodenShield, IronShield, HealingPotion]

  /** Every inventory entry is one of the item templates. */
  predicate CatalogOnly(inv: seq<Item>)
  {
    forall x :: x in inv ==> x in Stock
  }

  datatype Location = Village | Blacksmith | Market | Forest | DragonLair

  /** `hasGoodEquipment`: an item named "Steel Sword" and a non-empty list
      of armor. */
  function HasGoodEquipment(inv: seq<Item>): (r: bool)
    ensures r <==> (exists i :: 0 <= i < |inv| && inv[i].name == "Steel Sword")
                   && (exists j :: 0 <= j < |inv| && inv[j].kind == Armor)
  {
    var hasSteel := exists i :: 0 <= i < |inv| && inv[i].name == "Steel Sword";
    var anyArmor := |ItemsByType(inv, Armor)| > 0;
    if !anyArmor then NoneOfKind(inv, Armor); false
    else assert ItemsByType(inv, Armor)[0] in inv; hasSteel
  }

  lemma StockNamedSteel(x: Item)
    requires x in Stock && x.name == "Steel Sword"
    ensures x == SteelSword
  {
  }

  lemma StockArmor(x: Item)
    requires x in Stock && x.kind == Armor
    ensures x == WoodenShield || x == IronShield
  {
  }

  /** With only template items, good equipment means the Steel Sword is the
      weapon `getBestItem` picks and the armor worn protects by 5 or 15. */
  lemma GoodEquipmentIsSteelSword(inv: seq<Item>)
    requires CatalogOnly(inv) && HasGoodEquipment(inv)
    ensures BestItem(inv, Weapon) == Some(SteelSword)
    ensures BestItem(inv, Armor).Some? && BestItem(inv, Armor).value.effect in {5, 15}
  {
    var i :| 0 <= i < |inv| && inv[i].name == "Steel Sword";
    assert inv[i] in inv;
    StockNamedSteel(inv[i]);
    BestItemIsMaximal(inv, Weapon, SteelSword);
    BestItemIsOwned(inv, Weapon);
    var w := BestItem(inv, Weapon).value;
    assert w in Stock && w.kind == Weapon;
    assert ItemsByType(inv, Armor)[0] in inv;
    BestItemIsMaximal(inv, Armor, ItemsByType(inv, Armor)[0]);
    BestItemIsOwned(inv, Armor);
    StockArmor(BestItem(inv, Armor).value);
  }

  datatype Encounter = Encounter(health: int, damage: int)

  /** The goblin (20, 10) or the dragon (50, 20). */
  function Foe(isDragon: bool): (e: Encounter)
    ensures isDragon ==> e == Encounter(50, 20)
    ensures !isDragon ==> e == Encounter(20, 10)
  {
    if isDragon then Encounter(50, 20) else Encounter(20, 10)
  }

  /** How the fight loop ended: both final health values, the player's
      strikes and the monster's counter-attacks. */
  datatype Duel = Duel(monsterHealth: int, playerHealth: int, strikes: nat, hits: nat)

  /** The fight loop of `handleCombat`: while both are above 0 the player
      strikes for `weapon`, and a monster still standing hits back for
      `incoming`; health is never clamped. */
  function Exchange(weapon: int, incoming: int, monster: int, player: int): (d: Duel)
    requires incoming >= 1
    ensures d.playerHealth <= player
    ensures monster <= 0 || player <= 0 ==> d == Duel(monster, player, 0, 0)
    ensures monster > 0 && player > 0 ==>
              d.strikes >= 1 && (d.monsterHealth <= 0 <==> d.playerHealth > 0)
              && d.hits == (if d.monsterHealth <= 0 then d.strikes - 1 else d.strikes)
              && (d.monsterHealth <= 0 ==> d.monsterHealth + weapon > 0)
    decreases if player > 0 then player else 0
  {
    if monster <= 0 || player <= 0 then Duel(monster, player, 0, 0)
    else if monster - weapon <= 0 then Duel(monster - weapon, player, 1, 0)
    else
      var d := Exchange(weapon, incoming, monster - weapon, player - incoming);
      d.(strikes := d.strikes + 1, hits := d.hits + 1)
  }

  /** Each strike takes exactly `weapon` from the monster and each
      counter-attack exactly `incoming` from the player. */
  lemma {:induction false} ExchangeCounts(weapon: int, incoming: int, monster: int, player: int)
    requires incoming >= 1
    ensures var d := Exchange(weapon, incoming, monster, player);
      d.monsterHealth == monster - d.strikes * weapon && d.playerHealth == player - d.hits * incoming
    decreases if player > 0 then player else 0
  {
    if monster > 0 && player > 0 && monster - weapon > 0 {
      ExchangeCounts(weapon, incoming, monster - weapon, player - incoming);
      var d := Exchange(weapon, incoming, monster - weapon, player - incoming);
      MulStep(d.strikes, weapon);
      MulStep(d.hits, incoming);
    }
  }

  /** One round that neither side loses leaves the final health of the
      rest of the loop unchanged. */
  lemma ExchangeStep(weapon: int, incoming: int, monster: int, player: int, monster': int, player': int)
    requires incoming >= 1 && monster > 0 && player > 0
    requires monster' == monster - weapon && player' == player - incoming && monster' > 0
    ensures Exchange(weapon, incoming, monster, player).playerHealth
            == Exchange(weapon, incoming, monster', player').playerHealth
  {
  }

  /** The result of `handleCombat` and the player's health after it. */
  datatype Outcome = Outcome(won: bool, health: int)

  /** `handleCombat(isDragon)` as a function of the health and inventory
      before it. */
  function Combat(health: int, inv: seq<Item>, isDragon: bool): (r: Outcome)
    ensures BestItem(inv, Weapon).None? || BestItem(inv, Armor).None? ==> r == Outcome(false, health)
    ensures r.won <==> BestItem(inv, Weapon).Some? && BestItem(inv, Armor).Some? && r.health > 0
    ensures r.health <= health
  {
    var weapon := BestItem(inv, Weapon);
    var armor := BestItem(inv, Armor);
    if weapon.None? || armor.None? then Outcome(false, health)
    else
      var e := Foe(isDragon);
      var d := Exchange(weapon.value.effect, CounterDamage(e.damage, armor.value.effect), e.health, health);
      Outcome(d.playerHealth > 0, d.playerHealth)
  }

  /** A fight with both pieces of equipment is won exactly when the monster
      ends at 0 or below, and the player loses exactly the counter-attacks
      taken. A player already at 0 or below strikes no blow and loses. */
  lemma CombatWonIffMonsterDown(health: int, inv: seq<Item>, isDragon: bool)
    requires BestItem(inv, Weapon).Some? && BestItem(inv, Armor).Some?
    ensures var e := Foe(isDragon);
      var incoming := CounterDamage(e.damage, BestItem(inv, Armor).value.effect);
      var d := Exchange(BestItem(inv, Weapon).value.effect, incoming, e.health, health);
      (Combat(health, inv, isDragon).won <==> d.monsterHealth <= 0)
      && Combat(health, inv, isDragon).health == health - d.hits * incoming
  {
    var e := Foe(isDragon);
    var incoming := CounterDamage(e.damage, BestItem(inv, Armor).value.effect);
    ExchangeCounts(BestItem(inv, Weapon).value.effect, incoming, e.health, health);
  }

  /** Health is never clamped: starting at 3 with the starting equipment,
      a goblin fight leaves the player at -2. */
  lemma HealthCanEndNegative()
    ensures Combat(3, [BasicSword, WoodenShield], false) == Outcome(false, -2)
  {
    var inv := [BasicSword, WoodenShield];
    BestItemIsOwned(inv, Weapon);
    BestItemIsMaximal(inv, Weapon, BasicSword);
    BestItemIsOwned(inv, Armor);
    BestItemIsMaximal(inv, Armor, WoodenShield);
    assert BestItem(inv, Weapon) == Some(BasicSword);
    assert BestItem(inv, Armor) == Some(WoodenShield);
  }

  /** With good equipment the dragon falls on the third strike after at
      most two counter-attacks of 15, so more than 30 health always wins. */
  lemma WellEquippedSlaysDragon(health: int, inv: seq<Item>)
    requires CatalogOnly(inv) && HasGoodEquipment(inv) && health > 30
    ensures Combat(health, inv, true).won
  {
    GoodEquipmentIsSteelSword(inv);
    var incoming := CounterDamage(20, BestItem(inv, Armor).value.effect);
    assert incoming <= 15;
    assert Exchange(20, incoming, 10, health - 2 * incoming).playerHealth > 0;
    ExchangeStep(20, incoming, 30, health - incoming, 10, health - 2 * incoming);
    ExchangeStep(20, incoming, 50, health, 30, health - incoming);
  }

  /** Names compared the way `toLowerCase` does for ASCII letters. */
  function LowerChar(c: char): char
  {
    if 'A' <= c <= 'Z' then (c as int + 32) as char else c
  }

  function Lower(s: string): (r: string)
    ensures |r| == |s| && forall i :: 0 <= i < |s| ==> r[i] == LowerChar(s[i])
  {
    seq(|s|, i requires 0 <= i < |s| => LowerChar(s[i]))
  }

  /** Lower-casing twice is lower-casing once. */
  lemma LowerIdempotent(s: string)
    ensures Lower(Lower(s)) == Lower(s)
  {
    forall i | 0 <= i < |s|
      ensures Lower(Lower(s))[i] == Lower(s)[i]
    {
      assert LowerChar(LowerChar(s[i])) == LowerChar(s[i]);
    }
  }

  /** `store.find(...)` by case-insensitive name: the first item whose
      name matches, or nothing. */
  function FindByName(items: seq<Item>, name: string): (r: Option<Item>)
    ensures r.None? <==> forall i :: 0 <= i < |items| ==> Lower(items[i].name) != Lower(name)
    ensures r.Some? ==> exists i :: 0 <= i < |items| && items[i] == r.value && Lower(items[i].name) == Lower(name)
                                   && forall j :: 0 <= j < i ==> Lower(items[j].name) != Lower(name)
    decreases |items|
  {
    if items == [] then None
    else if Lower(items[0].name) == Lower(name) then
      assert items[0] == items[0];
      Some(items[0])
    else
      var r := FindByName(items[1..], name);
      if r.Some? then
        var i :| 0 <= i < |items[1..]| && items[1..][i] == r.value && Lower(items[1..][i].name) == Lower(name)
                 && forall j :: 0 <= j < i ==> Lower(items[1..][j].name) != Lower(name);
        assert items[i + 1] == r.value;
        r
      else r
  }

  /** The search ignores the case of the name asked for. */
  lemma FindIgnoresCase(items: seq<Item>, name: string)
    ensures FindByName(items, name) == FindByName(items, Lower(name))
  {
    LowerIdempotent(name);
  }

  /** The blacksmith menu's two fixed names find the two store items. */
  lemma StoreSellsMenuItems()
    ensures FindByName(Store, "Steel Sword") == Some(SteelSword)
    ensures FindByName(Store, "Iron Shield") == Some(IronShield)
  {
    assert Lower(SteelSword.name) == Lower("Steel Sword");
    assert Lower(IronShield.name) == Lower("Iron Shield");
    assert Lower(SteelSword.name)[0] != Lower("Iron Shield")[0];
  }

  /** Where `move(choice)` leads from `loc`; None keeps the location. */
  function Destination(loc: Location, choice: int): (r: Option<Location>)
    ensures r.Some? ==> r.value != loc
    ensures loc == Village ==> (r.Some? <==> 1 <= choice <= 4)
    ensures loc != Village && r.Some? ==> r.value == Village
  {
    match loc
    case Village =>
      if choice == 1 then Some(Blacksmith)
      else if choice == 2 then Some(Market)
      else if choice == 3 then Some(Forest)
      else if choice == 4 then Some(DragonLair)
      else None
    case Blacksmith => if choice == 3 then Some(Village) else None
    case Market => if choice == 2 then Some(Village) else None
    case Forest => if choice == 2 then Some(Village) else None
    case DragonLair => if choice == 2 then Some(Village) else None
  }

  /** Viewing the inventory, shopping and fighting keep the player where
      they are. */
  lemma ActionsStayPut(loc: Location, choice: int)
    ensures (loc == Village && choice == 5) || (loc == Blacksmith && choice in {1, 2})
            || (loc == Market && choice == 1) || (loc in {Forest, DragonLair} && choice == 1)
            ==> Destination(loc, choice).None?
  {
  }

  /** The global game state of the script. */
  class Game {
    var inventory: seq<Item>
    var playerHealth: int
    var currentLocation: Location
    var gameRunning: bool

    /** The initial values of the globals. */
    constructor ()
      ensures inventory == [BasicSword, WoodenShield] && CatalogOnly(inventory)
      ensures playerHealth == 100 && currentLocation == Village && gameRunning
    {
      inventory := [BasicSword, WoodenShield];
      playerHealth := 100;
      currentLocation := Village;
      gameRunning := true;
    }

    /** `handleCombat(isDragon)`: refuses without both a weapon and armor,
      otherwise fights until the monster or the player is down. */
    method HandleCombat(isDragon: bool) returns (won: bool)
      modifies this`playerHealth
      ensures Outcome(won, playerHealth) == Combat(old(playerHealth), inventory, isDragon)
    {
      var weapon := BestItem(inventory, Weapon);
      var armor := BestItem(inventory, Armor);

      if weapon.None? || armor.None? {
        return false;
      }

      var monsterHealth := if isDragon then 50 else 20;
      var monsterDamage := if isDragon then 20 else 10;
      assert Foe(isDragon) == Encounter(monsterHealth, monsterDamage);
      ghost var incoming := CounterDamage(monsterDamage, armor.value.effect);
      ghost var duel := Exchange(weapon.value.effect, incoming, monsterHealth, playerHealth);

      while monsterHealth > 0 && playerHealth > 0
        invariant Exchange(weapon.value.effect, incoming, monsterHealth, playerHealth).playerHealth == duel.playerHealth
        decreases if playerHealth > 0 then playerHealth else 0
      {
        ghost var monsterBefore, healthBefore := monsterHealth, playerHealth;
        monsterHealth := monsterHealth - weapon.value.effect;

        if monsterHealth <= 0 {
          assert playerHealth == duel.playerHealth;
          break;
        }

        var damageTaken := monsterDamage - armor.value.effect;
        damageTaken := if damageTaken > 1 then damageTaken else 1;
        playerHealth := playerHealth - damageTaken;
        ExchangeStep(weapon.value.effect, incoming, monsterBefore, healthBefore, monsterHealth, playerHealth);
      }

      if playerHealth <= 0 {
        return false;
      }

      return true;
    }

    /** `buyFromBlacksmith(itemName)`: appends the store item whose name
      matches, ignoring case; gold plays no part. */
    method BuyFromBlacksmith(itemName: string)
      modifies this`inventory
      ensures CatalogOnly(old(inventory)) ==> CatalogOnly(inventory)
      ensures var found := FindByName(Store, itemName);
        inventory == old(inventory) + (if found.Some? then [found.value] else [])
    {
      var item := FindByName(Store, itemName);
      if item.Some? {
        assert item.value in Store;
        inventory := inventory + [item.value];
      }
    }

    /** `buyPotion()`: always appends a Healing Potion. */
    method BuyPotion()
      modifies this`inventory
      ensures CatalogOnly(old(inventory)) ==> CatalogOnly(inventory)
      ensures inventory == old(inventory) + [HealingPotion]
    {
      inventory := inventory + [HealingPotion];
    }

    /** `victory()`: ends the game. */
    method Victory()
      modifies this`gameRunning
      ensures !gameRunning
    {
      gameRunning := false;
    }

    /** `move(choice)`: travels, shops or fights depending on the location.
      The dragon is fought only with good equipment, and only a won dragon
      fight ends the game. */
    method Move(choice: int)
      modifies this
      ensures CatalogOnly(old(inventory)) ==> CatalogOnly(inventory)
      ensures var d := Destination(old(currentLocation), choice);
        currentLocation == if d.Some? then d.value else old(currentLocation)
      ensures old(currentLocation) == Blacksmith && choice == 1 ==> inventory == old(inventory) + [SteelSword]
      ensures old(currentLocation) == Blacksmith && choice == 2 ==> inventory == old(inventory) + [IronShield]
      ensures old(currentLocation) == Market && choice == 1 ==> inventory == old(inventory) + [HealingPotion]
      ensures (!(old(currentLocation) in {Blacksmith, Market} && choice == 1)
               && !(old(currentLocation) == Blacksmith && choice == 2)) ==> inventory == old(inventory)
      ensures old(currentLocation) == Forest && choice == 1 ==>
                playerHealth == Combat(old(playerHealth), old(inventory), false).health && gameRunning == old(gameRunning)
      ensures old(currentLocation) == DragonLair && choice == 1 ==>
                if HasGoodEquipment(old(inventory))
                then var r := Combat(old(playerHealth), old(inventory), true);
                     playerHealth == r.health && gameRunning == (old(gameRunning) && !r.won)
                else playerHealth == old(playerHealth) && gameRunning == old(gameRunning)
      ensures !(old(currentLocation) in {Forest, DragonLair} && choice == 1) ==>
                playerHealth == old(playerHealth) && gameRunning == old(gameRunning)
    {
      StoreSellsMenuItems();
      match currentLocation {
        case Village =>
          if choice == 1 {
            currentLocation := Blacksmith;
          } else if choice == 2 {
            currentLocation := Market;
          } else if choice == 3 {
            currentLocation := Forest;
          } else if choice == 4 {
            currentLocation := DragonLair;
          }
        case Blacksmith =>
          if choice == 1 {
            BuyFromBlacksmith("Steel Sword");
          } else if choice == 2 {
            BuyFromBlacksmith("Iron Shield");
          } else if choice == 3 {
            currentLocation := Village;
          }
        case Market =>
          if choice == 1 {
            BuyPotion();
          } else if choice == 2 {
            currentLocation := Village;
          }
        case Forest =>
          if choice == 1 {
            var _ := HandleCombat(false);
          } else if choice == 2 {
            currentLocation := Village;
          }
        case DragonLair =>
          if choice == 1 {
            if HasGoodEquipment(inventory) {
              ghost var fight := Combat(playerHealth, inventory, true);
              var won := HandleCombat(true);
              assert won == fight.won && playerHealth == fight.health;
              if won {
                Victory();
              }
            }
          } else if choice == 2 {
            currentLocation := Village;
          }
      }
    }
  }
}
