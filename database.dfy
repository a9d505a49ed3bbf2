/** The record transformer of python/database.py: the nested lookup
    `get_field`, the catalog rows (Item and the nine category tables) and the
    market snapshot row (Listing) with its derived surplus and profit margin. */
module Database {
  import opened Json
  import opened Text

  // ---------------------------------------------------------------------
  // get_field

  /** `get_field(data, *keys)`: follow the keys one by one; an absent key
      gives None, subscripting something that is not a dict raises. */
  function FieldOf(data: Json, keys: seq<string>): Result<Json>
    decreases |keys|
  {
    if keys == [] then Ok(data)
    else
      match Index(data, keys[0])
      case Ok(v) => FieldOf(v, keys[1..])
      case Err(KeyError(_)) => Ok(Null)
      case Err(e) => Err(e)
  }

  /** `vs` lists the values met when following `keys` from `data`, each key
      present in the dict before it. */
  ghost predicate Chain(data: Json, keys: seq<string>, vs: seq<Json>) {
    && |vs| == |keys| + 1
    && vs[0] == data
    && forall i :: 0 <= i < |keys| ==>
         vs[i].Obj? && keys[i] in vs[i].fields && vs[i + 1] == vs[i].fields[keys[i]]
  }

  /** After the first `i` keys have been found, get_field goes on from the
      value they reach with the remaining keys. */
  lemma {:induction false} FieldOfAfterPrefix(data: Json, keys: seq<string>, vs: seq<Json>, i: nat)
    requires i <= |keys| && Chain(data, keys[..i], vs)
    ensures FieldOf(data, keys) == FieldOf(vs[i], keys[i..])
  {
    if i > 0 {
      assert keys[1..][..i - 1] == keys[..i][1..];
      assert Chain(vs[1], keys[1..][..i - 1], vs[1..]);
      FieldOfAfterPrefix(vs[1], keys[1..], vs[1..], i - 1);
      assert keys[1..][i - 1..] == keys[i..];
    }
  }

  /** get_field returns the value at the end of the path when every key is present. */
  lemma GetFieldFound(data: Json, keys: seq<string>, vs: seq<Json>)
    requires Chain(data, keys, vs)
    ensures FieldOf(data, keys) == Ok(vs[|keys|])
  {
    assert keys[..|keys|] == keys;
    FieldOfAfterPrefix(data, keys, vs, |keys|);
  }

  /** get_field returns None at the first absent key, whatever keys follow it. */
  lemma GetFieldMissing(data: Json, keys: seq<string>, vs: seq<Json>, i: nat)
    requires i < |keys| && Chain(data, keys[..i], vs)
    requires vs[i].Obj? && keys[i] !in vs[i].fields
    ensures FieldOf(data, keys) == Ok(Null)
  {
    FieldOfAfterPrefix(data, keys, vs, i);
  }

  /** get_field raises TypeError when a key must be looked up in something
      that is not a dict (a JSON null, number, string or list). */
  lemma GetFieldNotADict(data: Json, keys: seq<string>, vs: seq<Json>, i: nat)
    requires i < |keys| && Chain(data, keys[..i], vs)
    requires !vs[i].Obj?
    ensures FieldOf(data, keys) == Err(TypeError)
  {
    FieldOfAfterPrefix(data, keys, vs, i);
  }

  /** The loop of `get_field`, reassigning `data` key by key. */
  method GetField(data: Json, keys: seq<string>) returns (r: Result<Json>)
    ensures r == FieldOf(data, keys)
    ensures keys == [] ==> r == Ok(data)
  {
    var cur := data;
    var i := 0;
    while i < |keys|
      invariant 0 <= i <= |keys|
      invariant FieldOf(data, keys) == FieldOf(cur, keys[i..])
    {
      assert keys[i..][1..] == keys[i + 1..];
      match Index(cur, keys[i]) {
        case Ok(v) =>
          cur := v;
        case Err(e) =>
          if e.KeyError? {
            return Ok(Null);
          }
          return Err(e);
      }
      i := i + 1;
    }
    return Ok(cur);
  }

  // ---------------------------------------------------------------------
  // Two-level lookups, stated directly

  /** The object under `outer` can be searched: the record is a dict and its
      `outer` entry is either absent or itself a dict. */
  predicate Nestable(data: Json, outer: string) {
    data.Obj? && (outer !in data.fields || data.fields[outer].Obj?)
  }

  /** `data[outer][inner]`, or None when either key is absent. */
  function ValueAt(data: Json, outer: string, inner: string): Json
    requires Nestable(data, outer)
  {
    if outer in data.fields && inner in data.fields[outer].fields
    then data.fields[outer].fields[inner]
    else Null
  }

  /** `get_field(data, outer, inner)` is the direct two-level lookup, and
      raises exactly when the record or its `outer` entry is not a dict. */
  function Nested(data: Json, outer: string, inner: string): (r: Result<Json>)
    ensures r.Ok? <==> Nestable(data, outer)
    ensures r.Ok? ==> r.value == ValueAt(data, outer, inner)
    ensures r.Err? ==> r.error == TypeError
  {
    FieldOfTwo(data, outer, inner);
    FieldOf(data, [outer, inner])
  }

  lemma FieldOfTwo(data: Json, outer: string, inner: string)
    ensures FieldOf(data, [outer, inner]) ==
      if Nestable(data, outer) then Ok(ValueAt(data, outer, inner)) else Err(TypeError)
  {
    FieldOfStep(data, [outer, inner]);
    assert [outer, inner][1..] == [inner];
    if data.Obj? && outer in data.fields {
      FieldOfOne(data.fields[outer], inner);
    }
  }

  /** One step of get_field's loop. */
  lemma FieldOfStep(data: Json, keys: seq<string>)
    requires |keys| > 0
    ensures !data.Obj? ==> FieldOf(data, keys) == Err(TypeError)
    ensures data.Obj? && keys[0] !in data.fields ==> FieldOf(data, keys) == Ok(Null)
    ensures data.Obj? && keys[0] in data.fields ==> FieldOf(data, keys) == FieldOf(data.fields[keys[0]], keys[1..])
  {
  }

  /** get_field with a single key. */
  lemma FieldOfOne(data: Json, k: string)
    ensures FieldOf(data, [k]) == if data.Obj? then Ok(if k in data.fields then data.fields[k] else Null) else Err(TypeError)
  {
    FieldOfStep(data, [k]);
    assert [k][1..] == [];
  }

  /** `get_field(data, 'id')` for a dict record. */
  function IdOf(data: Json): (r: Result<Json>)
    ensures r.Ok? <==> data.Obj?
    ensures r.Ok? ==> r.value == (if "id" in data.fields then data.fields["id"] else Null)
  {
    FieldOfOne(data, "id");
    FieldOf(data, ["id"])
  }

  // ---------------------------------------------------------------------
  // Item

  /** A row of the `items` table. Columns hold the JSON values verbatim. */
  datatype Item = Item(itemId: Json, name: Json, level: Json, rarity: Json, itemType: Json, icon: Json)

  /** The keys `Item.create` reads, in the order it reads them. */
  const ItemKeys: seq<string> := ["id", "name", "level", "rarity", "type", "icon"]

  /** `Item.create`: a strict copy of six keys, raising KeyError on the
      first one that is absent. */
  function CreateItem(data: Json): (r: Result<Item>)
    ensures r.Ok? <==> data.Obj? && forall k :: k in ItemKeys ==> k in data.fields
    ensures r.Ok? ==> r.value == Item(data.fields["id"], data.fields["name"], data.fields["level"],
                                      data.fields["rarity"], data.fields["type"], data.fields["icon"])
    ensures r.Err? && !data.Obj? ==> r.error == TypeError
    ensures r.Err? && data.Obj? ==> r.error.KeyError? && r.error.key !in data.fields
    ensures r.Err? && data.Obj? ==>
              forall i :: 0 <= i < |ItemKeys| && ItemKeys[i] == r.error.key ==>
                forall j :: 0 <= j < i ==> ItemKeys[j] in data.fields
  {
    var id :- Index(data, "id");
    var name :- Index(data, "name");
    var level :- Index(data, "level");
    var rarity :- Index(data, "rarity");
    var itemType :- Index(data, "type");
    var icon :- Index(data, "icon");
    Ok(Item(id, name, level, rarity, itemType, icon))
  }

  // ---------------------------------------------------------------------
  // Category tables

  /** The nine category tables, with the class name that `typeof` compares
      against the record's `type`. */
  datatype Table = Armor | Bag | Consumable | GatheringTool | Gizmo | SalvageKit | Trinket | Upgrade | Weapon {
    function Name(): string {
      match this
      case Armor => "Armor"
      case Bag => "Bag"
      case Consumable => "Consumable"
      case GatheringTool => "GatheringTool"
      case Gizmo => "Gizmo"
      case SalvageKit => "SalvageKit"
      case Trinket => "Trinket"
      case Upgrade => "Upgrade"
      case Weapon => "Weapon"
    }
  }

  /** The list `tables` of update_items.py, in its order. */
  const Tables: seq<Table> := [Armor, Bag, Consumable, GatheringTool, Gizmo, SalvageKit, Trinket, Upgrade, Weapon]

  /** Every table appears once, and no two tables share a class name. */
  lemma TablesDistinct()
    ensures forall t: Table :: t in Tables
    ensures forall i, j :: 0 <= i < j < |Tables| ==> Tables[i].Name() != Tables[j].Name()
  {
    forall t: Table ensures t in Tables {
      assert t == Tables[0] || t == Tables[1] || t == Tables[2] || t == Tables[3] || t == Tables[4]
          || t == Tables[5] || t == Tables[6] || t == Tables[7] || t == Tables[8];
    }
  }

  /** A row of one of the category tables; `detailType` is the `type` column. */
  datatype Detail =
    | ArmorRow(itemId: Json, detailType: Json, defense: Json, weightClass: Json)
    | BagRow(itemId: Json, size: Json, isSafe: Json)
    | ConsumableRow(itemId: Json, detailType: Json, duration: Json)
    | GatheringToolRow(itemId: Json, detailType: Json)
    | GizmoRow(itemId: Json, detailType: Json)
    | SalvageKitRow(itemId: Json, detailType: Json, charges: Json)
    | TrinketRow(itemId: Json, detailType: Json)
    | UpgradeRow(itemId: Json, detailType: Json)
    | WeaponRow(itemId: Json, detailType: Json, minPower: Json, maxPower: Json, defense: Json, damageType: Json)
  {
    /** The table the row belongs to. */
    function Kind(): Table {
      match this
      case ArmorRow(_, _, _, _) => Armor
      case BagRow(_, _, _) => Bag
      case ConsumableRow(_, _, _) => Consumable
      case GatheringToolRow(_, _) => GatheringTool
      case GizmoRow(_, _) => Gizmo
      case SalvageKitRow(_, _, _) => SalvageKit
      case TrinketRow(_, _) => Trinket
      case UpgradeRow(_, _) => Upgrade
      case WeaponRow(_, _, _, _, _, _) => Weapon
    }
  }

  /** A record whose `details` can be searched: the category creators
      succeed on exactly these records. */
  predicate HasDetails(data: Json) { Nestable(data, "details") }

  /** `details.<field>` of the record, None when absent. */
  function DetailOf(data: Json, field: string): Json
    requires HasDetails(data)
  {
    ValueAt(data, "details", field)
  }

  /** The `item_id` every category row and listing takes from the record. */
  function RecordId(data: Json): Json
    requires data.Obj?
  {
    if "id" in data.fields then data.fields["id"] else Null
  }

  /** `Armor.create`. */
  function CreateArmor(data: Json): (r: Result<Detail>)
    ensures r.Ok? <==> HasDetails(data)
    ensures r.Ok? ==> r.value == ArmorRow(RecordId(data), DetailOf(data, "type"),
                                          DetailOf(data, "defense"), DetailOf(data, "weight_class"))
  {
    match (IdOf(data), Nested(data, "details", "type"), Nested(data, "details", "defense"), Nested(data, "details", "weight_class"))
    case (Ok(id), Ok(detailType), Ok(defense), Ok(weightClass)) => Ok(ArmorRow(id, detailType, defense, weightClass))
    case _ => Err(TypeError)
  }

  /** `Bag.create`: `is_safe` is read from `details.no_sell_or_sort`. */
  function CreateBag(data: Json): (r: Result<Detail>)
    ensures r.Ok? <==> HasDetails(data)
    ensures r.Ok? ==> r.value == BagRow(RecordId(data), DetailOf(data, "size"), DetailOf(data, "no_sell_or_sort"))
  {
    match (IdOf(data), Nested(data, "details", "size"), Nested(data, "details", "no_sell_or_sort"))
    case (Ok(id), Ok(size), Ok(isSafe)) => Ok(BagRow(id, size, isSafe))
    case _ => Err(TypeError)
  }

  /** `Consumable.create`: `duration` is read from `details.duration_ms`. */
  function CreateConsumable(data: Json): (r: Result<Detail>)
    ensures r.Ok? <==> HasDetails(data)
    ensures r.Ok? ==> r.value == ConsumableRow(RecordId(data), DetailOf(data, "type"), DetailOf(data, "duration_ms"))
  {
    match (IdOf(data), Nested(data, "details", "type"), Nested(data, "details", "duration_ms"))
    case (Ok(id), Ok(detailType), Ok(duration)) => Ok(ConsumableRow(id, detailType, duration))
    case _ => Err(TypeError)
  }

  /** `GatheringTool.create`. */
  function CreateGatheringTool(data: Json): (r: Result<Detail>)
    ensures r.Ok? <==> HasDetails(data)
    ensures r.Ok? ==> r.value == GatheringToolRow(RecordId(data), DetailOf(data, "type"))
  {
    match (IdOf(data), Nested(data, "details", "type"))
    case (Ok(id), Ok(detailType)) => Ok(GatheringToolRow(id, detailType))
    case _ => Err(TypeError)
  }

  /** `Gizmo.create`. */
  function CreateGizmo(data: Json): (r: Result<Detail>)
    ensures r.Ok? <==> HasDetails(data)
    ensures r.Ok? ==> r.value == GizmoRow(RecordId(data), DetailOf(data, "type"))
  {
    match (IdOf(data), Nested(data, "details", "type"))
    case (Ok(id), Ok(detailType)) => Ok(GizmoRow(id, detailType))
    case _ => Err(TypeError)
  }

  /** `SalvageKit.create`. */
  function CreateSalvageKit(data: Json): (r: Result<Detail>)
    ensures r.Ok? <==> HasDetails(data)
    ensures r.Ok? ==> r.value == SalvageKitRow(RecordId(data), DetailOf(data, "type"), DetailOf(data, "charges"))
  {
    match (IdOf(data), Nested(data, "details", "type"), Nested(data, "details", "charges"))
    case (Ok(id), Ok(detailType), Ok(charges)) => Ok(SalvageKitRow(id, detailType, charges))
    case _ => Err(TypeError)
  }

  /** `Trinket.create`. */
  function CreateTrinket(data: Json): (r: Result<Detail>)
    ensures r.Ok? <==> HasDetails(data)
    ensures r.Ok? ==> r.value == TrinketRow(RecordId(data), DetailOf(data, "type"))
  {
    match (IdOf(data), Nested(data, "details", "type"))
    case (Ok(id), Ok(detailType)) => Ok(TrinketRow(id, detailType))
    case _ => Err(TypeError)
  }

  /** `Upgrade.create`. */
  function CreateUpgrade(data: Json): (r: Result<Detail>)
    ensures r.Ok? <==> HasDetails(data)
    ensures r.Ok? ==> r.value == UpgradeRow(RecordId(data), DetailOf(data, "type"))
  {
    match (IdOf(data), Nested(data, "details", "type"))
    case (Ok(id), Ok(detailType)) => Ok(UpgradeRow(id, detailType))
    case _ => Err(TypeError)
  }

  /** `Weapon.create`. */
  function CreateWeapon(data: Json): (r: Result<Detail>)
    ensures r.Ok? <==> HasDetails(data)
    ensures r.Ok? ==> r.value == WeaponRow(RecordId(data), DetailOf(data, "type"),
                                           DetailOf(data, "min_power"), DetailOf(data, "max_power"),
                                           DetailOf(data, "defense"), DetailOf(data, "damage_type"))
  {
    match (IdOf(data), Nested(data, "details", "type"), Nested(data, "details", "min_power"), Nested(data, "details", "max_power"), Nested(data, "details", "defense"), Nested(data, "details", "damage_type"))
    case (Ok(id), Ok(detailType), Ok(minPower), Ok(maxPower), Ok(defense), Ok(damageType)) => Ok(WeaponRow(id, detailType, minPower, maxPower, defense, damageType))
    case _ => Err(TypeError)
  }

  /** `table.create(k)` for the table object held in `g_pre_insert`: the row
      it builds belongs to that table and is keyed by the record's id. */
  function CreateDetail(t: Table, data: Json): (r: Result<Detail>)
    ensures r.Ok? <==> HasDetails(data)
    ensures r.Ok? ==> r.value.Kind() == t && r.value.itemId == RecordId(data)
  {
    match t
    case Armor => CreateArmor(data)
    case Bag => CreateBag(data)
    case Consumable => CreateConsumable(data)
    case GatheringTool => CreateGatheringTool(data)
    case Gizmo => CreateGizmo(data)
    case SalvageKit => CreateSalvageKit(data)
    case Trinket => CreateTrinket(data)
    case Upgrade => CreateUpgrade(data)
    case Weapon => CreateWeapon(data)
  }

  // ---------------------------------------------------------------------
  // Listing

  /** A row of the `listings` table. The surrogate primary key is assigned
      by the store and is not part of the value; `lastUpdated` is an opaque
      clock reading. */
  datatype Listing = Listing(itemId: Json, demand: int, supply: int, bPrice: int, sPrice: int,
                             pMargin: Option<real>, surplus: int, lastUpdated: int)

  /** Optional sign, then one or more decimal digits. */
  predicate IsIntLiteral(s: string) {
    if |s| > 0 && (s[0] == '-' || s[0] == '+') then |s| > 1 && AllDigits(s[1..])
    else |s| > 0 && AllDigits(s)
  }

  function LiteralValue(s: string): int
    requires IsIntLiteral(s)
  {
    if s[0] == '-' then 0 - DecimalValue(s[1..])
    else if s[0] == '+' then DecimalValue(s[1..])
    else DecimalValue(s)
  }

  /** Python's `int(v)` on a decoded JSON value. */
  function PyInt(v: Json): (r: Result<int>)
    ensures v.Int? ==> r == Ok(v.i)
    ensures v.Bool? ==> r == Ok(if v.b then 1 else 0)
    ensures v.Null? || v.Arr? || v.Obj? ==> r == Err(TypeError)
    ensures v.Str? ==> (r.Ok? <==> IsIntLiteral(v.s))
  {
    match v
    case Int(i) => Ok(i)
    case Bool(b) => Ok(if b then 1 else 0)
    case Str(s) => if IsIntLiteral(s) then Ok(LiteralValue(s)) else Err(ValueError)
    case _ => Err(TypeError)
  }

  /** `int()` reads back what `str()` prints. */
  lemma PyIntOfDecimal(i: int)
    ensures PyInt(Str(IntToDecimal(i))) == Ok(i)
  {
    if i < 0 {
      assert IntToDecimal(i)[1..] == NatToDecimal(-i);
      DecimalRoundTrip(-i);
    } else {
      DecimalRoundTrip(i);
    }
  }

  /** `p_margin`: None when the sell price is zero, otherwise the fraction
      `(s_price - b_price) / s_price`, computed without any division by zero. */
  function Margin(bPrice: int, sPrice: int): (m: Option<real>)
    ensures m.None? <==> sPrice == 0
    ensures m.Some? ==> m.value * (sPrice as real) == (sPrice - bPrice) as real
  {
    if sPrice != 0 then Some(((sPrice as real) - (bPrice as real)) / (sPrice as real)) else None
  }

  /** The four numbers a listing needs, each `int(get_field(...))`. */
  predicate PricesReadable(data: Json) {
    && Nestable(data, "buys") && Nestable(data, "sells")
    && PyInt(ValueAt(data, "buys", "quantity")).Ok?
    && PyInt(ValueAt(data, "sells", "quantity")).Ok?
    && PyInt(ValueAt(data, "buys", "unit_price")).Ok?
    && PyInt(ValueAt(data, "sells", "unit_price")).Ok?
  }

  /** `Listing.create`, stamped with the clock reading `now`. */
  function CreateListing(data: Json, now: int): (r: Result<Listing>)
    ensures r.Ok? <==> PricesReadable(data)
    ensures r.Ok? ==> data.Obj? && r.value.itemId == RecordId(data)
    ensures r.Ok? ==> r.value.demand == PyInt(ValueAt(data, "buys", "quantity")).value
    ensures r.Ok? ==> r.value.supply == PyInt(ValueAt(data, "sells", "quantity")).value
    ensures r.Ok? ==> r.value.bPrice == PyInt(ValueAt(data, "buys", "unit_price")).value
    ensures r.Ok? ==> r.value.sPrice == PyInt(ValueAt(data, "sells", "unit_price")).value
    ensures r.Ok? ==> r.value.surplus == r.value.supply - r.value.demand
    ensures r.Ok? ==> r.value.pMargin == Margin(r.value.bPrice, r.value.sPrice)
    ensures r.Ok? ==> r.value.lastUpdated == now
  {
    // Evaluated in the order of the source; every lookup after the first
    // of each side cannot raise once that first one has succeeded.
    var dq := Nested(data, "buys", "quantity");
    if dq.Err? then Err(TypeError) else
    var demand := PyInt(dq.value);
    if demand.Err? then Err(demand.error) else
    var sq := Nested(data, "sells", "quantity");
    if sq.Err? then Err(TypeError) else
    var supply := PyInt(sq.value);
    if supply.Err? then Err(supply.error) else
    match (Nested(data, "buys", "unit_price"), Nested(data, "sells", "unit_price"), IdOf(data))
    case (Ok(bp), Ok(sp), Ok(id)) =>
      var bPrice := PyInt(bp);
      if bPrice.Err? then Err(bPrice.error) else
      var sPrice := PyInt(sp);
      if sPrice.Err? then Err(sPrice.error) else
      var surplus := supply.value - demand.value;
      var pMargin := if sPrice.value != 0
                     then Some(((sPrice.value as real) - (bPrice.value as real)) / (sPrice.value as real))
                     else None;
      Ok(Listing(id, demand.value, supply.value, bPrice.value, sPrice.value, pMargin, surplus, now))
    case _ => Err(TypeError)
  }

  /** A listing cannot be built when one of its four numbers is absent:
      `int(None)` raises. */
  lemma ListingNeedsAllPrices(data: Json, now: int, outer: string, inner: string)
    requires Nestable(data, outer)
    requires (outer, inner) in {("buys", "quantity"), ("sells", "quantity"), ("buys", "unit_price"), ("sells", "unit_price")}
    requires ValueAt(data, outer, inner) == Null
    ensures CreateListing(data, now).Err?
  {
  }

  /** A commerce record with both sides of the book: margin 0.5, surplus 10. */
  lemma ListingExample(now: int)
    ensures CreateListing(Obj(map["id" := Int(5),
                                  "buys" := Obj(map["quantity" := Int(10), "unit_price" := Int(50)]),
                                  "sells" := Obj(map["quantity" := Int(20), "unit_price" := Int(100)])]), now)
         == Ok(Listing(Int(5), 10, 20, 50, 100, Some(0.5), 10, now))
  {
  }
}
