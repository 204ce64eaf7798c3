/**
  Which map items and labels the map widget (`MapView` in main.py) draws,
  given the visibility checkboxes of the settings panel. The panel is a map
  from setting name to checked state; a name it does not know reads as
  checked. `None` stands for a widget created without a settings panel.
 */
module Visibility {
  import opened Wrappers

  type Settings = map<string, bool>

  /** `VisibilitySettings.get_visibility_state`: an unknown setting is visible. */
  function VisibilityState(settings: Settings, name: string): (visible: bool)
    ensures name !in settings ==> visible
    ensures name in settings ==> (visible <==> settings[name])
  {
    if name in settings then settings[name] else true
  }

  /** The checkboxes of the settings panel. */
  const PanelSettings: set<string> := {
    "town_bases", "safe_houses", "relic_bases", "observation_towers", "coastal_guns", "other",
    "industry", "storage", "components", "sulfur", "salvage", "coal-oil",
    "major_locations", "minor_locations"
  }

  /** The `IconType` values the dispatch compares against. */
  const Hospital := 11
  const VehicleFactory := 12
  const Refinery := 17
  const Shipyard := 18
  const TechCenter := 19
  const SalvageField := 20
  const ComponentField := 21
  const SulfurField := 23
  const ObservationTower := 28
  const SulfurMine := 32
  const StorageFacility := 33
  const Factory := 34
  const GarrisonStation := 35
  const SalvageMine := 38
  const ConstructionYard := 39
  const ComponentMine := 40
  const RelicBase1 := 45
  const RelicBase2 := 46
  const RelicBase3 := 47
  const MassProductionFactory := 51
  const Seaport := 52
  const CoastalGun := 53
  const TownBase1 := 56
  const TownBase2 := 57
  const TownBase3 := 58
  const CoalField := 61
  const OilField := 62
  const FacilityMineOilRig := 75
  const MortarHouse := 84

  /** The setting that decides an icon type, in the order of the dispatch; `None` for an uncategorised type. */
  function ItemSetting(iconType: int): (name: Option<string>)
    ensures name.Some? ==> name.value in PanelSettings
    ensures name.Some? ==> name.value != "major_locations" && name.value != "minor_locations"
  {
    if iconType in {TownBase1, TownBase2, TownBase3} then Some("town_bases")
    else if iconType == GarrisonStation then Some("safe_houses")
    else if iconType in {RelicBase1, RelicBase2, RelicBase3} then Some("relic_bases")
    else if iconType == ObservationTower then Some("observation_towers")
    else if iconType == CoastalGun then Some("coastal_guns")
    else if iconType == Hospital then Some("other")
    else if iconType in {Factory, MassProductionFactory, Refinery, ConstructionYard,
                         VehicleFactory, TechCenter, MortarHouse} then Some("industry")
    else if iconType in {Seaport, Shipyard, StorageFacility} then Some("storage")
    else if iconType in {ComponentMine, ComponentField} then Some("components")
    else if iconType in {SulfurMine, SulfurField} then Some("sulfur")
    else if iconType in {SalvageMine, SalvageField} then Some("salvage")
    else if iconType in {CoalField, OilField, FacilityMineOilRig} then Some("coal-oil")
    else None
  }

  /**
    `MapView.should_draw_item`: without a settings panel everything is
    drawn; otherwise a categorised icon follows its one setting and an
    uncategorised icon is drawn.
   */
  function ShouldDrawItem(settings: Option<Settings>, iconType: int): (draw: bool)
    ensures settings.None? ==> draw
    ensures ItemSetting(iconType).None? ==> draw
    ensures settings.Some? && ItemSetting(iconType).Some? ==>
              (draw <==> VisibilityState(settings.value, ItemSetting(iconType).value))
  {
    match settings
    case None => true
    case Some(s) =>
      match ItemSetting(iconType)
      case Some(name) => VisibilityState(s, name)
      case None => true
  }

  /** `MapView.should_draw_text`: major labels follow `major_locations`, every other label `minor_locations`. */
  function ShouldDrawText(settings: Option<Settings>, markerType: string): (draw: bool)
    ensures settings.None? ==> draw
    ensures settings.Some? && markerType == "Major" ==> (draw <==> VisibilityState(settings.value, "major_locations"))
    ensures settings.Some? && markerType != "Major" ==> (draw <==> VisibilityState(settings.value, "minor_locations"))
  {
    match settings
    case None => true
    case Some(s) => if markerType == "Major" then VisibilityState(s, "major_locations")
                    else VisibilityState(s, "minor_locations")
  }

  /**
    Each icon consults exactly one setting: two panels that agree on that
    setting agree on the icon, whatever the other checkboxes say; and the
    label settings never affect an icon.
   */
  lemma ItemDependsOnOneSetting(s1: Settings, s2: Settings, iconType: int)
    requires ItemSetting(iconType).Some? ==>
               VisibilityState(s1, ItemSetting(iconType).value) == VisibilityState(s2, ItemSetting(iconType).value)
    ensures ShouldDrawItem(Some(s1), iconType) == ShouldDrawItem(Some(s2), iconType)
    ensures ShouldDrawItem(Some(s1), iconType) ==
              ShouldDrawItem(Some(s1["major_locations" := false]["minor_locations" := false]), iconType)
  {
  }

  /** Unchecking a setting hides exactly the icons that consult it. */
  lemma UncheckingHidesItsIcons(s: Settings, name: string, iconType: int)
    ensures !ShouldDrawItem(Some(s[name := false]), iconType) <==>
              (ItemSetting(iconType) == Some(name) ||
               (ItemSetting(iconType).Some? && !VisibilityState(s, ItemSetting(iconType).value)))
  {
  }

  /** With every checkbox checked, or with an empty panel, everything is drawn. */
  lemma AllCheckedDrawsEverything(s: Settings, iconType: int, markerType: string)
    requires forall name :: name in s ==> s[name]
    ensures ShouldDrawItem(Some(s), iconType) && ShouldDrawText(Some(s), markerType)
  {
  }
}
