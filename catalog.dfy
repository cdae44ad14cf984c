/**
 * The fixed appliance catalog and the name-to-icon table of the energy cost
 * calculator. Both are constant data; the only behaviour here is the icon
 * lookup with its fallback glyph.
 */
module Catalog {

  /** One catalog entry: rated power in kW and minutes of use per day. */
  datatype Appliance = Appliance(name: string, powerKw: real, frequency: string, minutes: real)

  /** The catalog, in display order. */
  const ApplianceData: seq<Appliance> := [
    Appliance("Oven", 2.50, "Daily", 30.0),
    Appliance("Kettle", 3.00, "Multiple times daily", 5.0),
    Appliance("Fridge", 0.2, "Continuous", 1440.0),
    Appliance("Electric shower", 9.0, "Daily", 10.0),
    Appliance("Tumble Dryer", 2.5, "Daily", 30.0),
    Appliance("Electric heater", 2.5, "Daily", 60.0),
    Appliance("Washing machine", 2.1, "Daily", 60.0),
    Appliance("Oil-filled radiator", 2.0, "Daily", 60.0),
    Appliance("Hairdryer", 2.0, "Daily", 5.0),
    Appliance("Hob", 2.0, "Daily", 15.0),
    Appliance("Grill", 1.5, "Daily", 15.0),
    Appliance("Iron", 1.5, "Daily", 30.0),
    Appliance("Toaster", 1.0, "Daily", 5.0),
    Appliance("Microwave", 1.0, "Daily", 10.0),
    Appliance("Microwave (low power)", 0.8, "Daily", 10.0),
    Appliance("Electric mower", 1.0, "Daily", 30.0),
    Appliance("Vacuum cleaner", 0.9, "Daily", 30.0),
    Appliance("Dehumidifier", 0.5, "Daily", 30.0),
    Appliance("Towel rail", 0.45, "Daily", 30.0),
    Appliance("LCD TV", 0.12, "Daily", 60.0),
    Appliance("Fridge-freezer", 0.3, "Continuous", 1440.0),
    Appliance("Desktop computer", 0.14, "Daily", 360.0),
    Appliance("Games console", 0.12, "Daily", 240.0),
    Appliance("Laptop", 0.05, "Daily", 240.0),
    Appliance("TV box", 0.04, "Daily", 240.0),
    Appliance("Extractor fan", 0.02, "Daily", 30.0),
    Appliance("Broadband router", 0.01, "Continuous", 1440.0)
  ]

  /** Display glyph per appliance name (emoji, written as code points). */
  const ApplianceIcons: map<string, string> := map[
    "Oven" := "\U{1F525}",
    "Kettle" := "\U{2615}",
    "Fridge" := "\U{2744}\U{FE0F}",
    "Electric shower" := "\U{1F6BF}",
    "Tumble Dryer" := "\U{1F32A}\U{FE0F}",
    "Electric heater" := "\U{2668}\U{FE0F}",
    "Washing machine" := "\U{1F300}",
    "Oil-filled radiator" := "\U{1F525}",
    "Hairdryer" := "\U{1F487}",
    "Hob" := "\U{1F373}",
    "Grill" := "\U{1F356}",
    "Iron" := "\U{1F9FA}",
    "Toaster" := "\U{1F35E}",
    "Microwave" := "\U{1F50C}",
    "Microwave (low power)" := "\U{1F50C}",
    "Electric mower" := "\U{1F331}",
    "Vacuum cleaner" := "\U{1F9F9}",
    "Dehumidifier" := "\U{1F4A7}",
    "Towel rail" := "\U{1F6BF}",
    "LCD TV" := "\U{1F4FA}",
    "Fridge-freezer" := "\U{2744}\U{FE0F}",
    "Desktop computer" := "\U{1F4BB}",
    "Games console" := "\U{1F3AE}",
    "Laptop" := "\U{1F4BB}",
    "TV box" := "\U{1F4FA}",
    "Extractor fan" := "\U{1F4A8}",
    "Broadband router" := "\U{1F310}"
  ]

  /** The glyph shown for a name the icon table does not know. */
  const FallbackIcon: string := "\U{2753}"

  /** The appliances pre-selected in the summary picker. */
  const DefaultSelection: seq<string> :=
    ["Oven", "Hob", "Toaster", "Kettle", "Fridge-freezer", "Washing machine", "Hairdryer"]

  /** Names of a catalog, in order. */
  function Names(data: seq<Appliance>): (names: seq<string>)
    ensures |names| == |data|
    ensures forall i :: 0 <= i < |data| ==> names[i] == data[i].name
  {
    seq(|data|, i requires 0 <= i < |data| => data[i].name)
  }

  /** `APPLIANCE_ICONS.get(name, fallback)`: total, never empty. */
  function IconFor(name: string): (glyph: string)
    ensures name in ApplianceIcons ==> glyph == ApplianceIcons[name]
    ensures name !in ApplianceIcons ==> glyph == FallbackIcon
    ensures |glyph| > 0
  {
    if name in ApplianceIcons then ApplianceIcons[name] else FallbackIcon
  }

  /** A mapped glyph is never the fallback, so a hit and a miss can be told apart. */
  lemma MappedIconIsNotFallback(name: string)
    requires name in ApplianceIcons
    ensures IconFor(name) != FallbackIcon
  {
  }

  /** The catalog and the icon table are in sync: no catalog entry falls back. */
  lemma EveryCatalogNameHasIcon()
    ensures forall i :: 0 <= i < |ApplianceData| ==> ApplianceData[i].name in ApplianceIcons
  {
    forall i | 0 <= i < |ApplianceData|
      ensures ApplianceData[i].name in ApplianceIcons
    {
      var k := ApplianceData[i].name;
      assert k in ApplianceIcons;
    }
  }

  /** Every rated power and usage time in the catalog is positive. */
  lemma CatalogQuantitiesPositive()
    ensures |ApplianceData| == 27
    ensures forall i :: 0 <= i < |ApplianceData| ==> ApplianceData[i].powerKw > 0.0 && ApplianceData[i].minutes > 0.0
  {
  }

  /** The picker's default selection only names catalog appliances. */
  lemma DefaultSelectionInCatalog()
    ensures forall j :: 0 <= j < |DefaultSelection| ==> DefaultSelection[j] in Names(ApplianceData)
  {
    var names := Names(ApplianceData);
    forall j | 0 <= j < |DefaultSelection| ensures DefaultSelection[j] in names {
      var at := [0, 9, 12, 1, 20, 6, 8];
      assert names[at[j]] == ApplianceData[at[j]].name == DefaultSelection[j];
    }
  }

  /** The kettle's glyph is the hot beverage. */
  lemma KettleIcon()
    ensures IconFor("Kettle") == "\U{2615}"
  {
  }

  /** The kettle is entry 1: 3 kW for 5 minutes a day, and no other entry shares its name. */
  lemma KettleEntry()
    ensures |ApplianceData| == 27
    ensures ApplianceData[1].name == "Kettle" && ApplianceData[1].powerKw == 3.0 && ApplianceData[1].minutes == 5.0
    ensures forall i :: 0 <= i < |ApplianceData| && i != 1 ==> ApplianceData[i].name != ApplianceData[1].name
  {
    forall i | 0 <= i < |ApplianceData| && i != 1
      ensures ApplianceData[i].name != ApplianceData[1].name
    {
      assert ApplianceData[i].name[0] != 'K' || |ApplianceData[i].name| != 6;
    }
  }
}
