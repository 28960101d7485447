# DynamicBatteryStorage: a Dafny model of the vessel data and the thermal view

DynamicBatteryStorage is a Kerbal Space Program mod. It watches the part
modules of a vessel, binds a power handler to every module it supports, sums
what those handlers report, and shows the vessel's heat balance in a window.
This project models the logic behind that and proves what it promises:

- **Power handler types** (`power_handler_types.dfy`, module `PowerHandlerTypes`).
  This is the closed enumeration of the eleven supported module kinds. It
  provides their ordinals and names, and parses a module name into a member.
- **Handlers** (`data_handlers.dfy`, module `DataHandlers`).
  - A part module is a name and its named text fields.
  - A handler object is bound to one module. Its class is an `Implementation`:
    what `Initialize` accepts and what the polled properties return.
  - Handlers are compared by reference, as the view's set difference compares
    them.
- **RealBattery handler** (`real_battery_handlers.dfy`, module `RealBatteryHandlers`).
  `GetPower` reads the `lastECpower` field, parsing it or falling back to zero.
- **Vessel electrical data** (`vessel_electrical_data.dfy`, module `ElectricalData`).
  - Handler dispatch (`SetupDataHandler`): parse the module name, build the
    handler class name, instantiate that class through a possibly failing
    factory, and append the handler if it accepts the module.
  - The diagnostic dump (`ToString`).
  - The editor's simulated production (`GetSimulatedElectricalProdution`). It is
    a loop proved equal to a recursive sum, and that sum's properties are lemmas.
- **Thermal view** (`ui_thermal_view.dfy`, module `ThermalView`).
  - The header classification of the net heat flux.
  - The detail panel's cache of the handler list. It is rebuilt exactly when
    the set of handlers changes, and is otherwise refreshed category by
    category.
  - The constructor's one collapsed item per category.

C# `null` is `None` of an `Option`. An exception the modelled code can raise is,
except in the cases listed under "## Left out", the `Failure` case of a `Result`: a null dereference is `NullReference`, and a
class that reflection cannot find is `TypeNotFound`. Doubles and floats are
`real`.

## Model

| member | source | states |
|---|---|---|
| PowerHandlerTypes.Ordinal | Source/DynamicBatteryStorage/PowerHandlerTypes.cs:11-28 | every member has an ordinal below 11, at which the declaration list holds that member |
| PowerHandlerTypes.DeclarationOrder | Source/DynamicBatteryStorage/PowerHandlerTypes.cs:11-28 | the enum has exactly 11 members, and the member at each position 0..10 has that position as its ordinal |
| PowerHandlerTypes.NamesDistinct | Source/DynamicBatteryStorage/PowerHandlerTypes.cs:11-28 | distinct members have distinct names, so parsing by name is deterministic |
| PowerHandlerTypes.Parse | Source/DynamicBatteryStorage/PowerHandlerTypes.cs:10-28 | a parsed member's name is the parsed text, and no member has that name when parsing fails |
| PowerHandlerTypes.ParseName | Source/DynamicBatteryStorage/PowerHandlerTypes.cs:10-28 | each member's name parses back to that member |
| PowerHandlerTypes.UnknownNameDoesNotParse | Source/DynamicBatteryStorage/PowerHandlerTypes.cs:11-28 | "FooBar" is no member's name and does not parse |
| RealBatteryHandlers.GetPower | Source/DynamicBatteryStorage/Handlers/RealBatteryPowerHandlers.cs:8-13 | a missing `lastECpower` field is a null dereference; otherwise the result is the parsed field value, unchanged, or 0 when the text does not parse |
| RealBatteryHandlers.MalformedReadsAsIdle | Source/DynamicBatteryStorage/Handlers/RealBatteryPowerHandlers.cs:10-12 | unparsable field text gives power 0, which does not count as charging |
| ElectricalData.HandlerTypeNameInjective | Source/DynamicBatteryStorage/Data/VesselElectricalData.cs:29 | distinct module names build distinct handler class names |
| ElectricalData.RealBatteryTypeName | Source/DynamicBatteryStorage/Data/VesselElectricalData.cs:29 | the class name built for RealBattery is `DynamicBatteryStorage.RealBatteryPowerHandler`, not the name of the RealBattery handler class |
| ElectricalData.Resolve | Source/DynamicBatteryStorage/Data/VesselElectricalData.cs:27-36 | the module is unsupported exactly when its name does not parse; otherwise the class name is the namespace, the module name and "PowerHandler"; the class is missing exactly when the factory has none; a resolved handler's Initialize accepted the module, a declined one's did not |
| ElectricalData.FooBarIsUnsupported | Source/DynamicBatteryStorage/Data/VesselElectricalData.cs:27 | a module named "FooBar" is unsupported, whatever the factory |
| ElectricalData.RealBatteryModuleFindsNoClass | Source/DynamicBatteryStorage/Data/VesselElectricalData.cs:29-34 | when no class is named as line 29 builds it, a RealBattery module ends in a missing type |
| ElectricalData.VesselElectricalData.SetupDataHandler | Source/DynamicBatteryStorage/Data/VesselElectricalData.cs:24-38 | an unsupported or declined module leaves the handlers unchanged; a missing class raises TypeNotFound; otherwise exactly one fresh handler bound to the module is appended and every existing entry is kept, or NullReference is raised for a null list |
| ElectricalData.VesselElectricalData.ToString | Source/DynamicBatteryStorage/Data/VesselElectricalData.cs:43-55 | "No Power Handlers" for a null list, otherwise the handlers' descriptions in list order joined by "\n" |
| ElectricalData.SplitJoin | Source/DynamicBatteryStorage/Data/VesselElectricalData.cs:52 | splitting the dump at "\n" gives back the descriptions when there is at least one and none contains a newline |
| ElectricalData.EmptyListDumpsLikeEmptyDescription | Source/DynamicBatteryStorage/Data/VesselElectricalData.cs:52 | an empty list dumps as the empty string, the same as one handler with an empty description |
| ElectricalData.Contribution | Source/DynamicBatteryStorage/Data/VesselElectricalData.cs:79-87 | one handler adds a non-negative amount, and adds something only when it is simulated |
| ElectricalData.VesselElectricalData.GetSimulatedElectricalProdution | Source/DynamicBatteryStorage/Data/VesselElectricalData.cs:70-97 | outside the editor, the host's current production; in the editor, the sum of the handlers' contributions in list order (never negative), or NullReference for a null list |
| ElectricalData.ProductionNonNegative | Source/DynamicBatteryStorage/Data/VesselElectricalData.cs:86-87 | the simulated production is never negative |
| ElectricalData.OnlySimulatedHandlersCount | Source/DynamicBatteryStorage/Data/VesselElectricalData.cs:79 | dropping the handlers that are not simulated leaves the simulated production unchanged |
| ElectricalData.ProductionIsLinearInScalar | Source/DynamicBatteryStorage/Data/VesselElectricalData.cs:81-87 | for a non-negative scalar, the production is the scalar times the sun-affected handlers' positive values, plus the other handlers' positive values |
| ElectricalData.ScalarChangesOnlySunShare | Source/DynamicBatteryStorage/Data/VesselElectricalData.cs:81-85 | changing a non-negative scalar changes the production by the change in the scalar times the sun-affected positive values; the unscaled handlers' part stays fixed |
| ElectricalData.NegativeSolarValueIsNotProduction | Source/DynamicBatteryStorage/Data/VesselElectricalData.cs:86-87 | a simulated sun-affected -10 beside an unsimulated 4 gives 0 at scalar 0.5, not -5 |
| ElectricalData.ChargingBatteryCountsAsProduction | Source/DynamicBatteryStorage/Data/VesselElectricalData.cs:86-87 | assuming a RealBattery handler's `GetValue` returns `GetPower`'s value and its `AffectedBySunDistance` is false (see "## Left out"): a simulated RealBattery handler whose battery is charging (by that handler's convention, consuming) adds its power to production |
| ThermalView.HeaderFor | Source/DynamicBatteryStorage/UI/UIThermalView.cs:114-141 | net heat is consumption + production + user generation - user consumption. The vessel overheats exactly when net heat is positive, and the status is OK exactly when it does not. The flux shows abs(net) with ▲ exactly when net heat is positive, ▼ exactly when it is negative, and no arrow exactly when it is zero. The totals are ▼ abs(consumption - user consumption) and ▲ abs(production + user generation) |
| ThermalView.ConsumingTheSurplusBalances | Source/DynamicBatteryStorage/UI/UIThermalView.cs:114-134 | adding an overheating vessel's surplus to the user consumption ends the overheating, shows an OK status, and shows a zero flux with no arrow |
| ThermalView.UIThermalView.UpdateHeaderPanelData | Source/DynamicBatteryStorage/UI/UIThermalView.cs:111-143 | the header fields become those of the header for the snapshot; the status is the "not OK" text exactly when overheating, when the two texts differ |
| ThermalView.Except | Source/DynamicBatteryStorage/UI/UIThermalView.cs:156-157 | the result holds exactly the elements of the first list that are not in the second, each once |
| ThermalView.DifferExactlyWhenSetsDiffer | Source/DynamicBatteryStorage/UI/UIThermalView.cs:156-158 | one of the two differences is non-empty exactly when the two lists hold different sets of handlers |
| ThermalView.Tick | Source/DynamicBatteryStorage/UI/UIThermalView.cs:151-175 | an update rebuilds exactly when there was no cached list or the handler sets differ; otherwise it refreshes and keeps the cache. With no cached list it also refreshes. Afterwards the cache holds the current set of handlers |
| ThermalView.SettledAfterOneUpdate | Source/DynamicBatteryStorage/UI/UIThermalView.cs:152-165 | right after an update, an update with the same handlers rebuilds nothing and refreshes |
| ThermalView.SameHandlersInAnyOrderIsNoChange | Source/DynamicBatteryStorage/UI/UIThermalView.cs:156-158 | reordering or repeating the cached handlers does not cause a rebuild |
| ThermalView.AddedOrRemovedHandlerRebuilds | Source/DynamicBatteryStorage/UI/UIThermalView.cs:156-165 | adding a new handler to the list, or removing one, causes a rebuild |
| ThermalView.UIThermalView.RebuildCachedList | Source/DynamicBatteryStorage/UI/UIThermalView.cs:152-153 | the cache becomes the given list and one more rebuild is counted |
| ThermalView.UIThermalView.RefreshCategory | Source/DynamicBatteryStorage/UI/UIThermalView.cs:171-172 | the category's producer and consumer item each get one refresh at scale 1, and no other item changes |
| ThermalView.RefreshesCountOccurrences | Source/DynamicBatteryStorage/UI/UIThermalView.cs:169-173 | refreshing every category name in turn refreshes an item once for each time its category is named |
| ThermalView.RefreshesAtScaleOne | Source/DynamicBatteryStorage/UI/UIThermalView.cs:171-172 | every such refresh is at scale 1 |
| ThermalView.UIThermalView.RefreshCategoryItems | Source/DynamicBatteryStorage/UI/UIThermalView.cs:169-173 | every item gets one refresh at scale 1 for each time its category appears in the category names, and nothing else changes |
| ThermalView.UIThermalView.UpdateDetailPanelData | Source/DynamicBatteryStorage/UI/UIThermalView.cs:149-175 | the cache, the rebuild count and the items' refreshes become as the update step prescribes; no item is shown or hidden |
| ThermalView.UIThermalView.Update | Source/DynamicBatteryStorage/UI/UIThermalView.cs:98-106 | with `base.Update()` taken to change nothing (see "## Left out"): without thermal data nothing else changes; otherwise the header is updated and then the detail panel, from the same snapshot |
| ThermalView.CreateCategoryItems | Source/DynamicBatteryStorage/UI/UIThermalView.cs:27-36 | one new, collapsed, distinct item per category key, named after it and holding its handlers |
| ThermalView.UIThermalView.constructor | Source/DynamicBatteryStorage/UI/UIThermalView.cs:25-39 | one new collapsed item per producer category and one per consumer category, no item shared, no cached list and no rebuild yet |

## Left out

- `GetElectricalChargeLevels` (VesselElectricalData.cs:57-68) is left out because it is a query of the game's resource totals.
- Drawing, localisation, window sizing and style lookups are left out (UIThermalView.cs:44-93). So are the `{0:F2}` number text and the colour markup. The model keeps each label's arrow and magnitude.
- ThermalView.UIThermalView.constructor: its status strings are the field initialisers at UIThermalView.cs:20-21. In the source, `Localize` runs on creation (line 42) and overwrites both (lines 50-51), so the values the constructor states do not survive construction there.
- Debug logging is left out; it has no effect on state.
- Reflection is the factory parameter `create`. It maps a class name to the class's behaviour, or to nothing when no such class exists. Which classes exist is not part of this model: the RealBattery handler file declares `RealBatteryHandler`, not the `RealBatteryPowerHandler` that dispatch builds, so the lookup is not assumed total.
- The polled handler values are not sampled from a running game. They are fixed per handler object (`Implementation`), so one pass of the loop sees one value per handler.
- The base classes are not shown.
  - The vessel data's construction and its `CurrentProduction` are constructor parameters.
  - The view's category maps and names are constructor parameters.
  - `RebuildCachedList` keeps only the cache and the rebuild count. How it regroups handlers into categories is not part of this model. The cache is assumed to be a copy of the handler list, not a reference to it. If the base view kept a reference, an in-place `Add` to the thermal data's handler list (the counterpart of VesselElectricalData.cs:36 for thermal data, which is not part of this model) would change the cache too, and the diff at UIThermalView.cs:158 would never see the new handler.
  - `UIExpandableItem.Update` only records its scale factor.
- `Utils.TryParseEnum` is modelled as an exact, case-sensitive name match. The model does not capture whether it ignores case, or whether it accepts numeric text as .NET's enum parsing does.
- `double.TryParse` is the parameter `tryParse`. It maps text to a number or to nothing.
- Floating-point rounding and the float-to-double widening of `solarScalar` are not modelled; every quantity is a `real`.
- ThermalView.UIThermalView.RefreshCategory requires the category name to have both a producer and a consumer item. In the source, a missing one raises KeyNotFoundException at UIThermalView.cs:171-172, which the model does not capture.
- ThermalView.UIThermalView.RefreshCategoryItems requires `Valid()`: every category name has a producer and a consumer item. In the source, a missing item raises KeyNotFoundException at UIThermalView.cs:171-172, which the model does not capture.
- ThermalView.UIThermalView.UpdateDetailPanelData requires `Valid()`, so the KeyNotFoundException its refresh can raise (UIThermalView.cs:171-172) is not captured.
- ThermalView.UIThermalView.UpdateDetailPanelData takes the thermal data's `AllHandlers` list to be non-null. In the source, a null list makes `Except` at UIThermalView.cs:156 throw ArgumentNullException on every update, which the model does not capture.
- ThermalView.UIThermalView.Update requires `Valid()` and takes `AllHandlers` to be non-null, for the reasons given for `UpdateDetailPanelData`.
- ThermalView.UIThermalView.constructor requires every category name to have a producer and a consumer item (`Valid`). The source constructor (UIThermalView.cs:25-39) does not demand this; there, a missing item raises an exception only when the detail panel is refreshed.
- ElectricalData.ProductionIsLinearInScalar and ElectricalData.ScalarChangesOnlySunShare require a non-negative solar scalar. For a negative scalar, the sign filter drops the scaled sun-affected values, and the production is not linear in the scalar.
- ElectricalData.NegativeSolarValueIsNotProduction: VesselElectricalData.cs:86 counts only strictly positive post-scaling values, so a simulated sun-affected -10 at scalar 0.5 adds nothing; the result is 0, not -5.
- ThermalView.UIThermalView.Update: the `base.Update()` call at UIThermalView.cs:100 runs on every update, with or without thermal data. The base view is not part of this model, and the model treats that call as changing nothing. The base view may in fact write fields the model holds: the cached handlers, the category names and item maps, the user generation and consumption, and the totals.
- RealBatteryHandlers.GetPower: assumes that the host's `Fields.GetValue` returns null for a field the module does not have. That API is not part of this model, so a missing `lastECpower` field is modelled as a null dereference in the `ToString` call.
- DataHandlers.Implementation: a handler's `Initialize`, `GetValue`, `AffectedBySunDistance` and `ToString` are taken never to raise, and the `(ModuleDataHandler)` cast at VesselElectricalData.cs:34 is taken to succeed. So a RealBattery handler missing `lastECpower`, whose `GetPower` raises, is not modelled as aborting `GetSimulatedElectricalProdution` (line 81), `ToString` (line 50) or dispatch (line 35).
- ElectricalData.ChargingBatteryCountsAsProduction: `PowerHandler.GetValue` and RealBattery's `AffectedBySunDistance` are not part of this model. The lemma assumes the handler's value is `GetPower`'s result and that it is not affected by sun distance; no `Implementation` in the model ties the two together.
- Floats are `real`, so ElectricalData.VesselElectricalData.GetSimulatedElectricalProdution does not capture overflow to infinity or NaN from a handler value.
