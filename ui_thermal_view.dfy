/**
 * The thermal view of the battery-storage window: the header panel that
 * classifies the vessel's net heat flux, and the detail panel's cache of the
 * handler list, rebuilt only when the set of handlers changes and otherwise
 * refreshed in place category by category.
 */
module ThermalView {
  import opened Wrappers
  import opened DataHandlers

  // ---------------------------------------------------------------------------
  // Header panel

  /** The arrow in front of a flux: ▲ for a gain, ▼ for a loss. */
  datatype Arrow = NoArrow | Up | Down

  /**
   * A flux label as the panel shows it, without the number formatting and the
   * colour markup: an arrow and a magnitude. `Blank` is the empty label a view
   * starts with.
   */
  datatype FluxLabel = Blank | Flux(arrow: Arrow, magnitude: real)

  function Abs(x: real): (a: real)
    ensures a >= 0.0 && (a == x || a == -x)
  {
    if x < 0.0 then -x else x
  }

  /** The vessel's thermal totals the view reads from its host on each update. */
  datatype ThermalSnapshot = ThermalSnapshot(
    currentConsumption: real,
    currentProduction: real,
    allHandlers: seq<ModuleDataHandler>)

  /** What the header panel derives from one snapshot. */
  datatype Header = Header(
    overheating: bool,
    netHeatFlux: FluxLabel,
    heatOk: bool,
    totalConsumption: FluxLabel,
    totalProduction: FluxLabel)

  /** Net heat: the host's consumption and production plus the user's generation, less the user's consumption. */
  function NetHeat(data: ThermalSnapshot, userGeneration: real, userConsumption: real): real
  {
    data.currentConsumption + data.currentProduction + userGeneration - userConsumption
  }

  /**
   * The header for a snapshot: the vessel overheats exactly when the net heat
   * is positive, and the status is OK otherwise; the flux shows the net heat's
   * magnitude, with ▲ when it is positive, ▼ when it is negative and no arrow
   * when it is zero.
   */
  function HeaderFor(data: ThermalSnapshot, userGeneration: real, userConsumption: real): (h: Header)
    ensures var net := data.currentConsumption + data.currentProduction + userGeneration - userConsumption;
            && (h.overheating <==> net > 0.0)
            && (h.heatOk <==> !h.overheating)
            && h.netHeatFlux.Flux?
            && h.netHeatFlux.magnitude >= 0.0
            && (h.netHeatFlux.magnitude == net || h.netHeatFlux.magnitude == -net)
            && (h.netHeatFlux.arrow == Up <==> net > 0.0)
            && (h.netHeatFlux.arrow == Down <==> net < 0.0)
            && (h.netHeatFlux.arrow == NoArrow <==> net == 0.0)
    ensures h.totalConsumption == Flux(Down, Abs(data.currentConsumption - userConsumption))
    ensures h.totalProduction == Flux(Up, Abs(data.currentProduction + userGeneration))
  {
    var net := NetHeat(data, userGeneration, userConsumption);
    var overheating := net > 0.0;
    var arrow := if net == 0.0 then NoArrow else if net > 0.0 then Up else Down;
    Header(overheating, Flux(arrow, Abs(net)), !overheating,
           Flux(Down, Abs(data.currentConsumption - userConsumption)),
           Flux(Up, Abs(data.currentProduction + userGeneration)))
  }

  /**
   * Consuming exactly the surplus of an overheating vessel balances it: the
   * vessel is no longer overheating, the status is OK and the flux shows no
   * arrow and zero; the totals shown do not depend on the net heat.
   */
  lemma ConsumingTheSurplusBalances(data: ThermalSnapshot, userGeneration: real, userConsumption: real)
    requires HeaderFor(data, userGeneration, userConsumption).overheating
    ensures var surplus := NetHeat(data, userGeneration, userConsumption);
            var h := HeaderFor(data, userGeneration, userConsumption + surplus);
            && surplus > 0.0
            && !h.overheating && h.heatOk
            && h.netHeatFlux == Flux(NoArrow, 0.0)
            && h.totalProduction == HeaderFor(data, userGeneration, userConsumption).totalProduction
  {
  }

  // ---------------------------------------------------------------------------
  // Detail panel: the handler-list cache

  ghost predicate NoDuplicates<T>(s: seq<T>)
  {
    forall i, j :: 0 <= i < j < |s| ==> s[i] != s[j]
  }

  /**
   * The elements of `first` not in `second` and not already in `found`, after
   * `found`, each once, in order of first appearance.
   */
  function ExceptAfter<T(==)>(first: seq<T>, second: seq<T>, found: seq<T>): (r: seq<T>)
    ensures forall x :: x in r ==> x in found || (x in first && x !in second)
    ensures forall x :: x in found ==> x in r
    ensures forall x :: x in first && x !in second ==> x in r
    ensures NoDuplicates(found) ==> NoDuplicates(r)
    decreases |first|
  {
    if first == [] then found
    else if first[0] in second || first[0] in found then ExceptAfter(first[1..], second, found)
    else ExceptAfter(first[1..], second, found + [first[0]])
  }

  /**
   * LINQ's Except: the distinct elements of `first` that are not in `second`,
   * compared by equality (for handlers, by reference).
   */
  function Except<T(==)>(first: seq<T>, second: seq<T>): (r: seq<T>)
    ensures forall x :: x in r ==> x in first && x !in second
    ensures forall x :: x in first && x !in second ==> x in r
    ensures NoDuplicates(r)
  {
    ExceptAfter(first, second, [])
  }

  /** The detail panel's test: something is in one list and not in the other. */
  predicate ListsDiffer<T(==)>(current: seq<T>, cached: seq<T>)
  {
    |Except(current, cached)| > 0 || |Except(cached, current)| > 0
  }

  /** The lists differ exactly when they hold different sets of elements. */
  lemma DifferExactlyWhenSetsDiffer<T>(current: seq<T>, cached: seq<T>)
    ensures ListsDiffer(current, cached) <==> (set x | x in current) != (set x | x in cached)
  {
    var a, b := set x | x in current, set x | x in cached;
    if |Except(current, cached)| > 0 {
      var x := Except(current, cached)[0];
      assert x in a && x !in b;
    } else if |Except(cached, current)| > 0 {
      var x := Except(cached, current)[0];
      assert x in b && x !in a;
    } else {
      forall x | x in a ensures x in b {
        assert x !in Except(current, cached);
      }
      forall x | x in b ensures x in a {
        assert x !in Except(cached, current);
      }
    }
  }

  /** What one update of the detail panel does to the cache. */
  datatype DetailTick<T> = DetailTick(cache: seq<T>, rebuilt: bool, refreshed: bool)

  /**
   * One update: with no cached list, the cache is first rebuilt from the
   * current list; then the cache is rebuilt when the current and cached lists
   * hold different handlers, and otherwise every category is refreshed. At
   * most one rebuild happens, exactly when there was no cache or the sets
   * differed, and afterwards the cache holds the current set of handlers.
   */
  function Tick<T(==)>(cached: Option<seq<T>>, current: seq<T>): (t: DetailTick<T>)
    ensures t.rebuilt <==> cached.None? || (set x | x in cached.value) != (set x | x in current)
    ensures t.refreshed <==> cached.None? || !t.rebuilt
    ensures t.rebuilt ==> t.cache == current
    ensures !t.rebuilt ==> cached == Some(t.cache)
    ensures (set x | x in t.cache) == (set x | x in current)
  {
    var snapshot := if cached.None? then current else cached.value;
    DifferExactlyWhenSetsDiffer(current, snapshot);
    var differ := ListsDiffer(current, snapshot);
    DetailTick(if differ then current else snapshot, cached.None? || differ, !differ)
  }

  /** Right after an update, another with the same handlers rebuilds nothing and refreshes. */
  lemma SettledAfterOneUpdate<T>(cached: Option<seq<T>>, current: seq<T>)
    ensures var next := Tick(Some(Tick(cached, current).cache), current);
            !next.rebuilt && next.refreshed
  {
  }

  /** Reordering or repeating handlers is not a change. */
  lemma SameHandlersInAnyOrderIsNoChange<T>(cached: seq<T>, current: seq<T>)
    requires forall x :: x in cached <==> x in current
    ensures !Tick(Some(cached), current).rebuilt
  {
    assert (set x | x in cached) == (set x | x in current);
  }

  /** A handler added to or removed from the list causes a rebuild. */
  lemma AddedOrRemovedHandlerRebuilds<T>(handlers: seq<T>, h: T)
    requires h !in handlers
    ensures Tick(Some(handlers), handlers + [h]).rebuilt
    ensures Tick(Some(handlers + [h]), handlers).rebuilt
  {
    assert h in (set x | x in handlers + [h]);
  }

  /**
   * The scale factors an item of category `k` receives when every name in
   * `names` is refreshed in turn at scale 1.
   */
  function Refreshes(names: seq<string>, k: string): seq<real>
  {
    if names == [] then []
    else Refreshes(names[..|names| - 1], k) + (if names[|names| - 1] == k then [1.0] else [])
  }

  /** An item is refreshed once for each time its category is named. */
  lemma {:induction false} RefreshesCountOccurrences(names: seq<string>, k: string)
    ensures |Refreshes(names, k)| == multiset(names)[k]
  {
    if names != [] {
      var init, last := names[..|names| - 1], names[|names| - 1];
      RefreshesCountOccurrences(init, k);
      assert names == init + [last];
      assert multiset(names)[k] == multiset(init)[k] + multiset{last}[k];
    }
  }

  /** Every refresh of the detail panel is at scale 1. */
  lemma {:induction false} RefreshesAtScaleOne(names: seq<string>, k: string)
    ensures forall i :: 0 <= i < |Refreshes(names, k)| ==> Refreshes(names, k)[i] == 1.0
  {
    if names != [] {
      RefreshesAtScaleOne(names[..|names| - 1], k);
    }
  }

  /** Refreshing one more name appends one scale factor for that name's items. */
  lemma OneMoreRefresh(earlier: seq<real>, names: seq<string>, i: nat, k: string)
    requires i < |names|
    ensures earlier + Refreshes(names[..i + 1], k)
            == earlier + Refreshes(names[..i], k) + (if k == names[i] then [1.0] else [])
  {
    assert names[..i + 1][..i] == names[..i];
  }

  // ---------------------------------------------------------------------------
  // The view

  /** One expandable category item of the detail panel. */
  class UIExpandableItem {
    const name: string
    const handlers: seq<ModuleDataHandler>
    var show: bool
    /** The scale factors of the refreshes applied so far, oldest first. */
    var updates: seq<real>

    constructor (name: string, handlers: seq<ModuleDataHandler>, show: bool)
      ensures this.name == name && this.handlers == handlers && this.show == show && updates == []
    {
      this.name := name;
      this.handlers := handlers;
      this.show := show;
      updates := [];
    }

    /** Re-reads the category's handlers at the given scale; nothing is restructured. */
    method Update(scale: real)
      modifies this`updates
      ensures updates == old(updates) + [scale]
    {
      updates := updates + [scale];
    }
  }

  /** One collapsed item per category, keyed by category name. */
  method CreateCategoryItems(cats: map<string, seq<ModuleDataHandler>>)
    returns (items: map<string, UIExpandableItem>)
    ensures items.Keys == cats.Keys
    ensures forall k :: k in items ==>
              fresh(items[k]) && items[k].name == k && items[k].handlers == cats[k] &&
              !items[k].show && items[k].updates == []
    ensures forall a, b :: a in items && b in items && a != b ==> items[a] != items[b]
  {
    items := map[];
    var keys := cats.Keys;
    while keys != {}
      invariant keys <= cats.Keys
      invariant items.Keys == cats.Keys - keys
      invariant forall k :: k in items ==>
                  fresh(items[k]) && items[k].name == k && items[k].handlers == cats[k] &&
                  !items[k].show && items[k].updates == []
      invariant forall a, b :: a in items && b in items && a != b ==> items[a] != items[b]
      decreases keys
    {
      var k :| k in keys;
      var item := new UIExpandableItem(k, cats[k], false);
      items := items[k := item];
      keys := keys - {k};
    }
  }

  class UIThermalView {
    var overheating: bool
    var netHeatFlux: FluxLabel
    var vesselHeatStatus: string
    var vesselHeatOk: string
    var vesselHeatNotOK: string
    var totalConsumption: FluxLabel
    var totalProduction: FluxLabel
    /** The heat the user adds and removes in the editor, set outside this model. */
    var userGeneration: real
    var userConsumption: real

    var categoryNames: seq<string>
    var producerCategoryUIItems: map<string, UIExpandableItem>
    var consumerCategoryUIItems: map<string, UIExpandableItem>
    /** The handler list the detail panel was last built from; None before the first build. */
    var cachedHandlers: Option<seq<ModuleDataHandler>>
    /** How many times the detail panel has been rebuilt. */
    var rebuilds: nat

    /**
     * Every category name has a producer and a consumer item, and no item
     * object serves two categories or both sides.
     */
    ghost predicate Valid()
      reads this
    {
      && (forall n :: n in categoryNames ==> n in producerCategoryUIItems && n in consumerCategoryUIItems)
      && (forall a, b :: a in producerCategoryUIItems && b in producerCategoryUIItems && a != b ==>
            producerCategoryUIItems[a] != producerCategoryUIItems[b])
      && (forall a, b :: a in consumerCategoryUIItems && b in consumerCategoryUIItems && a != b ==>
            consumerCategoryUIItems[a] != consumerCategoryUIItems[b])
      && (forall a, b :: a in producerCategoryUIItems && b in consumerCategoryUIItems ==>
            producerCategoryUIItems[a] != consumerCategoryUIItems[b])
    }

    ghost function Items(): set<UIExpandableItem>
      reads this
    {
      producerCategoryUIItems.Values + consumerCategoryUIItems.Values
    }

    /**
     * One collapsed item per producer category and one per consumer category.
     * The categories and their names come from the host view.
     */
    constructor (producerCats: map<string, seq<ModuleDataHandler>>,
                 consumerCats: map<string, seq<ModuleDataHandler>>,
                 categoryNames: seq<string>, userGeneration: real, userConsumption: real)
      requires forall n :: n in categoryNames ==> n in producerCats && n in consumerCats
      ensures Valid()
      ensures producerCategoryUIItems.Keys == producerCats.Keys
      ensures consumerCategoryUIItems.Keys == consumerCats.Keys
      ensures forall k :: k in producerCats ==>
                var item := producerCategoryUIItems[k];
                fresh(item) && item.name == k && item.handlers == producerCats[k] && !item.show && item.updates == []
      ensures forall k :: k in consumerCats ==>
                var item := consumerCategoryUIItems[k];
                fresh(item) && item.name == k && item.handlers == consumerCats[k] && !item.show && item.updates == []
      ensures this.categoryNames == categoryNames
      ensures this.userGeneration == userGeneration && this.userConsumption == userConsumption
      ensures !overheating && netHeatFlux == Blank && vesselHeatStatus == ""
      ensures vesselHeatOk == "Vessel heat dissipation is sufficient" && vesselHeatNotOK == ""
      ensures cachedHandlers == None && rebuilds == 0
    {
      var producerItems := CreateCategoryItems(producerCats);
      var consumerItems := CreateCategoryItems(consumerCats);
      overheating := false;
      netHeatFlux := Blank;
      vesselHeatStatus := "";
      vesselHeatOk := "Vessel heat dissipation is sufficient";
      vesselHeatNotOK := "";
      totalConsumption := Blank;
      totalProduction := Blank;
      this.userGeneration := userGeneration;
      this.userConsumption := userConsumption;
      this.categoryNames := categoryNames;
      producerCategoryUIItems := producerItems;
      consumerCategoryUIItems := consumerItems;
      cachedHandlers := None;
      rebuilds := 0;
    }

    /** Sets the header fields from a snapshot of the vessel's thermal data. */
    method UpdateHeaderPanelData(data: ThermalSnapshot)
      modifies this`overheating, this`netHeatFlux, this`vesselHeatStatus, this`totalConsumption, this`totalProduction
      ensures var h := HeaderFor(data, userGeneration, userConsumption);
              && overheating == h.overheating
              && netHeatFlux == h.netHeatFlux
              && vesselHeatStatus == (if h.heatOk then vesselHeatOk else vesselHeatNotOK)
              && totalConsumption == h.totalConsumption
              && totalProduction == h.totalProduction
      ensures vesselHeatOk != vesselHeatNotOK ==> (vesselHeatStatus == vesselHeatNotOK <==> overheating)
    {
      var netHeat := data.currentConsumption + data.currentProduction + userGeneration - userConsumption;
      if netHeat == 0.0 {
        overheating := false;
        netHeatFlux := Flux(NoArrow, Abs(netHeat));
        vesselHeatStatus := vesselHeatOk;
      } else if netHeat > 0.0 {
        overheating := true;
        netHeatFlux := Flux(Up, Abs(netHeat));
        vesselHeatStatus := vesselHeatNotOK;
      } else {
        overheating := false;
        netHeatFlux := Flux(Down, Abs(netHeat));
        vesselHeatStatus := vesselHeatOk;
      }
      totalConsumption := Flux(Down, Abs(data.currentConsumption - userConsumption));
      totalProduction := Flux(Up, Abs(data.currentProduction + userGeneration));
    }

    /**
     * Rebuilds the detail panel from a handler list and caches that list. The
     * regrouping of handlers into categories belongs to the host view and is
     * not modelled; the rebuild is counted.
     */
    method RebuildCachedList(handlers: seq<ModuleDataHandler>)
      modifies this`cachedHandlers, this`rebuilds
      ensures cachedHandlers == Some(handlers) && rebuilds == old(rebuilds) + 1
    {
      cachedHandlers := Some(handlers);
      rebuilds := rebuilds + 1;
    }

    /** Refreshes the producer and the consumer item of one category at scale 1. */
    method RefreshCategory(name: string)
      requires Valid() && name in producerCategoryUIItems && name in consumerCategoryUIItems
      modifies Items()`updates
      ensures forall k :: k in producerCategoryUIItems ==>
                producerCategoryUIItems[k].updates
                == old(producerCategoryUIItems[k].updates) + (if k == name then [1.0] else [])
      ensures forall k :: k in consumerCategoryUIItems ==>
                consumerCategoryUIItems[k].updates
                == old(consumerCategoryUIItems[k].updates) + (if k == name then [1.0] else [])
    {
      producerCategoryUIItems[name].Update(1.0);
      consumerCategoryUIItems[name].Update(1.0);
    }

    /** Refreshes the producer and consumer item of every category name at scale 1. */
    method RefreshCategoryItems()
      requires Valid()
      modifies Items()`updates
      ensures forall k :: k in producerCategoryUIItems ==>
                producerCategoryUIItems[k].updates
                == old(producerCategoryUIItems[k].updates) + Refreshes(categoryNames, k)
      ensures forall k :: k in consumerCategoryUIItems ==>
                consumerCategoryUIItems[k].updates
                == old(consumerCategoryUIItems[k].updates) + Refreshes(categoryNames, k)
    {
      var names, producers, consumers := categoryNames, producerCategoryUIItems, consumerCategoryUIItems;
      for i := 0 to |names|
        invariant forall k :: k in producers ==>
                    producers[k].updates == old(producers[k].updates) + Refreshes(names[..i], k)
        invariant forall k :: k in consumers ==>
                    consumers[k].updates == old(consumers[k].updates) + Refreshes(names[..i], k)
      {
        RefreshCategory(names[i]);
        forall k | k in producers
          ensures producers[k].updates == old(producers[k].updates) + Refreshes(names[..i + 1], k)
        {
          OneMoreRefresh(old(producers[k].updates), names, i, k);
        }
        forall k | k in consumers
          ensures consumers[k].updates == old(consumers[k].updates) + Refreshes(names[..i + 1], k)
        {
          OneMoreRefresh(old(consumers[k].updates), names, i, k);
        }
      }
      assert categoryNames[..|categoryNames|] == categoryNames;
    }

    /**
     * Rebuilds the detail panel when there is no cached list or the current
     * handlers differ from the cached ones as sets; otherwise refreshes every
     * category in place.
     */
    method UpdateDetailPanelData(current: seq<ModuleDataHandler>)
      requires Valid()
      modifies this`cachedHandlers, this`rebuilds, Items()`updates
      ensures Valid()
      ensures var t := Tick(old(cachedHandlers), current);
              && cachedHandlers == Some(t.cache)
              && rebuilds == old(rebuilds) + (if t.rebuilt then 1 else 0)
              && (forall k :: k in producerCategoryUIItems ==>
                    producerCategoryUIItems[k].updates
                    == old(producerCategoryUIItems[k].updates)
                       + (if t.refreshed then Refreshes(categoryNames, k) else []))
              && (forall k :: k in consumerCategoryUIItems ==>
                    consumerCategoryUIItems[k].updates
                    == old(consumerCategoryUIItems[k].updates)
                       + (if t.refreshed then Refreshes(categoryNames, k) else []))
    {
      if cachedHandlers.None? {
        RebuildCachedList(current);
      }
      var firstNotSecond := Except(current, cachedHandlers.value);
      var secondNotFirst := Except(cachedHandlers.value, current);
      if |firstNotSecond| > 0 || |secondNotFirst| > 0 {
        RebuildCachedList(current);
      } else {
        RefreshCategoryItems();
      }
    }

    /**
     * One update of the view: nothing of this view's own when the host has no
     * thermal data, otherwise the header and then the detail panel from the
     * same snapshot. The base view's update, which runs first, is not part of
     * this model and is taken to change nothing.
     */
    method Update(data: Option<ThermalSnapshot>)
      requires Valid()
      modifies this`overheating, this`netHeatFlux, this`vesselHeatStatus, this`totalConsumption,
               this`totalProduction, this`cachedHandlers, this`rebuilds, Items()`updates
      ensures Valid()
      ensures data.None? ==>
                && overheating == old(overheating) && netHeatFlux == old(netHeatFlux)
                && vesselHeatStatus == old(vesselHeatStatus)
                && totalConsumption == old(totalConsumption) && totalProduction == old(totalProduction)
                && cachedHandlers == old(cachedHandlers) && rebuilds == old(rebuilds)
                && (forall item :: item in Items() ==> item.updates == old(item.updates))
      ensures data.Some? ==>
                var h := HeaderFor(data.value, userGeneration, userConsumption);
                var t := Tick(old(cachedHandlers), data.value.allHandlers);
                && overheating == h.overheating && netHeatFlux == h.netHeatFlux
                && vesselHeatStatus == (if h.heatOk then vesselHeatOk else vesselHeatNotOK)
                && totalConsumption == h.totalConsumption && totalProduction == h.totalProduction
                && cachedHandlers == Some(t.cache)
                && rebuilds == old(rebuilds) + (if t.rebuilt then 1 else 0)
                && (forall k :: k in producerCategoryUIItems ==>
                      producerCategoryUIItems[k].updates
                      == old(producerCategoryUIItems[k].updates)
                         + (if t.refreshed then Refreshes(categoryNames, k) else []))
                && (forall k :: k in consumerCategoryUIItems ==>
                      consumerCategoryUIItems[k].updates
                      == old(consumerCategoryUIItems[k].updates)
                         + (if t.refreshed then Refreshes(categoryNames, k) else []))
    {
      if data.Some? {
        UpdateHeaderPanelData(data.value);
        UpdateDetailPanelData(data.value.allHandlers);
      }
    }
  }
}
