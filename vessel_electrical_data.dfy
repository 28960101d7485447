/**
 * The vessel's electrical data: the list of power handlers for the vessel's
 * part modules, how a part module gets its handler, the diagnostic dump of the
 * list, and the production the editor simulates from it.
 */
module ElectricalData {
  import opened Wrappers
  import opened PowerHandlerTypes
  import opened DataHandlers
  import RealBatteryHandlers

  const HandlerNamespace: string := "DynamicBatteryStorage."
  const HandlerSuffix: string := "PowerHandler"
  const NoHandlersText: string := "No Power Handlers"
  const LineSeparator: char := '\n'

  // ---------------------------------------------------------------------------
  // Handler dispatch

  /** The handler class name built for a module name. */
  function HandlerTypeName(moduleName: string): string
  {
    HandlerNamespace + moduleName + HandlerSuffix
  }

  /** Distinct module names give distinct handler class names. */
  lemma HandlerTypeNameInjective(a: string, b: string)
    requires HandlerTypeName(a) == HandlerTypeName(b)
    ensures a == b
  {
    var n := |HandlerNamespace|;
    assert |a| == |b|;
    assert a == HandlerTypeName(a)[n..n + |a|];
    assert b == HandlerTypeName(b)[n..n + |b|];
  }

  /**
   * The RealBattery module is mapped to a class named RealBatteryPowerHandler,
   * which is not the name of the RealBattery handler class, RealBatteryHandler.
   */
  lemma RealBatteryTypeName()
    ensures HandlerTypeName(Name(RealBattery)) == "DynamicBatteryStorage.RealBatteryPowerHandler"
    ensures HandlerTypeName(Name(RealBattery)) != "DynamicBatteryStorage.RealBatteryHandler"
  {
    assert |Name(RealBattery)| == 11;
    assert |HandlerTypeName(Name(RealBattery))| == 45;
  }

  /** Where dispatching a part module ends. */
  datatype Resolution =
    | Unsupported                                      // the module name is no PowerHandlerType
    | TypeMissing(typeName: string)                    // no handler class of that name
    | Declined(typeName: string)                       // Initialize returned false
    | Resolved(typeName: string, impl: Implementation) // a handler that accepted the module

  /**
   * Dispatch of one part module: parse its name, build the handler class name,
   * instantiate that class through `create` (the reflective lookup, None when
   * the class does not exist) and let the instance decide through Initialize.
   */
  function Resolve(pm: PartModule, create: string -> Option<Implementation>): (r: Resolution)
    ensures r.Unsupported? <==> Parse(pm.moduleName).None?
    ensures !r.Unsupported? ==>
              r.typeName == "DynamicBatteryStorage." + pm.moduleName + "PowerHandler" &&
              r.typeName == HandlerTypeName(Name(Parse(pm.moduleName).value))
    ensures r.TypeMissing? <==> !r.Unsupported? && create(r.typeName).None?
    ensures r.Declined? ==> create(r.typeName).Some? && !create(r.typeName).value.initialize(pm)
    ensures r.Resolved? ==> create(r.typeName) == Some(r.impl) && r.impl.initialize(pm)
  {
    match Parse(pm.moduleName)
    case None => Unsupported
    case Some(_) =>
      var typeName := HandlerTypeName(pm.moduleName);
      match create(typeName)
      case None => TypeMissing(typeName)
      case Some(impl) => if impl.initialize(pm) then Resolved(typeName, impl) else Declined(typeName)
  }

  /** A module named "FooBar" is not dispatched, whatever classes exist. */
  lemma FooBarIsUnsupported(fields: map<string, string>, create: string -> Option<Implementation>)
    ensures Resolve(PartModule("FooBar", fields), create) == Unsupported
  {
    UnknownNameDoesNotParse();
  }

  /**
   * Dispatching a RealBattery module looks up RealBatteryPowerHandler; when no
   * class of that name exists the lookup raises.
   */
  lemma RealBatteryModuleFindsNoClass(fields: map<string, string>, create: string -> Option<Implementation>)
    requires create(HandlerTypeName(Name(RealBattery))).None?
    ensures Resolve(PartModule(Name(RealBattery), fields), create)
            == TypeMissing(HandlerTypeName(Name(RealBattery)))
  {
    ParseName(RealBattery);
  }

  // ---------------------------------------------------------------------------
  // Simulated production

  /**
   * What one handler adds to the simulated production: its value, times the
   * solar scalar when it is affected by sun distance, counted only when the
   * handler is simulated and the scaled value is strictly positive.
   */
  function Contribution(r: Reading, solarScalar: real): (c: real)
    ensures c >= 0.0
    ensures c > 0.0 ==> r.simulated
  {
    if !r.simulated then 0.0
    else
      var pwr := if r.affectedBySunDistance then r.value * solarScalar else r.value;
      if pwr > 0.0 then pwr else 0.0
  }

  /** The sum of a list of amounts, added from the front. */
  function Sum(xs: seq<real>): real
  {
    if xs == [] then 0.0 else Sum(xs[..|xs| - 1]) + xs[|xs| - 1]
  }

  lemma SumAppend(xs: seq<real>, x: real)
    ensures Sum(xs + [x]) == Sum(xs) + x
  {
    assert (xs + [x])[..|xs|] == xs;
  }

  /** A sum of non-negative amounts is non-negative. */
  lemma {:induction false} SumNonNegative(xs: seq<real>)
    requires forall i :: 0 <= i < |xs| ==> xs[i] >= 0.0
    ensures Sum(xs) >= 0.0
  {
    if xs != [] {
      SumNonNegative(xs[..|xs| - 1]);
    }
  }

  /** Each amount times `s`. */
  function Scale(s: real, xs: seq<real>): (ys: seq<real>)
    ensures |ys| == |xs|
    ensures forall i :: 0 <= i < |xs| ==> ys[i] == s * xs[i]
  {
    seq(|xs|, i requires 0 <= i < |xs| => s * xs[i])
  }

  /** The amounts of two lists of the same length, added position by position. */
  function Plus(xs: seq<real>, ys: seq<real>): (zs: seq<real>)
    requires |xs| == |ys|
    ensures |zs| == |xs|
    ensures forall i :: 0 <= i < |xs| ==> zs[i] == xs[i] + ys[i]
  {
    seq(|xs|, i requires 0 <= i < |xs| => xs[i] + ys[i])
  }

  lemma Distribute(s: real, a: real, b: real, ab: real)
    requires ab == a + b
    ensures s * ab == s * a + s * b
  {
  }

  /** Scaling every amount scales the sum. */
  lemma {:induction false} SumScale(s: real, xs: seq<real>)
    ensures Sum(Scale(s, xs)) == s * Sum(xs)
  {
    if xs != [] {
      var n := |xs| - 1;
      SumScale(s, xs[..n]);
      forall i | 0 <= i < n ensures Scale(s, xs)[..n][i] == Scale(s, xs[..n])[i] {
        assert xs[..n][i] == xs[i];
      }
      assert Scale(s, xs)[..n] == Scale(s, xs[..n]);
      Distribute(s, Sum(xs[..n]), xs[n], Sum(xs));
    }
  }

  /** Adding two lists position by position adds their sums. */
  lemma {:induction false} SumPlus(xs: seq<real>, ys: seq<real>)
    requires |xs| == |ys|
    ensures Sum(Plus(xs, ys)) == Sum(xs) + Sum(ys)
  {
    if xs != [] {
      var n := |xs| - 1;
      SumPlus(xs[..n], ys[..n]);
      assert Plus(xs, ys)[..n] == Plus(xs[..n], ys[..n]);
    }
  }

  /** Each reading's contribution, in list order. */
  function Contributions(rs: seq<Reading>, solarScalar: real): (cs: seq<real>)
    ensures |cs| == |rs|
    ensures forall i :: 0 <= i < |rs| ==> cs[i] == Contribution(rs[i], solarScalar)
  {
    seq(|rs|, i requires 0 <= i < |rs| => Contribution(rs[i], solarScalar))
  }

  /** The simulated production of a list of readings: their contributions summed in list order. */
  function SimulatedProduction(rs: seq<Reading>, solarScalar: real): real
  {
    Sum(Contributions(rs, solarScalar))
  }

  /** The simulated production is never negative. */
  lemma ProductionNonNegative(rs: seq<Reading>, solarScalar: real)
    ensures SimulatedProduction(rs, solarScalar) >= 0.0
  {
    SumNonNegative(Contributions(rs, solarScalar));
  }

  lemma SimulatedProductionAppend(rs: seq<Reading>, r: Reading, solarScalar: real)
    ensures SimulatedProduction(rs + [r], solarScalar)
            == SimulatedProduction(rs, solarScalar) + Contribution(r, solarScalar)
  {
    assert Contributions(rs + [r], solarScalar) == Contributions(rs, solarScalar) + [Contribution(r, solarScalar)];
    SumAppend(Contributions(rs, solarScalar), Contribution(r, solarScalar));
  }

  lemma ReadingsAppend(hs: seq<ModuleDataHandler>, i: nat)
    requires i < |hs|
    ensures Readings(hs[..i + 1]) == Readings(hs[..i]) + [ReadingOf(hs[i])]
  {
    var a, b := Readings(hs[..i + 1]), Readings(hs[..i]) + [ReadingOf(hs[i])];
    assert |a| == |b|;
    forall k | 0 <= k < |a| ensures a[k] == b[k] {
      assert hs[..i + 1][k] == hs[k];
    }
  }

  /** The readings of simulated handlers, in order. */
  function SimulatedOnly(rs: seq<Reading>): (s: seq<Reading>)
    ensures forall r :: r in s ==> r in rs && r.simulated
  {
    if rs == [] then []
    else
      var last := rs[|rs| - 1];
      SimulatedOnly(rs[..|rs| - 1]) + (if last.simulated then [last] else [])
  }

  /** Handlers that are not simulated do not change the simulated production. */
  lemma {:induction false} OnlySimulatedHandlersCount(rs: seq<Reading>, solarScalar: real)
    ensures SimulatedProduction(rs, solarScalar) == SimulatedProduction(SimulatedOnly(rs), solarScalar)
  {
    if rs != [] {
      var init, last := rs[..|rs| - 1], rs[|rs| - 1];
      OnlySimulatedHandlersCount(init, solarScalar);
      assert rs == init + [last];
      SimulatedProductionAppend(init, last, solarScalar);
      if last.simulated {
        SimulatedProductionAppend(SimulatedOnly(init), last, solarScalar);
      } else {
        assert SimulatedOnly(rs) == SimulatedOnly(init);
      }
    }
  }

  /** The share of one reading that the solar scalar multiplies. */
  function SunShare(r: Reading): real
  {
    if r.simulated && r.affectedBySunDistance && r.value > 0.0 then r.value else 0.0
  }

  /** The share of one reading that is counted unscaled. */
  function FixedShare(r: Reading): real
  {
    if r.simulated && !r.affectedBySunDistance && r.value > 0.0 then r.value else 0.0
  }

  /** Each reading's sun share, or each reading's fixed share. */
  function Shares(rs: seq<Reading>, affected: bool): (xs: seq<real>)
    ensures |xs| == |rs|
    ensures forall i :: 0 <= i < |rs| ==> xs[i] == if affected then SunShare(rs[i]) else FixedShare(rs[i])
  {
    seq(|rs|, i requires 0 <= i < |rs| => if affected then SunShare(rs[i]) else FixedShare(rs[i]))
  }

  /**
   * The strictly positive values of the simulated handlers whose sun-distance
   * flag is `affected`, summed without any scaling.
   */
  function PositiveTotal(rs: seq<Reading>, affected: bool): real
  {
    Sum(Shares(rs, affected))
  }

  lemma ContributionIsLinear(r: Reading, solarScalar: real)
    requires solarScalar >= 0.0
    ensures Contribution(r, solarScalar) == solarScalar * SunShare(r) + FixedShare(r)
  {
    if r.simulated && r.affectedBySunDistance && solarScalar > 0.0 {
      if r.value > 0.0 {
        assert r.value * solarScalar > 0.0;
      } else {
        assert r.value * solarScalar <= 0.0;
      }
    }
  }

  /** For a non-negative scalar, each contribution is its scaled sun share plus its fixed share. */
  lemma ContributionsSplit(rs: seq<Reading>, solarScalar: real)
    requires solarScalar >= 0.0
    ensures Contributions(rs, solarScalar)
            == Plus(Scale(solarScalar, Shares(rs, true)), Shares(rs, false))
  {
    var split := Plus(Scale(solarScalar, Shares(rs, true)), Shares(rs, false));
    forall i | 0 <= i < |rs| ensures Contributions(rs, solarScalar)[i] == split[i] {
      ContributionIsLinear(rs[i], solarScalar);
    }
  }

  /** The production is the sum of the scaled sun shares plus the fixed total. */
  lemma ProductionAsShares(rs: seq<Reading>, solarScalar: real)
    requires solarScalar >= 0.0
    ensures SimulatedProduction(rs, solarScalar)
            == Sum(Scale(solarScalar, Shares(rs, true))) + PositiveTotal(rs, false)
  {
    ContributionsSplit(rs, solarScalar);
    SumPlus(Scale(solarScalar, Shares(rs, true)), Shares(rs, false));
  }

  /** The scaled sun shares sum to the scalar times the sun-affected total. */
  lemma ScaledSunTotal(rs: seq<Reading>, solarScalar: real)
    ensures Sum(Scale(solarScalar, Shares(rs, true))) == solarScalar * PositiveTotal(rs, true)
  {
    SumScale(solarScalar, Shares(rs, true));
  }

  /**
   * For a non-negative solar scalar the simulated production is linear in the
   * scalar: the sun-affected handlers' positive values scaled by it, plus the
   * other handlers' positive values unscaled.
   */
  lemma ProductionIsLinearInScalar(rs: seq<Reading>, solarScalar: real)
    requires solarScalar >= 0.0
    ensures SimulatedProduction(rs, solarScalar)
            == solarScalar * PositiveTotal(rs, true) + PositiveTotal(rs, false)
  {
    ProductionAsShares(rs, solarScalar);
    ScaledSunTotal(rs, solarScalar);
  }

  /**
   * Changing a non-negative solar scalar changes the simulated production only
   * through the sun-affected handlers: by the change in the scalar times their
   * positive values.
   */
  lemma ScalarChangesOnlySunShare(rs: seq<Reading>, s: real, t: real)
    requires s >= 0.0 && t >= 0.0
    ensures SimulatedProduction(rs, t) - SimulatedProduction(rs, s) == (t - s) * PositiveTotal(rs, true)
  {
    ProductionIsLinearInScalar(rs, s);
    ProductionIsLinearInScalar(rs, t);
    var sun := PositiveTotal(rs, true);
    assert (t - s) * sun == t * sun - s * sun;
  }

  /**
   * A simulated, sun-affected panel reporting -10 next to an unsimulated
   * converter reporting 4 adds nothing at a scalar of 0.5: negative values are
   * never counted as production.
   */
  lemma NegativeSolarValueIsNotProduction()
    ensures SimulatedProduction([Reading(true, true, -10.0), Reading(false, false, 4.0)], 0.5) == 0.0
  {
    var cs := Contributions([Reading(true, true, -10.0), Reading(false, false, 4.0)], 0.5);
    assert cs == [0.0, 0.0];
    assert cs[..1] == [0.0];
    assert [0.0][..0] == [];
  }

  /**
   * A simulated RealBattery handler whose battery is charging (consuming charge
   * by that handler's own convention) is counted as production.
   */
  lemma ChargingBatteryCountsAsProduction(pm: PartModule, tryParse: string -> Option<real>,
                                          solarScalar: real)
    requires RealBatteryHandlers.GetPower(pm, tryParse).Success?
    requires RealBatteryHandlers.IsCharging(RealBatteryHandlers.GetPower(pm, tryParse).value)
    ensures var power := RealBatteryHandlers.GetPower(pm, tryParse).value;
            Contribution(Reading(true, false, power), solarScalar) == power
  {
  }

  // ---------------------------------------------------------------------------
  // Diagnostic dump

  /** The parts with `sep` between each two neighbours. */
  function Join(sep: string, parts: seq<string>): string
  {
    if |parts| == 0 then ""
    else if |parts| == 1 then parts[0]
    else parts[0] + sep + Join(sep, parts[1..])
  }

  /** The pieces of `s` between occurrences of `sep`; there is always at least one. */
  function Split(s: string, sep: char): (parts: seq<string>)
    ensures |parts| >= 1
  {
    if s == [] then [""]
    else
      var rest := Split(s[1..], sep);
      if s[0] == sep then [""] + rest
      else [[s[0]] + rest[0]] + rest[1..]
  }

  lemma {:induction false} SplitWithoutSeparator(s: string, sep: char)
    requires sep !in s
    ensures Split(s, sep) == [s]
  {
    if s != [] {
      SplitWithoutSeparator(s[1..], sep);
      assert [s[0]] + s[1..] == s;
    }
  }

  lemma {:induction false} SplitAtFirstSeparator(p: string, sep: char, t: string)
    requires sep !in p
    ensures Split(p + [sep] + t, sep) == [p] + Split(t, sep)
  {
    var s := p + [sep] + t;
    if p == [] {
      assert s[1..] == t;
    } else {
      assert s[1..] == p[1..] + [sep] + t;
      SplitAtFirstSeparator(p[1..], sep, t);
      assert [p[0]] + p[1..] == p;
    }
  }

  /**
   * Splitting a join at the separator gives back the parts when no part holds
   * the separator and there is at least one part.
   */
  lemma {:induction false} SplitJoin(parts: seq<string>, sep: char)
    requires |parts| >= 1
    requires forall i :: 0 <= i < |parts| ==> sep !in parts[i]
    ensures Split(Join([sep], parts), sep) == parts
  {
    if |parts| == 1 {
      SplitWithoutSeparator(parts[0], sep);
    } else {
      SplitJoin(parts[1..], sep);
      SplitAtFirstSeparator(parts[0], sep, Join([sep], parts[1..]));
      assert [parts[0]] + parts[1..] == parts;
    }
  }

  /** An empty handler list and a single handler with an empty description dump alike. */
  lemma EmptyListDumpsLikeEmptyDescription()
    ensures Join([LineSeparator], []) == Join([LineSeparator], [""]) == ""
  {
  }

  // ---------------------------------------------------------------------------
  // The vessel's electrical data

  class VesselElectricalData {
    /** The handler list; None stands for a null list. */
    var handlers: Option<seq<ModuleDataHandler>>
    /** The production the host reports for the vessel outside the editor. */
    var currentProduction: real

    constructor (handlers: Option<seq<ModuleDataHandler>>, currentProduction: real)
      ensures this.handlers == handlers && this.currentProduction == currentProduction
    {
      this.handlers := handlers;
      this.currentProduction := currentProduction;
    }

    /**
     * Adds the handler for `pm` when its module name is supported, its handler
     * class exists and the new handler's Initialize accepts the module. Returns
     * whether a handler was added; a missing class, or a null list when a
     * handler is to be added, is the exception raised. Existing entries are
     * never changed.
     */
    method SetupDataHandler(pm: PartModule, create: string -> Option<Implementation>)
      returns (r: Result<bool, Fault>)
      modifies this
      ensures currentProduction == old(currentProduction)
      ensures match Resolve(pm, create)
              case Unsupported => r == Success(false) && handlers == old(handlers)
              case TypeMissing(typeName) => r == Failure(TypeNotFound(typeName)) && handlers == old(handlers)
              case Declined(_) => r == Success(false) && handlers == old(handlers)
              case Resolved(_, impl) =>
                if old(handlers).None? then r == Failure(NullReference) && handlers == old(handlers)
                else
                  var before := old(handlers).value;
                  && r == Success(true)
                  && handlers.Some? && |handlers.value| == |before| + 1
                  && handlers.value[..|before|] == before
                  && fresh(handlers.value[|before|])
                  && handlers.value[|before|].impl == impl
                  && handlers.value[|before|].partModule == pm
    {
      var handlerType := Parse(pm.moduleName);
      if handlerType.None? {
        return Success(false);
      }
      var typeName := HandlerNamespace + pm.moduleName + HandlerSuffix;
      var instance := create(typeName);
      if instance.None? {
        return Failure(TypeNotFound(typeName));
      }
      var handler := new ModuleDataHandler(instance.value, pm);
      if handler.impl.initialize(pm) {
        if handlers.None? {
          return Failure(NullReference);
        }
        ghost var before := handlers.value;
        handlers := Some(handlers.value + [handler]);
        assert handlers.value[..|before|] == before;
        return Success(true);
      }
      return Success(false);
    }

    /**
     * The handlers' descriptions in list order, one per line, or
     * "No Power Handlers" when the list is null.
     */
    method ToString() returns (s: string)
      ensures handlers.None? ==> s == NoHandlersText
      ensures handlers.Some? ==> s == Join([LineSeparator], Descriptions(handlers.value))
    {
      var handlerStates: seq<string> := [];
      if handlers.Some? {
        var hs := handlers.value;
        for i := 0 to |hs|
          invariant handlerStates == Descriptions(hs[..i])
        {
          handlerStates := handlerStates + [hs[i].Describe()];
        }
        assert hs[..|hs|] == hs;
        return Join([LineSeparator], handlerStates);
      }
      return NoHandlersText;
    }

    /**
     * The production the editor simulates: over the simulated handlers, each
     * value scaled by the solar scalar when sun-affected, summing the strictly
     * positive ones. Outside the editor it is the host's current production.
     */
    method GetSimulatedElectricalProdution(inEditor: bool, solarScalar: real)
      returns (r: Result<real, Fault>)
      ensures !inEditor ==> r == Success(currentProduction)
      ensures inEditor && handlers.None? ==> r == Failure(NullReference)
      ensures inEditor && handlers.Some? ==>
                r == Success(SimulatedProduction(Readings(handlers.value), solarScalar))
      ensures inEditor && r.Success? ==> r.value >= 0.0
    {
      if inEditor {
        if handlers.None? {
          return Failure(NullReference);
        }
        var hs := handlers.value;
        var production := 0.0;
        for i := 0 to |hs|
          invariant production == SimulatedProduction(Readings(hs[..i]), solarScalar)
        {
          ReadingsAppend(hs, i);
          SimulatedProductionAppend(Readings(hs[..i]), ReadingOf(hs[i]), solarScalar);
          if hs[i].Simulated() {
            var pwr := hs[i].GetValue();
            if hs[i].AffectedBySunDistance() {
              pwr := pwr * solarScalar;
            }
            if pwr > 0.0 {
              production := production + pwr;
            }
          }
        }
        assert hs[..|hs|] == hs;
        ProductionNonNegative(Readings(hs), solarScalar);
        return Success(production);
      }
      return Success(currentProduction);
    }
  }
}
