/**
 * The closed enumeration of part-module kinds that have a power handler.
 * Each member is named exactly like the part module it handles, so parsing a
 * module name is a lookup of the member with that name.
 */
module PowerHandlerTypes {
  import opened Wrappers

  datatype PowerHandlerType =
    // Stock
    | ModuleDeployableSolarPanel
    | ModuleGenerator
    | ModuleResourceConverter
    | ModuleActiveRadiator
    | ModuleResourceHarvester
    // NFT
    | ModuleCurvedSolarPanel
    | FissionGenerator
    | ModuleRadioisotopeGenerator
    | ModuleCryoTank
    | ModuleAntimatterTank
    // RealBattery
    | RealBattery

  /** Every member, in declaration order. */
  const AllTypes: seq<PowerHandlerType> := [
    ModuleDeployableSolarPanel, ModuleGenerator, ModuleResourceConverter,
    ModuleActiveRadiator, ModuleResourceHarvester, ModuleCurvedSolarPanel,
    FissionGenerator, ModuleRadioisotopeGenerator, ModuleCryoTank,
    ModuleAntimatterTank, RealBattery]

  /** The underlying value of a member: its position in the declaration. */
  function Ordinal(t: PowerHandlerType): (n: nat)
    ensures n < |AllTypes| && AllTypes[n] == t
  {
    match t
    case ModuleDeployableSolarPanel => 0
    case ModuleGenerator => 1
    case ModuleResourceConverter => 2
    case ModuleActiveRadiator => 3
    case ModuleResourceHarvester => 4
    case ModuleCurvedSolarPanel => 5
    case FissionGenerator => 6
    case ModuleRadioisotopeGenerator => 7
    case ModuleCryoTank => 8
    case ModuleAntimatterTank => 9
    case RealBattery => 10
  }

  /** The member's name, which is the name of the part module it handles. */
  function Name(t: PowerHandlerType): string
  {
    match t
    case ModuleDeployableSolarPanel => "ModuleDeployableSolarPanel"
    case ModuleGenerator => "ModuleGenerator"
    case ModuleResourceConverter => "ModuleResourceConverter"
    case ModuleActiveRadiator => "ModuleActiveRadiator"
    case ModuleResourceHarvester => "ModuleResourceHarvester"
    case ModuleCurvedSolarPanel => "ModuleCurvedSolarPanel"
    case FissionGenerator => "FissionGenerator"
    case ModuleRadioisotopeGenerator => "ModuleRadioisotopeGenerator"
    case ModuleCryoTank => "ModuleCryoTank"
    case ModuleAntimatterTank => "ModuleAntimatterTank"
    case RealBattery => "RealBattery"
  }

  /** The first member of `candidates` named `s`, if there is one. */
  function ParseAmong(s: string, candidates: seq<PowerHandlerType>): (r: Option<PowerHandlerType>)
    ensures r.Some? ==> r.value in candidates && Name(r.value) == s
    ensures r.None? ==> forall t :: t in candidates ==> Name(t) != s
  {
    if candidates == [] then None
    else if Name(candidates[0]) == s then Some(candidates[0])
    else ParseAmong(s, candidates[1..])
  }

  /** Case-sensitive parse of a module name into the member of that name. */
  function Parse(s: string): (r: Option<PowerHandlerType>)
    ensures r.Some? ==> Name(r.value) == s
    ensures r.None? ==> forall t :: Name(t) != s
  {
    var r := ParseAmong(s, AllTypes);
    assert r.None? ==> forall t :: Name(t) != s by {
      forall t ensures r.None? ==> Name(t) != s {
        assert AllTypes[Ordinal(t)] == t;
      }
    }
    r
  }

  /** There are exactly eleven members, numbered 0 to 10 in declaration order. */
  lemma DeclarationOrder()
    ensures |AllTypes| == 11
    ensures forall i :: 0 <= i < |AllTypes| ==> Ordinal(AllTypes[i]) == i
  {
  }

  /** Every name is at least eleven characters long. */
  lemma NameLength(t: PowerHandlerType)
    ensures |Name(t)| >= 11
  {
  }

  /** Different members have different names. */
  lemma NamesDiffer(t: PowerHandlerType, u: PowerHandlerType)
    requires t != u
    ensures Name(t) != Name(u)
  {
    // Only two pairs of names have equal lengths; they differ at index 7 or 14.
    if |Name(t)| == |Name(u)| {
      assert Name(t)[7] != Name(u)[7] || Name(t)[14] != Name(u)[14];
    }
  }

  /** Searching candidates whose names are unique finds the member by its name. */
  lemma {:induction false} ParseAmongFinds(t: PowerHandlerType, candidates: seq<PowerHandlerType>)
    requires t in candidates
    ensures ParseAmong(Name(t), candidates) == Some(t)
  {
    if candidates[0] != t {
      NamesDiffer(candidates[0], t);
      ParseAmongFinds(t, candidates[1..]);
    }
  }

  /** Parsing a member's name gives back that member. */
  lemma ParseName(t: PowerHandlerType)
    ensures Parse(Name(t)) == Some(t)
  {
    assert AllTypes[Ordinal(t)] == t;
    ParseAmongFinds(t, AllTypes);
  }

  /** No two members share a name, so parsing by name is deterministic. */
  lemma NamesDistinct(t: PowerHandlerType, u: PowerHandlerType)
    requires Name(t) == Name(u)
    ensures t == u
  {
    ParseName(t);
    ParseName(u);
  }

  /** A module name that is none of the eleven does not parse. */
  lemma UnknownNameDoesNotParse()
    ensures Parse("FooBar") == None
  {
    forall t ensures Name(t) != "FooBar" {
      NameLength(t);
    }
  }
}
