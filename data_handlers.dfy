/**
 * The host's part modules and the handler objects bound to them, as far as
 * the vessel data and the views see them. The concrete handler classes are
 * reached only through `Implementation`, which stands for one handler class:
 * what its `Initialize` accepts and what its polled properties return.
 */
module DataHandlers {
  import opened Wrappers

  /** A part module: its declared module name and the text of its named fields. */
  datatype PartModule = PartModule(moduleName: string, fields: map<string, string>)

  /** The exceptions the modelled code can raise, as values. */
  datatype Fault =
    | NullReference             // a member accessed through a null reference
    | TypeNotFound(typeName: string)  // reflective instantiation found no such class

  /** The behaviour of one handler class, which lies outside this model. */
  datatype Implementation = Implementation(
    initialize: PartModule -> bool,      // Initialize(pm): may the handler bind to pm?
    simulated: bool,                     // Simulated
    affectedBySunDistance: bool,         // AffectedBySunDistance()
    getValue: PartModule -> real,        // GetValue() while bound to the module
    describe: PartModule -> string)      // ToString() while bound to the module

  /**
   * A handler object bound to one part module. Its fields never change, so two
   * handlers are the same only when they are the same object, as with the
   * default reference equality the views rely on.
   */
  class ModuleDataHandler {
    const impl: Implementation
    const partModule: PartModule

    constructor (impl: Implementation, partModule: PartModule)
      ensures this.impl == impl && this.partModule == partModule
    {
      this.impl := impl;
      this.partModule := partModule;
    }

    function Simulated(): bool { impl.simulated }

    function AffectedBySunDistance(): bool { impl.affectedBySunDistance }

    function GetValue(): real { impl.getValue(partModule) }

    function Describe(): string { impl.describe(partModule) }
  }

  /** What the simulation reads from one handler. */
  datatype Reading = Reading(simulated: bool, affectedBySunDistance: bool, value: real)

  function ReadingOf(h: ModuleDataHandler): Reading
  {
    Reading(h.Simulated(), h.AffectedBySunDistance(), h.GetValue())
  }

  /** The readings of a handler list, element by element. */
  function Readings(handlers: seq<ModuleDataHandler>): (rs: seq<Reading>)
    ensures |rs| == |handlers|
    ensures forall i :: 0 <= i < |handlers| ==> rs[i] == ReadingOf(handlers[i])
  {
    seq(|handlers|, i requires 0 <= i < |handlers| => ReadingOf(handlers[i]))
  }

  /** The descriptions of a handler list, element by element. */
  function Descriptions(handlers: seq<ModuleDataHandler>): (ds: seq<string>)
    ensures |ds| == |handlers|
    ensures forall i :: 0 <= i < |handlers| ==> ds[i] == handlers[i].Describe()
  {
    seq(|handlers|, i requires 0 <= i < |handlers| => handlers[i].Describe())
  }
}
