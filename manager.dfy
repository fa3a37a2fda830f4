/** `DIManager`: the holder of the dependency override table that
    `setup_di` stores in the dispatcher's workflow data. */
module Manager {
  import opened Base

  /** A Python dict from producer to substitute producer, kept by reference:
      whoever holds it sees the updates of everyone else. */
  class OverrideTable {
    var entries: map<ProducerId, ProducerId>

    constructor (entries: map<ProducerId, ProducerId>)
      ensures this.entries == entries
    {
      this.entries := entries;
    }

    /** Truthiness of the dict: a table is falsy when it is empty. */
    predicate IsEmpty()
      reads this
    {
      entries == map[]
    }
  }

  class DIManager {
    /** `_dependency_overrides`, the only slot. */
    var overrides: OverrideTable

    /** Stores the very table it is given, not a copy. */
    constructor (dependencyOverrides: OverrideTable)
      ensures overrides == dependencyOverrides
    {
      overrides := dependencyOverrides;
    }

    /** The `dependency_overrides` property. */
    function DependencyOverrides(): OverrideTable
      reads this
    {
      overrides
    }

    /** The `dependency_overrides` setter: replaces the table itself; the
        previous table object is left as it was. */
    method SetDependencyOverrides(value: OverrideTable)
      modifies this
      ensures DependencyOverrides() == value
    {
      overrides := value;
    }
  }
}
