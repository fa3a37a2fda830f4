/** The dependency descriptor `Depends(func=None, *, use_cache=True)`. */
module Dependency {
  import opened Base

  /** A descriptor names an optional explicit producer and a cache policy.
      `func` defaults to "none" (use the declared type as the producer);
      `useCache` defaults to true and can only be given by name. */
  datatype Depends = Depends(func: Option<ProducerId> := None, nameonly useCache: bool := true)

  /** The producer a descriptor stands for at a use site: the explicit one if
      given, otherwise the declared type, which Python then calls as a factory. */
  function CallOf(d: Depends, declared: ProducerId): (call: ProducerId)
    ensures d.func.Some? ==> call == d.func.value
    ensures d.func.None? ==> call == declared
  {
    if d.func.Some? then d.func.value else declared
  }

  /** Omitted arguments take the documented defaults, and given ones are kept
      as given. */
  lemma DependsDefaults(f: ProducerId, useCache: bool)
    ensures Depends().func.None? && Depends().useCache
    ensures Depends(Some(f)).func == Some(f) && Depends(Some(f)).useCache
    ensures Depends(Some(f), useCache := useCache).useCache == useCache
    ensures Depends(useCache := useCache).func.None?
  {
  }
}
