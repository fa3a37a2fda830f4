/** The explicit producer graph that stands in for Python reflection
    (`inspect.signature`, `inspect.get_annotations`, `Annotated[...]`). */
module Graph {
  import opened Base
  import opened Dependency

  /** What `inspect` can tell about a plain function. */
  datatype FnFlavour = PlainFn | CoroutineFn | GeneratorFn | AsyncGeneratorFn

  /** A callable as `inspect` sees it: a routine (function or method), a class,
      or another object.  For a class or an object, `dunderCall` is the flavour of
      the Python function its `__call__` attribute resolves to, if any. */
  datatype Shape =
    | Routine(flavour: FnFlavour)
    | Class(dunderCall: Option<FnFlavour>)
    | Instance(dunderCall: Option<FnFlavour>)

  /** The first metadata item of an `Annotated[...]` alias. */
  datatype Metadata = DependsMark(dep: Depends) | OtherMark

  /** A parameter annotation: anything that is not `Annotated`, or
      `Annotated[declared, first, ...]`. */
  datatype Annotation = Unannotated | Annotated(declared: ProducerId, first: Metadata)

  /** One parameter (or annotation entry): its name, whether it has a default,
      and its annotation. */
  datatype Param = Param(name: Name, hasDefault: bool, annotation: Annotation)

  datatype Producer = Producer(shape: Shape, params: seq<Param>)

  /** Producers indexed by their identity. */
  type Registry = seq<Producer>

  /** The key of the param binding table: (producer identity, parameter name). */
  datatype ParamKey = ParamKey(call: ProducerId, name: Name)

  predicate IsDependencyParam(p: Param)
  {
    p.annotation.Annotated? && p.annotation.first.DependsMark?
  }

  /** The producer a dependency parameter resolves to. */
  function ParamCall(p: Param): ProducerId
    requires IsDependencyParam(p)
  {
    CallOf(p.annotation.first.dep, p.annotation.declared)
  }

  /** The binding-table key under which a dependency parameter's value is stored. */
  function KeyOf(p: Param): ParamKey
    requires IsDependencyParam(p)
  {
    ParamKey(ParamCall(p), p.name)
  }

  /** Every dependency parameter calls a producer whose identity is below `bound`. */
  predicate CallsBelow(params: seq<Param>, bound: nat)
  {
    forall i :: 0 <= i < |params| && IsDependencyParam(params[i]) ==> ParamCall(params[i]) < bound
  }

  /** Parameter names are distinct, as in a Python signature or annotation dict. */
  predicate UniqueNames(params: seq<Param>)
  {
    forall i, j :: 0 <= i < j < |params| ==> params[i].name != params[j].name
  }

  /** The graph is closed and acyclic: producer `id` depends only on producers
      registered before it. */
  predicate WellFormed(reg: Registry)
  {
    forall id :: 0 <= id < |reg| ==> CallsBelow(reg[id].params, id) && UniqueNames(reg[id].params)
  }

  /** The binding-table keys a producer with these parameters needs. */
  function NeededKeys(params: seq<Param>): set<ParamKey>
  {
    set i | 0 <= i < |params| && IsDependencyParam(params[i]) :: KeyOf(params[i])
  }

  /** One element of the flattened walk: (parameter name, descriptor, declared type). */
  datatype Occurrence = Occurrence(name: Name, dep: Depends, declared: ProducerId)
  {
    function Call(): ProducerId { CallOf(dep, declared) }
    function Key(): ParamKey { ParamKey(Call(), name) }
  }

  /** The occurrence a dependency parameter yields. */
  function OccurrenceOf(p: Param): (o: Occurrence)
    requires IsDependencyParam(p)
    ensures o.Key() == KeyOf(p)
  {
    Occurrence(p.name, p.annotation.first.dep, p.annotation.declared)
  }

  /** The binding-table keys written by a sequence of occurrences. */
  function OccKeys(occs: seq<Occurrence>): set<ParamKey>
  {
    set i | 0 <= i < |occs| :: occs[i].Key()
  }
}
