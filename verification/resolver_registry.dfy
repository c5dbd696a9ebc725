/** The registry that maps a scheme name to the factory that creates its resolver. */
module Registry {
  import opened Wrappers
  import Search

  /** A registered factory; only its `Name` takes part in dispatch. */
  datatype ResolverFactory = ResolverFactory(name: string)

  /**
   * What a factory's `Create(options)` returns: a resolver made by the factory
   * at position `factory` in registration order, bound to `options`.
   */
  datatype Resolver<O> = Resolver(factory: nat, options: O)

  datatype ResolverRegistry = ResolverRegistry(factories: seq<ResolverFactory>) {

    /**
     * The `foreach` of `CreateResolver`: the position of the first factory, in
     * registration order, whose name equals `name` (ordinal, case-sensitive).
     */
    function FactoryFor(name: string): (r: Option<nat>)
      ensures r.None? <==> forall j :: 0 <= j < |factories| ==> factories[j].name != name
      ensures r.Some? ==> r.value < |factories| && factories[r.value].name == name
      ensures r.Some? ==> forall j :: 0 <= j < r.value ==> factories[j].name != name
    {
      Search.FirstIndex(factories, (f: ResolverFactory) => f.name == name)
    }

    /**
     * Asks the first factory named `name` to create a resolver from `options`;
     * None stands for the null returned when no name matches.
     */
    function CreateResolver<O>(name: string, options: O): (r: Option<Resolver<O>>)
      ensures r.None? <==> forall j :: 0 <= j < |factories| ==> factories[j].name != name
      ensures r.Some? ==> r.value.factory < |factories| && factories[r.value.factory].name == name
      ensures r.Some? ==> forall j :: 0 <= j < r.value.factory ==> factories[j].name != name
      ensures r.Some? ==> r.value.options == options
    {
      match FactoryFor(name)
      case None => None
      case Some(i) => Some(Resolver(i, options))
    }
  }

  /** A factory registered after another one with the same name is never asked to create. */
  lemma LaterDuplicateUnreachable<O>(registry: ResolverRegistry, name: string, options: O, i: nat, j: nat)
    requires i < j < |registry.factories|
    requires registry.factories[i].name == name && registry.factories[j].name == name
    ensures registry.CreateResolver(name, options).Some?
    ensures registry.CreateResolver(name, options).value.factory <= i
  {
  }

  /** Registering more factories after a matching one does not change which one is used. */
  lemma {:induction false} AppendKeepsMatch<O>(registry: ResolverRegistry, more: seq<ResolverFactory>, name: string, options: O)
    requires registry.CreateResolver(name, options).Some?
    ensures ResolverRegistry(registry.factories + more).CreateResolver(name, options)
         == registry.CreateResolver(name, options)
  {
    Search.FirstIndexAppend(registry.factories, more, (f: ResolverFactory) => f.name == name);
  }
}
