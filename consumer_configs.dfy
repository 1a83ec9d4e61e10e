/** The consumer configuration provider (consumers/provider/manager.go): an append-only list. */
module ConsumerConfigs {

  /** The package-level instances slice, holding configs of type C. */
  class Provider<C> {
    var instances: seq<C>

    /** The list starts empty. */
    constructor ()
      ensures instances == []
    {
      instances := [];
    }

    /** Register(config): appends at the end, with no deduplication. */
    method Register(config: C)
      modifies this
      ensures instances == old(instances) + [config]
      ensures |instances| == |old(instances)| + 1 && instances[|instances| - 1] == config
    {
      instances := instances + [config];
    }

    /** Get(): every registered config, in registration order. */
    function Get(): (configs: seq<C>)
      reads this
      ensures |configs| == |instances| && forall i :: 0 <= i < |configs| ==> configs[i] == instances[i]
    {
      instances
    }
  }

  /** A config registered twice is listed twice: the provider keeps duplicates. */
  method RegisterTwice<C>(p: Provider<C>, config: C)
    modifies p
    ensures p.Get() == old(p.Get()) + [config, config]
    ensures multiset(p.Get())[config] == multiset(old(p.Get()))[config] + 2
  {
    p.Register(config);
    p.Register(config);
  }
}
