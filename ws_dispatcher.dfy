/** seal/ws/ws_dispatcher.py: the registry of WebSocket handlers by path. */
module WsDispatchers {
  import opened Wrappers

  class WSDispatcher<F> {
    /** `registry` */
    var registry: map<string, F>

    constructor ()
      ensures registry == map[]
    {
      registry := map[];
    }

    /** `dispatch`: the handler of the path, None for an unregistered one. */
    function Dispatch(path: string): (r: Option<F>)
      reads this
      ensures r.Some? <==> path in registry
      ensures r.Some? ==> r.value == registry[path]
    {
      if path in registry then Some(registry[path]) else None
    }

    /** `register`: overwrites an earlier handler of the path; other paths are untouched. */
    method Register(path: string, handler: F)
      modifies this
      ensures registry == old(registry)[path := handler]
      ensures Dispatch(path) == Some(handler)
      ensures forall p | p != path :: Dispatch(p) == old(Dispatch(p))
    {
      registry := registry[path := handler];
    }
  }
}
