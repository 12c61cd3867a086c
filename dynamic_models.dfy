/** seal/model/_dynamic_model.py: the registry of models built at run time, by name. */
module DynamicModels {
  import opened Wrappers
  import opened Errors

  class DynamicModelRegistry<M> {
    /** `_models` */
    var models: map<string, M>

    constructor ()
      ensures models == map[]
    {
      models := map[];
    }

    /** `register`: the last model registered under a name wins; other names are untouched. */
    method Register(name: string, model: M)
      modifies this
      ensures models == old(models)[name := model]
      ensures Has(name) && Get(name) == Ok(model)
      ensures forall n | n != name :: Has(n) == old(Has(n)) && Get(n) == old(Get(n))
    {
      models := models[name := model];
    }

    /** `get`: an unregistered name raises KeyError. */
    function Get(name: string): (r: Result<M, Error>)
      reads this
      ensures r.Ok? <==> Has(name)
      ensures r.Ok? ==> r.value == models[name]
      ensures r.Err? ==> r.error == MissingKey
    {
      if name in models then Ok(models[name]) else Err(MissingKey)
    }

    /** `has` */
    function Has(name: string): (r: bool)
      reads this
      ensures r <==> name in models
    {
      name in models
    }
  }
}
