/**
 * seal/db/data_source.py: `DataSourceManager`, the registry of data sources by name. The
 * class-level dict of the source is the field of one manager object here.
 */
module DataSources {
  import opened Wrappers
  import opened Errors

  class DataSourceManager<D> {
    /** `data_sources` */
    var dataSources: map<string, D>

    constructor ()
      ensures dataSources == map[]
    {
      dataSources := map[];
    }

    /** `register`: overwrites an earlier entry of the same name; other names are untouched. */
    method Register(name: string, dataSource: D)
      modifies this
      ensures dataSources == old(dataSources)[name := dataSource]
      ensures Get(name) == Ok(dataSource)
      ensures forall n | n != name :: Get(n) == old(Get(n))
    {
      dataSources := dataSources[name := dataSource];
    }

    /** `get`: an unregistered name raises KeyError. */
    function Get(name: string): (r: Result<D, Error>)
      reads this
      ensures r.Err? <==> name !in dataSources
      ensures r.Err? ==> r.error == MissingKey
      ensures r.Ok? ==> r.value == dataSources[name]
    {
      if name in dataSources then Ok(dataSources[name]) else Err(MissingKey)
    }
  }
}
