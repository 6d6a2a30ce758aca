/** The mutable `HashMap<String, String>` that the request builders fill
    before it is form-encoded: inserting a key that is already present
    replaces its value. */
module ParamMaps {

  /** A request's form parameters, by name. */
  type Params = map<string, string>

  class ParamMap {
    var entries: Params

    constructor ()
      ensures entries == map[]
    {
      entries := map[];
    }

    method Insert(key: string, value: string)
      modifies this
      ensures entries == old(entries)[key := value]
    {
      entries := entries[key := value];
    }
  }
}
