/**
 * The data the NationStates web API returns, as far as the endorsements check
 * uses it, and the two lookups it offers. The HTTP/XML client behind them is
 * not modelled: the API is a pair of total functions from a name to a fetch
 * outcome.
 */
module NationStates {

  datatype Option<+T> = None | Some(value: T)

  /** `WorldAssemblyStatus`; a record may also carry no status (Java `null`). */
  datatype WorldAssemblyStatus = NonMember | Member | Delegate

  /** The shards of a nation the checker asks for. `endorsedBy` holds the names of the nations endorsing it. */
  datatype Nation = Nation(worldAssemblyStatus: Option<WorldAssemblyStatus>, regionName: string, endorsedBy: set<string>)

  /**
   * What one `execute()` of a query yields: a record, `null` for a nation or
   * region that does not exist, or a thrown `NationStatesAPIException`.
   */
  datatype Fetch<+T> = Found(value: T) | NotFound | Failed(message: string)

  /** The remote API: a nation lookup and a region lookup (a region's nation names, in the API's order). */
  datatype Api = Api(nation: string -> Fetch<Nation>, region: string -> Fetch<seq<string>>)
}
