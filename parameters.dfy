/** The run's settings (include/Params.hpp). */
module Parameters {

  /** The INFO keys kept by default. */
  const DEFAULT_KEEP_FIELDS: set<string> := {"AC", "AF", "AN", "DP"}

  datatype Params = Params(
    inputFilename: string,
    outputFilename: string,
    filetype: string,
    keepFields: set<string>)

  /** A default-constructed Params: empty strings and the default keep set. */
  const DEFAULT_PARAMS: Params := Params("", "", "", DEFAULT_KEEP_FIELDS)
}
