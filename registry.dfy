/** The apps a build can target and the options of one invocation. */
module Registry {

  /** An app descriptor. `appExists` says whether its scaffold was on disk
      when the run started; it is read once and not probed again. `built`
      is descriptive only: no phase decision depends on it. */
  datatype App = App(name: string, appExists: bool, built: bool)

  /** Options of one invocation: `verbosity` (default 1), `inputEnabled`
      (default true) and `update`, set by `-u` (default false). */
  datatype Options = Options(verbosity: nat, inputEnabled: bool, update: bool)

  /** The options parsed from an empty command line. */
  const DefaultOptions := Options(1, true, false)

  /** The options parsed from `-u`. */
  const UpdateOptions := Options(1, true, true)
}
