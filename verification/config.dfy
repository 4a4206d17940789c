/**
  The run configuration and the required-field check that gates a run.

  Command-line parsing, the `.env` file and environment fallbacks are not
  modelled: `Args` holds what they produced, with `None` for a value that was
  neither passed as a flag nor set in the environment.
*/
module Config {
  import opened Wrappers

  /** The validated, immutable run parameters. */
  datatype BenchmarkConfig = BenchmarkConfig(
    endpoint: string,
    region: string,
    bucket: string,
    accessKeyId: string,
    secretAccessKey: string,
    iterations: int,
    objectSize: int
  )

  /** Parsed flags merged with their environment fallbacks and defaults. */
  datatype Args = Args(
    endpoint: string,
    region: string,
    bucket: Option<string>,
    accessKeyId: Option<string>,
    secretAccessKey: Option<string>,
    iterations: int,
    objectSize: int
  )

  /** Why a configuration is refused; either way the process exits with 1. */
  datatype ConfigError = MissingBucket | MissingCredentials

  /** A string option is truthy: present and not the empty string. */
  predicate Given(v: Option<string>) {
    v.Some? && v.value != ""
  }

  /** What every accepted configuration satisfies. */
  predicate Valid(c: BenchmarkConfig) {
    c.bucket != "" && c.accessKeyId != "" && c.secretAccessKey != ""
  }

  /** The arguments a configuration is read back from. */
  function ArgsOf(c: BenchmarkConfig): Args {
    Args(c.endpoint, c.region, Some(c.bucket), Some(c.accessKeyId), Some(c.secretAccessKey),
         c.iterations, c.objectSize)
  }

  /** The bucket is checked first; then both credentials together. */
  function LoadConfig(args: Args): (r: Result<BenchmarkConfig, ConfigError>)
    ensures r == Failure(MissingBucket) <==> !Given(args.bucket)
    ensures r == Failure(MissingCredentials)
            <==> Given(args.bucket) && !(Given(args.accessKeyId) && Given(args.secretAccessKey))
    ensures r.Success? <==> Given(args.bucket) && Given(args.accessKeyId) && Given(args.secretAccessKey)
    ensures r.Success? ==> Valid(r.value) && ArgsOf(r.value) == args
  {
    if !Given(args.bucket) then Failure(MissingBucket)
    else if !Given(args.accessKeyId) || !Given(args.secretAccessKey) then Failure(MissingCredentials)
    else Success(BenchmarkConfig(args.endpoint, args.region, args.bucket.value,
                                 args.accessKeyId.value, args.secretAccessKey.value,
                                 args.iterations, args.objectSize))
  }

  /** Every valid configuration is accepted when given back as arguments,
      and is the only configuration those arguments produce. */
  lemma LoadConfigRoundTrip(c: BenchmarkConfig)
    requires Valid(c)
    ensures LoadConfig(ArgsOf(c)) == Success(c)
  {
  }
}
