/** `WorkerConfig.Validate` of config/worker.go. */
module ConfigWorker {
  import opened Base
  import opened ConfigCommon

  datatype WorkerConfig = WorkerConfig(
    enable: bool, workerType: int, maxConcurrency: int, redisAddresses: seq<string>,
    redisUsername: string, redisPassword: string, redisDatabase: int)

  const AddressError := InvalidConfigurationParameter("Worker address", "Should not be empty")

  /** An enabled worker needs at least one Redis address. */
  function Validate(c: WorkerConfig): (err: Option<ConfigError>)
    ensures err.Some? <==> c.enable && |c.redisAddresses| == 0
    ensures err.Some? ==> err.value == AddressError
  {
    if c.enable && |c.redisAddresses| < 1 then Some(AddressError) else None
  }

  /** Type, concurrency and credentials play no part. */
  lemma ValidateIgnoresOtherFields(c: WorkerConfig, t: int, m: int, u: string, p: string, d: int)
    ensures Validate(c.(workerType := t, maxConcurrency := m, redisUsername := u, redisPassword := p, redisDatabase := d)) == Validate(c)
  {
  }
}
