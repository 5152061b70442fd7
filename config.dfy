/**
 * The two configuration values the core reads. The service takes them from
 * the environment, falling back to the defaults below; the model passes a
 * `Config` value to every operation that reads one.
 */
module AppConfig {

  datatype Config = Config(encryptionKey: string, schedulerSecret: string)

  /** The values used when the environment sets neither variable. */
  const Defaults: Config := Config("", "scheduler-secret-change-in-production")
}
