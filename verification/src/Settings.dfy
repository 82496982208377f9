/** The configuration of internal/scheduler/scheduler.go: limits, and weights by namespace. */
module Settings {
  datatype Limits = Limits(workflows: int, tasks: int, running: int)

  datatype NamespaceConfig = NamespaceConfig(weight: int, limits: Limits)

  datatype Config = Config(global: Limits, default: NamespaceConfig, namespaces: map<string, NamespaceConfig>)

  function ConfigOf(config: Config, namespace: string): NamespaceConfig {
    if namespace in config.namespaces then config.namespaces[namespace] else config.default
  }
}
