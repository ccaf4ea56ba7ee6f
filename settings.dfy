/** The records of the `ICachePurgingSettings` registry interface that the
    rewriter and the utilities read. */
module Settings {

  /** `enabled`, `virtualHosting` and `domains` of the registry; a `domains`
      value of `None` reads as the empty tuple. */
  datatype CachePurgingSettings = CachePurgingSettings(enabled: bool, virtualHosting: bool, domains: seq<string>)
}
