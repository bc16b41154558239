/** Stand-ins for the collaborators of the registration: the resources a
    `ResourceLoader` produces, the resolver and transformer strategies, and the
    `ResourceHttpRequestHandler` that receives the configured values. Only what
    the registration passes into the handler is modelled. */
module ResourceHandling {

  /** Java's `int`: a 32-bit two's-complement integer. */
  newtype Int32 = x: int | -0x8000_0000 <= x < 0x8000_0000

  /** A resource handle as produced by the loader; only its identity matters. */
  datatype Resource = Resource(description: string)

  /** `ResourceLoader.getResource`: a deterministic map from a location string
      to a resource. How prefixes such as "classpath:" are interpreted is the
      loader's business and is not modelled. */
  type ResourceLoader = string -> Resource

  /** A strategy mapping a request path to a resource. `PathResourceResolver`
      is the handler's built-in default. */
  datatype Resolver = PathResourceResolver | CustomResolver(name: string)

  /** A strategy that post-processes a resolved resource. */
  datatype Transformer = Transformer(name: string)

  /** The four values a `ResourceHttpRequestHandler` receives from a registration. */
  datatype RequestHandler = RequestHandler(
    locations: seq<Resource>,
    resourceResolvers: seq<Resolver>,
    resourceTransformers: seq<Transformer>,
    cacheSeconds: Int32)

  /** By default the handler resolves through a `PathResourceResolver` alone. */
  const DefaultResolvers: seq<Resolver> := [PathResourceResolver]

  /** By default the handler has no transformers. */
  const DefaultTransformers: seq<Transformer> := []

  /** The handler's own cache setting when none is given: a negative value,
      meaning that no cache headers are sent and only last-modified timestamps
      are relied on. */
  const DefaultCacheSeconds: Int32 := -1

  /** A freshly constructed handler: no locations, and every other value at its default. */
  const NewRequestHandler: RequestHandler :=
    RequestHandler([], DefaultResolvers, DefaultTransformers, DefaultCacheSeconds)
}
