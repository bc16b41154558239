# ResourceHandlerRegistration, modelled in Dafny

This project models Spring Web MVC's `ResourceHandlerRegistration`. That class collects the
configuration for one static-resource handler and then builds the handler:

- URL path patterns, fixed at construction, with at least one required;
- resource locations, each turned into a `Resource` by a `ResourceLoader` and appended in order;
- an optional cache period in seconds;
- optional lists of resource resolvers and resource transformers, each replaced wholesale when set.

`getRequestHandler` refuses to build a handler before any location has been added. Otherwise it
creates a `ResourceHttpRequestHandler` and always passes it the locations. It passes the resolvers,
the transformers and the cache period only when they were set, so unset values keep the handler's
own defaults.

Files:

- `wrappers.dfy` (module `Wrappers`): `Option`, which stands for Java's nullable references, and `Result`.
- `resource_handler.dfy` (module `ResourceHandling`): stand-ins for the collaborators.
  - `Int32` models Java `int`.
  - `Resource`, `Resolver` and `Transformer` stand for the library types.
  - `ResourceLoader` is a total, deterministic function `string -> Resource` standing for `ResourceLoader.getResource`.
  - `RequestHandler` is a record of the four values a registration injects.
  - The handler's defaults are one `PathResourceResolver`, no transformers and a cache setting of -1, which means no cache headers.
- `registration.dfy` (module `Registration`):
  - the class `ResourceHandlerRegistration`;
  - the function `LoadAll`, which loads a list of locations, and its lemmas;
  - two client methods that build registrations with chained calls and prove what handler results.

The class keeps Java's fields. `resourceLoader` and `pathPatterns` are `const`, as they are `final`
in Java, so no method can change them. `locations` is a `seq<Resource>` that
`AddResourceLocations` grows in a loop. The three optional settings are `Option` fields. Each
setter `modifies` only its own field, returns `this`, and states the new value of its field and
the unchanged values of the others. Its contract uses the getters `GetResourceResolvers` and
`GetResourceTransformers`, which return the stored `Option` (`None` where Java returns `null`).

`getRequestHandler` checks its condition with Spring's `Assert.isTrue`, which throws
`IllegalArgumentException`. The model's error is therefore `IllegalArgument` with Spring's message.

## Model

| member | source | states |
|---|---|---|
| Registration.ResourceHandlerRegistration.constructor | spring-webmvc/src/main/java/org/springframework/web/servlet/config/annotation/ResourceHandlerRegistration.java:55-64 | requires at least one path pattern; the new registration keeps the given loader and exactly the given patterns, has no locations, and has cache period, resolvers and transformers unset |
| Registration.ResourceHandlerRegistration.AddResourceLocations | spring-webmvc/src/main/java/org/springframework/web/servlet/config/annotation/ResourceHandlerRegistration.java:66-80 | the new locations are the old ones followed by the loader's resource for each argument, in argument order (no arguments: unchanged); cache period, resolvers and transformers are unchanged; returns the same instance |
| Registration.ResourceHandlerRegistration.SetResourceResolvers | spring-webmvc/src/main/java/org/springframework/web/servlet/config/annotation/ResourceHandlerRegistration.java:82-91 | the stored resolvers become exactly the given list, replacing any earlier one, and the getter returns it; locations, cache period and transformers are unchanged; returns the same instance |
| Registration.ResourceHandlerRegistration.SetResourceTransformers | spring-webmvc/src/main/java/org/springframework/web/servlet/config/annotation/ResourceHandlerRegistration.java:93-101 | the stored transformers become exactly the given list, replacing any earlier one, and the getter returns it; locations, cache period and resolvers are unchanged; returns the same instance |
| Registration.ResourceHandlerRegistration.SetCachePeriod | spring-webmvc/src/main/java/org/springframework/web/servlet/config/annotation/ResourceHandlerRegistration.java:103-113 | the stored cache period becomes the argument, and an absent argument clears it; locations, resolvers and transformers are unchanged; returns the same instance |
| Registration.ResourceHandlerRegistration.GetPathPatterns | spring-webmvc/src/main/java/org/springframework/web/servlet/config/annotation/ResourceHandlerRegistration.java:115-120 | returns the path patterns, which are never empty for a constructed registration |
| Registration.ResourceHandlerRegistration.GetResourceResolvers | spring-webmvc/src/main/java/org/springframework/web/servlet/config/annotation/ResourceHandlerRegistration.java:122-124 | returns the stored resolver list, `None` where Java returns null; the constructor and `SetResourceResolvers` pin what that is |
| Registration.ResourceHandlerRegistration.GetResourceTransformers | spring-webmvc/src/main/java/org/springframework/web/servlet/config/annotation/ResourceHandlerRegistration.java:126-128 | returns the stored transformer list, `None` where Java returns null; the constructor and `SetResourceTransformers` pin what that is |
| Registration.ResourceHandlerRegistration.GetRequestHandler | spring-webmvc/src/main/java/org/springframework/web/servlet/config/annotation/ResourceHandlerRegistration.java:130-147 | fails with IllegalArgument and Spring's message exactly when there are no locations; otherwise the handler's locations are the registration's, and its resolvers, transformers and cache seconds are the configured values where set and the handler defaults where not; the registration is not modified |
| Registration.LoadAll | spring-webmvc/src/main/java/org/springframework/web/servlet/config/annotation/ResourceHandlerRegistration.java:76-78 | one resource per location string |
| Registration.LoadAllAt | spring-webmvc/src/main/java/org/springframework/web/servlet/config/annotation/ResourceHandlerRegistration.java:76-77 | the i-th loaded resource is the loader's answer for the i-th location, so positions follow argument order |
| Registration.LoadAllAppend | spring-webmvc/src/main/java/org/springframework/web/servlet/config/annotation/ResourceHandlerRegistration.java:75-79 | loading xs and then ys gives the same resources as loading xs + ys, so two addResourceLocations calls equal one call with the concatenated arguments |
| Registration.PublicAndClasspathExample | spring-webmvc/src/main/java/org/springframework/web/servlet/config/annotation/ResourceHandlerRegistration.java:60-146 | patterns "/resources/**", locations "/public/" then "classpath:/static/", cache period 3600: the built handler serves from both locations in that order, caches for 3600 seconds and keeps the default resolvers and transformers |
| Registration.ReplaceNotAppendExample | spring-webmvc/src/main/java/org/springframework/web/servlet/config/annotation/ResourceHandlerRegistration.java:75-146 | building before any location fails, even after adding an empty list; after resolvers are set twice, the handler gets only the second list, even an empty one, which then replaces the default PathResourceResolver |

## Left out

- How `ResourceLoader.getResource` reads location prefixes (classpath:, file, servlet context). It is a foreign call, so the model uses an arbitrary deterministic function.
- Splitting a comma-separated location list, which the doc comment at line 68 mentions. The code does not split: it passes each argument string to the loader whole, and so does the model.
- How `ResourceHttpRequestHandler` serves files and turns a cache period into headers (0 prevents caching, a positive value sets max-age). That class is not part of this model. The handler is only the record of the four injected values. Its default cache value of -1 comes from the handler's base class, which is outside this model.
- Java aliasing. The path-pattern array is stored by reference (line 63), `Arrays.asList` wraps the varargs arrays (lines 89 and 99), and `getRequestHandler` hands the registration's own list objects to the handler (lines 137, 140 and 142). The model uses immutable sequences, and the handler record holds copies by value, so later changes to a shared list are not reflected.
- `null` arguments: a `null` varargs array, or `null` elements inside one. The model's sequences cannot be `null`. The cache period can be absent, as in Java.
- Registration.ResourceHandlerRegistration.constructor: the `IllegalArgumentException` for an empty pattern list is a precondition, because a Dafny constructor cannot return an error.
- Concurrent use. The class is startup configuration and has no synchronisation.
