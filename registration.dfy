/** The registration of one static-resource handler: URL path patterns fixed at
    construction, resource locations appended in order, and optional cache
    period, resolvers and transformers, from which a request handler is built. */
module Registration {
  import opened Wrappers
  import opened ResourceHandling

  /** The exceptions the registration throws; Spring's `Assert` raises
      `IllegalArgumentException` with the given message. */
  datatype Error = IllegalArgument(message: string)

  const LocationRequired := "At least one location is required for resource handling."

  /** The resources the loader yields for the given location strings, in order. */
  function LoadAll(loader: ResourceLoader, locations: seq<string>): (r: seq<Resource>)
    ensures |r| == |locations|
  {
    if locations == [] then [] else [loader(locations[0])] + LoadAll(loader, locations[1..])
  }

  /** The i-th resource is the loader's answer for the i-th location. */
  lemma {:induction false} LoadAllAt(loader: ResourceLoader, locations: seq<string>, i: nat)
    requires i < |locations|
    ensures LoadAll(loader, locations)[i] == loader(locations[i])
  {
    if i > 0 {
      LoadAllAt(loader, locations[1..], i - 1);
    }
  }

  /** Loading two lists one after the other gives the same resources as
      loading their concatenation. */
  lemma {:induction false} LoadAllAppend(loader: ResourceLoader, xs: seq<string>, ys: seq<string>)
    ensures LoadAll(loader, xs + ys) == LoadAll(loader, xs) + LoadAll(loader, ys)
  {
    if xs == [] {
      assert xs + ys == ys;
    } else {
      assert (xs + ys)[1..] == xs[1..] + ys;
      LoadAllAppend(loader, xs[1..], ys);
    }
  }

  class ResourceHandlerRegistration {
    const resourceLoader: ResourceLoader
    const pathPatterns: seq<string>
    var locations: seq<Resource>
    var cachePeriod: Option<Int32>
    var resourceResolvers: Option<seq<Resolver>>
    var resourceTransformers: Option<seq<Transformer>>

    /** At least one path pattern. It reads only the `const` field `pathPatterns`,
        so it is the constructor's check made explicit: once established it holds
        for the object's whole life, and no setter has to maintain it. */
    ghost predicate Valid()
      reads this
    {
      |pathPatterns| > 0
    }

    /** Requires at least one path pattern; starts with no locations and with
        cache period, resolvers and transformers unset. */
    constructor (resourceLoader: ResourceLoader, pathPatterns: seq<string>)
      requires |pathPatterns| > 0
      ensures Valid()
      ensures this.resourceLoader == resourceLoader
      ensures GetPathPatterns() == pathPatterns
      ensures locations == []
      ensures cachePeriod == None
      ensures GetResourceResolvers() == None && GetResourceTransformers() == None
    {
      this.resourceLoader := resourceLoader;
      this.pathPatterns := pathPatterns;
      locations := [];
      cachePeriod := None;
      resourceResolvers := None;
      resourceTransformers := None;
    }

    /** Appends the resources for the given locations after those already
        present, in argument order: earlier locations take precedence. */
    method AddResourceLocations(resourceLocations: seq<string>) returns (result: ResourceHandlerRegistration)
      requires Valid()
      modifies this`locations
      ensures Valid() && result == this
      ensures locations == old(locations) + LoadAll(resourceLoader, resourceLocations)
      ensures cachePeriod == old(cachePeriod)
      ensures resourceResolvers == old(resourceResolvers)
      ensures resourceTransformers == old(resourceTransformers)
    {
      for i := 0 to |resourceLocations|
        invariant locations == old(locations) + LoadAll(resourceLoader, resourceLocations[..i])
      {
        LoadAllAppend(resourceLoader, resourceLocations[..i], [resourceLocations[i]]);
        assert resourceLocations[..i + 1] == resourceLocations[..i] + [resourceLocations[i]];
        locations := locations + [resourceLoader(resourceLocations[i])];
      }
      assert resourceLocations[..|resourceLocations|] == resourceLocations;
      result := this;
    }

    /** Replaces the resolver list with exactly the given one (possibly empty). */
    method SetResourceResolvers(resolvers: seq<Resolver>) returns (result: ResourceHandlerRegistration)
      requires Valid()
      modifies this`resourceResolvers
      ensures Valid() && result == this
      ensures GetResourceResolvers() == Some(resolvers)
      ensures locations == old(locations)
      ensures cachePeriod == old(cachePeriod)
      ensures resourceTransformers == old(resourceTransformers)
    {
      resourceResolvers := Some(resolvers);
      result := this;
    }

    /** Replaces the transformer list with exactly the given one (possibly empty). */
    method SetResourceTransformers(transformers: seq<Transformer>) returns (result: ResourceHandlerRegistration)
      requires Valid()
      modifies this`resourceTransformers
      ensures Valid() && result == this
      ensures GetResourceTransformers() == Some(transformers)
      ensures locations == old(locations)
      ensures cachePeriod == old(cachePeriod)
      ensures resourceResolvers == old(resourceResolvers)
    {
      resourceTransformers := Some(transformers);
      result := this;
    }

    /** Stores the cache period in seconds; `None` clears an earlier value. */
    method SetCachePeriod(period: Option<Int32>) returns (result: ResourceHandlerRegistration)
      requires Valid()
      modifies this`cachePeriod
      ensures Valid() && result == this
      ensures cachePeriod == period
      ensures locations == old(locations)
      ensures resourceResolvers == old(resourceResolvers)
      ensures resourceTransformers == old(resourceTransformers)
    {
      cachePeriod := period;
      result := this;
    }

    /** The URL path patterns given at construction; never empty. */
    function GetPathPatterns(): (patterns: seq<string>)
      reads this
      requires Valid()
      ensures |patterns| > 0
    {
      pathPatterns
    }

    /** The resolvers last set, or `None` when never set. */
    function GetResourceResolvers(): (resolvers: Option<seq<Resolver>>)
      reads this
      ensures resolvers == resourceResolvers
    {
      resourceResolvers
    }

    /** The transformers last set, or `None` when never set. */
    function GetResourceTransformers(): (transformers: Option<seq<Transformer>>)
      reads this
      ensures transformers == resourceTransformers
    {
      resourceTransformers
    }

    /** Builds the request handler: fails when no location was added; otherwise
        the handler gets the locations, and the resolvers, transformers and cache
        period only where they were set, keeping its own defaults elsewhere.
        The registration itself is left as it was. */
    method GetRequestHandler() returns (result: Result<RequestHandler, Error>)
      ensures result.Failure? <==> locations == []
      ensures result.Failure? ==> result.error == IllegalArgument(LocationRequired)
      ensures result.Success? ==> result.value.locations == locations
      ensures result.Success? ==>
        result.value.resourceResolvers ==
          (if resourceResolvers.Some? then resourceResolvers.value else DefaultResolvers)
      ensures result.Success? ==>
        result.value.resourceTransformers ==
          (if resourceTransformers.Some? then resourceTransformers.value else DefaultTransformers)
      ensures result.Success? ==>
        result.value.cacheSeconds ==
          (if cachePeriod.Some? then cachePeriod.value else DefaultCacheSeconds)
    {
      if |locations| == 0 {
        return Failure(IllegalArgument(LocationRequired));
      }
      var handler := NewRequestHandler;
      if resourceResolvers.Some? {
        handler := handler.(resourceResolvers := resourceResolvers.value);
      }
      if resourceTransformers.Some? {
        handler := handler.(resourceTransformers := resourceTransformers.value);
      }
      handler := handler.(locations := locations);
      if cachePeriod.Some? {
        handler := handler.(cacheSeconds := cachePeriod.value);
      }
      result := Success(handler);
    }
  }

  /** A registration for the pattern under "/resources/" serving from "/public/" and then from
      "classpath:/static/" with a one-hour cache period, built with chained calls. */
  method PublicAndClasspathExample(loader: ResourceLoader) returns (handler: Result<RequestHandler, Error>)
    ensures handler == Success(RequestHandler(
      [loader("/public/"), loader("classpath:/static/")], DefaultResolvers, DefaultTransformers, 3600))
  {
    var registration := new ResourceHandlerRegistration(loader, ["/resources/**"]);
    var chained := registration.AddResourceLocations(["/public/", "classpath:/static/"]);
    chained := chained.SetCachePeriod(Some(3600));
    LoadAllAt(loader, ["/public/", "classpath:/static/"], 0);
    LoadAllAt(loader, ["/public/", "classpath:/static/"], 1);
    assert registration.locations == [loader("/public/"), loader("classpath:/static/")];
    handler := chained.GetRequestHandler();
  }

  /** Setting resolvers twice keeps only the second list, even an empty one;
      building before any location is added fails, and adding none changes
      nothing. */
  method ReplaceNotAppendExample(loader: ResourceLoader, first: seq<Resolver>, second: seq<Resolver>, location: string)
    returns (before: Result<RequestHandler, Error>, after: Result<RequestHandler, Error>)
    ensures before == Failure(IllegalArgument(LocationRequired))
    ensures after == Success(RequestHandler([loader(location)], second, DefaultTransformers, DefaultCacheSeconds))
  {
    var registration := new ResourceHandlerRegistration(loader, ["/assets/**"]);
    var chained := registration.SetResourceResolvers(first);
    chained := chained.AddResourceLocations([]);
    before := chained.GetRequestHandler();
    chained := chained.SetResourceResolvers(second);
    chained := chained.AddResourceLocations([location]);
    LoadAllAt(loader, [location], 0);
    assert registration.locations == [loader(location)];
    after := chained.GetRequestHandler();
  }
}
