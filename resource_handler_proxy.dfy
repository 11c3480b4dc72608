/**
 * The weaving resource handler of the JSF 2 extensions: the resource
 * creating and serving operations rebind the delegate through the weaver
 * before they forward, the two queries forward to the delegate as it is.
 */
module ResourceHandlerDecorator {
  import opened Wrappers
  import opened Weaving

  /** What the delegate resource handler answers, for a given delegate. */
  datatype ResourceHandlerHost = ResourceHandlerHost(
    weaving: WeavingContext,
    createResource: (Obj, string) -> Ref,
    createLibraryResource: (Obj, string, string) -> Ref,
    createTypedResource: (Obj, string, string, string) -> Ref,
    /** `null` is `None`. */
    getRendererTypeForResourceName: (Obj, string) -> Option<string>,
    isResourceRequest: (Obj, Obj) -> bool,
    libraryExists: (Obj, string) -> bool)

  /** A call on the proxy, with its arguments (a `FacesContext` is an `Obj`). */
  datatype ResourceCall =
    | CreateResourceCall(resourceName: string)
    | CreateLibraryResourceCall(resourceName: string, libraryName: string)
    | CreateTypedResourceCall(resourceName: string, libraryName: string, contentType: string)
    | GetRendererTypeCall(resourceName: string)
    | HandleResourceRequestCall(context: Obj)
    | IsResourceRequestCall(context: Obj)
    | LibraryExistsCall(libraryName: string)

  /** The calls that rebind the delegate first. */
  predicate Rebinds(c: ResourceCall) {
    !c.IsResourceRequestCall? && !c.LibraryExistsCall?
  }

  /** The delegate after `n` rebindings of `d`. */
  function WovenTimes(w: WeavingContext, d: Obj, n: nat): Obj {
    if n == 0 then d else w.reload(WovenTimes(w, d, n - 1), ResourceHandler)
  }

  /** How many of `calls` rebind the delegate: none exactly when all are queries, all exactly when none is. */
  function RebindCount(calls: seq<ResourceCall>): (n: nat)
    ensures n <= |calls|
    ensures n == 0 <==> forall i :: 0 <= i < |calls| ==> !Rebinds(calls[i])
    ensures n == |calls| <==> forall i :: 0 <= i < |calls| ==> Rebinds(calls[i])
  {
    if calls == [] then 0
    else
      var earlier := calls[..|calls| - 1];
      assert forall i :: 0 <= i < |earlier| ==> earlier[i] == calls[i];
      RebindCount(earlier) + (if Rebinds(calls[|calls| - 1]) then 1 else 0)
  }

  /** Counting is additive: the rebinds of two runs of calls add up. */
  lemma {:induction false} RebindCountAppend(a: seq<ResourceCall>, b: seq<ResourceCall>)
    ensures RebindCount(a + b) == RebindCount(a) + RebindCount(b)
    decreases |b|
  {
    if b != [] {
      var b' := b[..|b| - 1];
      assert (a + b)[..|a + b| - 1] == a + b';
      RebindCountAppend(a, b');
    } else {
      assert a + b == a;
    }
  }

  /** The delegate after a sequence of calls on a proxy whose delegate was `d`, call by call. */
  function DelegateAfter(w: WeavingContext, d: Obj, calls: seq<ResourceCall>): Obj
    decreases |calls|
  {
    if calls == [] then d
    else
      var before := DelegateAfter(w, d, calls[..|calls| - 1]);
      if Rebinds(calls[|calls| - 1]) then w.reload(before, ResourceHandler) else before
  }

  /** The delegate depends only on how many rebinding calls were made: the queries never move it. */
  lemma {:induction false} DelegateAfterCountsRebinds(w: WeavingContext, d: Obj, calls: seq<ResourceCall>)
    ensures DelegateAfter(w, d, calls) == WovenTimes(w, d, RebindCount(calls))
    decreases |calls|
  {
    if calls != [] {
      DelegateAfterCountsRebinds(w, d, calls[..|calls| - 1]);
    }
  }

  /** A run of queries alone leaves the delegate where it was. */
  lemma QueriesKeepDelegate(w: WeavingContext, d: Obj, calls: seq<ResourceCall>)
    requires forall i :: 0 <= i < |calls| ==> !Rebinds(calls[i])
    ensures DelegateAfter(w, d, calls) == d
  {
    DelegateAfterCountsRebinds(w, d, calls);
  }

  class ResourceHandlerProxy {
    var delegate: Obj
    /** The `handleResourceRequest` calls forwarded to a delegate, oldest first: (delegate, context). */
    var handledRequests: seq<(Obj, Obj)>

    constructor (delegate: Obj)
      ensures this.delegate == delegate && handledRequests == []
    {
      this.delegate := delegate;
      handledRequests := [];
    }

    /** `weaveDelegate`: the delegate becomes the weaver's result for it, as a resource handler. */
    method WeaveDelegate(w: WeavingContext)
      modifies this`delegate
      ensures delegate == w.reload(old(delegate), ResourceHandler)
    {
      delegate := w.reload(delegate, ResourceHandler);
    }

    /** `createResource(resourceName)`. */
    method CreateResource(host: ResourceHandlerHost, resourceName: string) returns (r: Ref)
      modifies this`delegate
      ensures delegate == DelegateAfter(host.weaving, old(delegate), [CreateResourceCall(resourceName)])
      ensures r == host.createResource(delegate, resourceName)
    {
      WeaveDelegate(host.weaving);
      r := host.createResource(delegate, resourceName);
    }

    /** `createResource(resourceName, libraryName)`. */
    method CreateLibraryResource(host: ResourceHandlerHost, resourceName: string, libraryName: string) returns (r: Ref)
      modifies this`delegate
      ensures delegate == DelegateAfter(host.weaving, old(delegate), [CreateLibraryResourceCall(resourceName, libraryName)])
      ensures r == host.createLibraryResource(delegate, resourceName, libraryName)
    {
      WeaveDelegate(host.weaving);
      r := host.createLibraryResource(delegate, resourceName, libraryName);
    }

    /** `createResource(resourceName, libraryName, contentType)`. */
    method CreateTypedResource(host: ResourceHandlerHost, resourceName: string, libraryName: string, contentType: string)
      returns (r: Ref)
      modifies this`delegate
      ensures delegate == DelegateAfter(host.weaving, old(delegate),
                                        [CreateTypedResourceCall(resourceName, libraryName, contentType)])
      ensures r == host.createTypedResource(delegate, resourceName, libraryName, contentType)
    {
      WeaveDelegate(host.weaving);
      r := host.createTypedResource(delegate, resourceName, libraryName, contentType);
    }

    /** `getRendererTypeForResourceName`. */
    method GetRendererTypeForResourceName(host: ResourceHandlerHost, resourceName: string) returns (r: Option<string>)
      modifies this`delegate
      ensures delegate == DelegateAfter(host.weaving, old(delegate), [GetRendererTypeCall(resourceName)])
      ensures r == host.getRendererTypeForResourceName(delegate, resourceName)
    {
      WeaveDelegate(host.weaving);
      r := host.getRendererTypeForResourceName(delegate, resourceName);
    }

    /** `handleResourceRequest`: the rebound delegate serves the request. */
    method HandleResourceRequest(host: ResourceHandlerHost, context: Obj)
      modifies this
      ensures delegate == DelegateAfter(host.weaving, old(delegate), [HandleResourceRequestCall(context)])
      ensures handledRequests == old(handledRequests) + [(delegate, context)]
    {
      WeaveDelegate(host.weaving);
      handledRequests := handledRequests + [(delegate, context)];
    }

    /** `isResourceRequest`: forwarded to the delegate as it is. */
    method IsResourceRequest(host: ResourceHandlerHost, context: Obj) returns (b: bool)
      ensures b == host.isResourceRequest(delegate, context)
      ensures delegate == DelegateAfter(host.weaving, delegate, [IsResourceRequestCall(context)])
    {
      b := host.isResourceRequest(delegate, context);
    }

    /** `libraryExists`: forwarded to the delegate as it is. */
    method LibraryExists(host: ResourceHandlerHost, libraryName: string) returns (b: bool)
      ensures b == host.libraryExists(delegate, libraryName)
      ensures delegate == DelegateAfter(host.weaving, delegate, [LibraryExistsCall(libraryName)])
    {
      b := host.libraryExists(delegate, libraryName);
    }
  }
}
