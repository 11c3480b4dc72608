/**
 * The weaving render kit of the JSF 1.2 extensions: before every operation it
 * rebinds its delegate through the weaver, and it reloads the renderers,
 * response writers and response streams it hands out at most once per
 * request, remembering in request attributes which ones it has rewoven.
 */
module RenderKitDecorator {
  import opened Wrappers
  import opened Platform
  import opened Weaving

  /** The current `ServletRequest`: the names of the attributes that hold a value. */
  class Request {
    var attributes: set<string>

    constructor (attributes: set<string>)
      ensures this.attributes == attributes
    {
      this.attributes := attributes;
    }
  }

  /** `WeavingContext.getRefreshContext()`, as far as `addRenderer` writes it. */
  class RefreshContext {
    /** Renderer class name to component family. */
    var rendererComponentDependencies: map<string, string>

    constructor ()
      ensures rendererComponentDependencies == map[]
    {
      rendererComponentDependencies := map[];
    }
  }

  /** The weaving runtime and what the delegate render kit answers. */
  datatype RenderKitHost = RenderKitHost(
    weaving: WeavingContext,
    /** `ScriptingConst.SCRIPTING_REQUSINGLETON`, the prefix of the marker attributes. */
    requestSingleton: string,
    getRenderer: (Obj, string, string) -> Ref,
    getResponseStateManager: Obj -> Ref,
    createResponseWriter: (Obj, Ref, string, string) -> Ref,
    createResponseStream: (Obj, Ref) -> Ref)

  /** One `addRenderer` call as it reached a delegate. */
  datatype RendererRegistration = RendererRegistration(
    renderKit: Obj, componentFamily: string, rendererType: string, renderer: Ref)

  /** The request attribute that marks `key` as woven in this request. */
  function Marker(prefix: string, key: string): string {
    prefix + key
  }

  /** `reloadInstance` reweaves `instance`: it is dynamic and not yet marked in the request. */
  predicate Weaves(w: WeavingContext, prefix: string, attributes: set<string>, instance: Ref) {
    instance.NonNull? && w.isDynamic(instance.obj.className) && Marker(prefix, w.toString(instance.obj)) !in attributes
  }

  /**
   * `reloadInstance`: the instance it returns and the request attributes
   * afterwards. Null and static instances, and instances already marked in
   * the request, come back as they are with the attributes untouched; any
   * other is replaced by the weaver's result, and both the old and the new
   * instance are marked.
   */
  function Reload(w: WeavingContext, prefix: string, attributes: set<string>, instance: Ref, t: ArtefactType)
    : (out: (Ref, set<string>))
    ensures !Weaves(w, prefix, attributes, instance) ==> out == (instance, attributes)
    ensures Weaves(w, prefix, attributes, instance) ==>
              var woven := w.reload(instance.obj, t);
              && out.0 == NonNull(woven)
              && out.1 == attributes + {Marker(prefix, w.toString(instance.obj)), Marker(prefix, w.toString(woven))}
  {
    if instance.NonNull? && w.isDynamic(instance.obj.className) then
      var key := Marker(prefix, w.toString(instance.obj));
      if key !in attributes then
        var woven := w.reload(instance.obj, t);
        (NonNull(woven), attributes + {key} + {Marker(prefix, w.toString(woven))})
      else (instance, attributes)
    else (instance, attributes)
  }

  /**
   * A sequence of `reloadInstance` calls within one request: the request
   * attributes afterwards and the keys (`toString` of the instance) that were
   * rewoven, in order.
   */
  function ReloadRun(w: WeavingContext, prefix: string, attributes: set<string>, calls: seq<(Ref, ArtefactType)>)
    : (set<string>, seq<string>)
    decreases |calls|
  {
    if calls == [] then (attributes, [])
    else
      var (before, woven) := ReloadRun(w, prefix, attributes, calls[..|calls| - 1]);
      var (instance, t) := calls[|calls| - 1];
      var after := Reload(w, prefix, before, instance, t).1;
      if Weaves(w, prefix, before, instance) then (after, woven + [w.toString(instance.obj)])
      else (after, woven)
  }

  /**
   * Within one request no key is rewoven twice, nor one that was marked when
   * the request reached the proxy; the attributes only grow, and every
   * rewoven key is marked.
   */
  lemma {:induction false} EachKeyRewovenAtMostOncePerRequest(w: WeavingContext, prefix: string, attributes: set<string>,
                                                              calls: seq<(Ref, ArtefactType)>)
    ensures attributes <= ReloadRun(w, prefix, attributes, calls).0
    ensures var (after, woven) := ReloadRun(w, prefix, attributes, calls);
            forall i :: 0 <= i < |woven| ==> Marker(prefix, woven[i]) in after && Marker(prefix, woven[i]) !in attributes
    ensures var woven := ReloadRun(w, prefix, attributes, calls).1;
            forall i, j :: 0 <= i < j < |woven| ==> woven[i] != woven[j]
    decreases |calls|
  {
    if calls != [] {
      var earlier := calls[..|calls| - 1];
      EachKeyRewovenAtMostOncePerRequest(w, prefix, attributes, earlier);
      var (before, woven) := ReloadRun(w, prefix, attributes, earlier);
      var (instance, t) := calls[|calls| - 1];
      if Weaves(w, prefix, before, instance) {
        var key := w.toString(instance.obj);
        assert forall i :: 0 <= i < |woven| ==> woven[i] != key by {
          forall i | 0 <= i < |woven| ensures woven[i] != key {
            assert Marker(prefix, woven[i]) in before;
          }
        }
      }
    }
  }

  /** A second `reloadInstance` of the same instance, or of its rewoven replacement, in the same request returns it unchanged. */
  lemma ReloadAgainIsIdentity(w: WeavingContext, prefix: string, attributes: set<string>, instance: Ref, t: ArtefactType, t': ArtefactType)
    ensures var (result, after) := Reload(w, prefix, attributes, instance, t);
            && Reload(w, prefix, after, instance, t') == (instance, after)
            && Reload(w, prefix, after, result, t') == (result, after)
  {
  }

  class RenderkitProxy {
    var delegate: Obj
    /** The `addRenderer` calls forwarded to a delegate, oldest first. */
    var forwardedRenderers: seq<RendererRegistration>

    constructor (delegate: Obj)
      ensures this.delegate == delegate && forwardedRenderers == []
    {
      this.delegate := delegate;
      forwardedRenderers := [];
    }

    /** `weaveDelegate`: the delegate becomes the weaver's result for it, as a render kit. */
    method WeaveDelegate(w: WeavingContext)
      modifies this`delegate
      ensures delegate == w.reload(old(delegate), RenderKit)
    {
      delegate := w.reload(delegate, RenderKit);
    }

    /** `alreadyWovenInRequest`: test-and-set of the marker of `key`. */
    method AlreadyWovenInRequest(req: Request, prefix: string, key: string) returns (marked: bool)
      modifies req
      ensures marked == (Marker(prefix, key) in old(req.attributes))
      ensures req.attributes == old(req.attributes) + {Marker(prefix, key)}
    {
      if Marker(prefix, key) !in req.attributes {
        req.attributes := req.attributes + {Marker(prefix, key)};
        return false;
      }
      return true;
    }

    /** `reloadInstance`. */
    method ReloadInstance(w: WeavingContext, prefix: string, req: Request, instance: Ref, t: ArtefactType) returns (r: Ref)
      modifies req
      ensures (r, req.attributes) == Reload(w, prefix, old(req.attributes), instance, t)
    {
      if instance.Null? {
        return Null;
      }
      r := instance;
      if w.isDynamic(instance.obj.className) {
        var marked := AlreadyWovenInRequest(req, prefix, w.toString(instance.obj));
        if marked {
          assert req.attributes == old(req.attributes);
        } else {
          var woven := w.reload(instance.obj, t);
          r := NonNull(woven);
          marked := AlreadyWovenInRequest(req, prefix, w.toString(woven));
        }
      }
    }

    /**
     * `addRenderer`: forwards the possibly reloaded renderer to the rebound
     * delegate, then records its class name under the component family. A
     * null renderer is forwarded and then fails on `getClass()`.
     */
    method AddRenderer(host: RenderKitHost, req: Request, refresh: RefreshContext,
                       componentFamily: string, rendererType: string, renderer: Ref) returns (outcome: Result<(), JavaThrowable>)
      modifies this, req, refresh
      ensures delegate == host.weaving.reload(old(delegate), RenderKit)
      ensures var (reloaded, after) := Reload(host.weaving, host.requestSingleton, old(req.attributes), renderer, Renderer);
              && req.attributes == after
              && forwardedRenderers == old(forwardedRenderers) + [RendererRegistration(delegate, componentFamily, rendererType, reloaded)]
              && (reloaded.Null? ==>
                    outcome == Failure(NullPointerException)
                    && refresh.rendererComponentDependencies == old(refresh.rendererComponentDependencies))
              && (reloaded.NonNull? ==>
                    outcome == Success(())
                    && refresh.rendererComponentDependencies
                       == old(refresh.rendererComponentDependencies)[reloaded.obj.className := componentFamily])
    {
      WeaveDelegate(host.weaving);
      var reloaded := ReloadInstance(host.weaving, host.requestSingleton, req, renderer, Renderer);
      forwardedRenderers := forwardedRenderers + [RendererRegistration(delegate, componentFamily, rendererType, reloaded)];
      if reloaded.Null? {
        return Failure(NullPointerException);
      }
      refresh.rendererComponentDependencies := refresh.rendererComponentDependencies[reloaded.obj.className := componentFamily];
      return Success(());
    }

    /** `getRenderer`: the rebound delegate's renderer, reloaded at most once per request. */
    method GetRenderer(host: RenderKitHost, req: Request, componentFamily: string, rendererType: string) returns (r: Ref)
      modifies this`delegate, req
      ensures delegate == host.weaving.reload(old(delegate), RenderKit)
      ensures (r, req.attributes)
              == Reload(host.weaving, host.requestSingleton, old(req.attributes),
                        host.getRenderer(delegate, componentFamily, rendererType), Renderer)
    {
      WeaveDelegate(host.weaving);
      r := ReloadInstance(host.weaving, host.requestSingleton, req, host.getRenderer(delegate, componentFamily, rendererType), Renderer);
    }

    /** `getResponseStateManager`: the rebound delegate's answer, not reloaded. */
    method GetResponseStateManager(host: RenderKitHost) returns (r: Ref)
      modifies this`delegate
      ensures delegate == host.weaving.reload(old(delegate), RenderKit)
      ensures r == host.getResponseStateManager(delegate)
    {
      WeaveDelegate(host.weaving);
      r := host.getResponseStateManager(delegate);
    }

    /** `createResponseWriter`: the rebound delegate's writer, reloaded at most once per request. */
    method CreateResponseWriter(host: RenderKitHost, req: Request, writer: Ref, contentTypeList: string, characterEncoding: string)
      returns (r: Ref)
      modifies this`delegate, req
      ensures delegate == host.weaving.reload(old(delegate), RenderKit)
      ensures (r, req.attributes)
              == Reload(host.weaving, host.requestSingleton, old(req.attributes),
                        host.createResponseWriter(delegate, writer, contentTypeList, characterEncoding), ResponseWriter)
    {
      WeaveDelegate(host.weaving);
      r := ReloadInstance(host.weaving, host.requestSingleton, req,
                          host.createResponseWriter(delegate, writer, contentTypeList, characterEncoding), ResponseWriter);
    }

    /** `createResponseStream`: the rebound delegate's stream, reloaded at most once per request. */
    method CreateResponseStream(host: RenderKitHost, req: Request, outputStream: Ref) returns (r: Ref)
      modifies this`delegate, req
      ensures delegate == host.weaving.reload(old(delegate), RenderKit)
      ensures (r, req.attributes)
              == Reload(host.weaving, host.requestSingleton, old(req.attributes),
                        host.createResponseStream(delegate, outputStream), ResponseStream)
    {
      WeaveDelegate(host.weaving);
      r := ReloadInstance(host.weaving, host.requestSingleton, req, host.createResponseStream(delegate, outputStream), ResponseStream);
    }

    /** `getDelegate`: the only operation that does not rebind first. */
    method GetDelegate() returns (d: Obj)
      ensures d == delegate
    {
      d := delegate;
    }
  }
}
