/**
 * What the weaving proxies see of the scripting runtime. The weaver,
 * `WeavingContext.isDynamic` and `Object.toString` are functions the model
 * does not look into.
 */
module Weaving {

  /** The `ScriptingConst.ARTEFACT_TYPE_*` a reload is asked for. */
  datatype ArtefactType = RenderKit | Renderer | ResponseWriter | ResponseStream | ResourceHandler

  /** A Java object: the name of its runtime class and an identity. */
  datatype Obj = Obj(className: string, identity: nat)

  /** A possibly null reference. */
  datatype Ref = Null | NonNull(obj: Obj)

  datatype WeavingContext = WeavingContext(
    /** `getWeaver().reloadScriptingInstance(o, artefactType)`. */
    reload: (Obj, ArtefactType) -> Obj,
    /** `isDynamic(o.getClass())`, by class name. */
    isDynamic: string -> bool,
    /** `o.toString()`. */
    toString: Obj -> string)
}
