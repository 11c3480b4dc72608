/**
 * The `@FacesComponent` listener of the annotation scanner: it registers a
 * scanned component class under its component type with the application,
 * remembers the registration, and on purge rebinds the component type to the
 * `PurgedComponent` placeholder.
 */
module ComponentRegistration {

  /** `FacesComponent.class.getName()`. */
  const FacesComponentName: string := "javax.faces.component.FacesComponent"

  /** `PurgedComponent.class.getName()`. */
  const PurgedComponentName: string := "org.apache.myfaces.scripting.jsf2.annotation.purged.PurgedComponent"

  /** `Application.addComponent`: component type to component class name. */
  class Application {
    var components: map<string, string>

    constructor (components: map<string, string>)
      ensures this.components == components
    {
      this.components := components;
    }

    method AddComponent(componentType: string, className: string)
      modifies this
      ensures components == old(components)[componentType := className]
    {
      components := components[componentType := className];
    }
  }

  /** The weaver, as far as `loadScriptingClassFromName` is concerned: the names it was asked to load, oldest first. */
  class Weaver {
    var loadRequests: seq<string>

    constructor ()
      ensures loadRequests == []
    {
      loadRequests := [];
    }

    method LoadScriptingClassFromName(className: string)
      modifies this
      ensures loadRequests == old(loadRequests) + [className]
    {
      loadRequests := loadRequests + [className];
    }
  }

  /** The state `addEntity` and `purge` update together: `_alreadyRegistered` and the application's components. */
  datatype Registry = Registry(alreadyRegistered: map<string, string>, components: map<string, string>)

  /** Every registered class has its component type bound in the application. */
  predicate Covered(g: Registry) {
    forall c :: c in g.alreadyRegistered ==> g.alreadyRegistered[c] in g.components
  }

  /** `addEntity(clazz, val)` on the registry. */
  function Registered(g: Registry, className: string, componentType: string): (g': Registry)
    ensures className in g'.alreadyRegistered && g'.alreadyRegistered[className] == componentType
    ensures componentType in g'.components && g'.components[componentType] == className
    ensures forall c :: c in g.alreadyRegistered && c != className ==> c in g'.alreadyRegistered && g'.alreadyRegistered[c] == g.alreadyRegistered[c]
    ensures g'.alreadyRegistered.Keys == g.alreadyRegistered.Keys + {className}
    ensures g'.components.Keys == g.components.Keys + {componentType}
    ensures forall t :: t in g.components && t != componentType ==> g'.components[t] == g.components[t]
  {
    Registry(g.alreadyRegistered[className := componentType], g.components[componentType := className])
  }

  /** `purge(className)` on the registry. */
  function Purged(g: Registry, className: string): (g': Registry)
    ensures className !in g'.alreadyRegistered
    ensures g'.alreadyRegistered.Keys == g.alreadyRegistered.Keys - {className}
    ensures forall c :: c in g'.alreadyRegistered ==> g'.alreadyRegistered[c] == g.alreadyRegistered[c]
    ensures className !in g.alreadyRegistered ==> g' == g
    ensures className in g.alreadyRegistered ==>
              && g'.components.Keys == g.components.Keys + {g.alreadyRegistered[className]}
              && g'.components[g.alreadyRegistered[className]] == PurgedComponentName
              && forall t :: t in g.components && t != g.alreadyRegistered[className] ==> g'.components[t] == g.components[t]
  {
    if className in g.alreadyRegistered then
      var componentType := g.alreadyRegistered[className];
      Registry(g.alreadyRegistered - {className}, g.components[componentType := PurgedComponentName])
    else g
  }

  /** Registering and purging keep every registered class's component type bound. */
  lemma CoveredIsInvariant(g: Registry, className: string, componentType: string)
    requires Covered(g)
    ensures Covered(Registered(g, className, componentType))
    ensures Covered(Purged(g, className))
  {
  }

  /** Purging twice is purging once. */
  lemma PurgeIsIdempotent(g: Registry, className: string)
    ensures Purged(Purged(g, className), className) == Purged(g, className)
  {
  }

  /** A class registered and then purged leaves its component type bound to the placeholder and no trace in `_alreadyRegistered`. */
  lemma PurgeUndoesRegistration(g: Registry, className: string, componentType: string)
    requires className !in g.alreadyRegistered
    ensures var g' := Purged(Registered(g, className, componentType), className);
            && g'.alreadyRegistered == g.alreadyRegistered
            && g'.components == g.components[componentType := PurgedComponentName]
  {
    var g1 := Registered(g, className, componentType);
    assert g1.alreadyRegistered - {className} == g.alreadyRegistered;
  }

  /**
   * Purging a class whose component type has since been registered for
   * another class rebinds that type to the placeholder all the same: purge
   * does not check that the type still names the purged class.
   */
  lemma PurgeRebindsTypeWhoeverOwnsIt(g: Registry, stale: string, current: string, componentType: string)
    requires stale != current
    ensures var g' := Purged(Registered(Registered(g, stale, componentType), current, componentType), stale);
            && g'.components[componentType] == PurgedComponentName
            && current in g'.alreadyRegistered && g'.alreadyRegistered[current] == componentType
  {
    var g1 := Registered(g, stale, componentType);
    var g2 := Registered(g1, current, componentType);
    assert g2.alreadyRegistered[stale] == componentType;
  }

  /**
   * Had the inherited `purge` already removed the class's entry, this purge
   * would find nothing and leave the application's binding as it was: the
   * placeholder is bound only while the entry survives the super call.
   */
  lemma PurgeAfterRemovalRebindsNothing(g: Registry, className: string)
    ensures var removed := g.(alreadyRegistered := g.alreadyRegistered - {className});
            Purged(removed, className) == removed
  {
  }

  class ComponentImplementationListener {
    /** The annotation attribute that names the component type. */
    var entityParamValue: string
    var alreadyRegistered: map<string, string>
    const application: Application

    constructor (application: Application)
      ensures entityParamValue == "value" && alreadyRegistered == map[] && this.application == application
    {
      entityParamValue := "value";
      alreadyRegistered := map[];
      this.application := application;
    }

    /** `supportsAnnotation`: only `@FacesComponent`. */
    function SupportsAnnotation(annotation: string): (b: bool)
      ensures b <==> annotation == FacesComponentName
    {
      annotation == FacesComponentName
    }

    /** `addEntity(Class, val)`: a compiled class. */
    method AddEntity(className: string, componentType: string)
      modifies this`alreadyRegistered, application
      ensures Registry(alreadyRegistered, application.components)
              == Registered(Registry(old(alreadyRegistered), old(application.components)), className, componentType)
    {
      application.AddComponent(componentType, className);
      alreadyRegistered := alreadyRegistered[className := componentType];
    }

    /** `addEntity(JavaClass, val)`: a source class, which the weaver is asked to load first. */
    method AddEntityFromSource(weaver: Weaver, qualifiedName: string, componentType: string)
      modifies this`alreadyRegistered, application, weaver
      ensures weaver.loadRequests == old(weaver.loadRequests) + [qualifiedName]
      ensures Registry(alreadyRegistered, application.components)
              == Registered(Registry(old(alreadyRegistered), old(application.components)), qualifiedName, componentType)
    {
      weaver.LoadScriptingClassFromName(qualifiedName);
      application.AddComponent(componentType, qualifiedName);
      alreadyRegistered := alreadyRegistered[qualifiedName := componentType];
    }

    /**
     * `purge`: first the inherited `purge`, whose effect on
     * `_alreadyRegistered` is `superPurge`; then it forgets the registration
     * and binds its component type to the placeholder.
     */
    method Purge(superPurge: (map<string, string>, string) -> map<string, string>, className: string)
      modifies this`alreadyRegistered, application
      ensures Registry(alreadyRegistered, application.components)
              == Purged(Registry(superPurge(old(alreadyRegistered), className), old(application.components)), className)
    {
      alreadyRegistered := superPurge(alreadyRegistered, className);
      ghost var afterSuper := alreadyRegistered;
      var componentType := if className in alreadyRegistered then alreadyRegistered[className] else "";
      var wasRegistered := className in alreadyRegistered;
      alreadyRegistered := alreadyRegistered - {className};
      if wasRegistered {
        application.AddComponent(componentType, PurgedComponentName);
      } else {
        assert alreadyRegistered == afterSuper;
      }
    }
  }
}
