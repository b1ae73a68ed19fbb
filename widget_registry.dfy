/** The widget registry (`utils/widget-registry.ts`): a fixed table of
    lazy widget loaders keyed by name, and a cache of the factories that
    loaded. */
module WidgetRegistry {
  import opened Wrappers
  import opened JsRuntime

  /** The registry keys, in declaration order. */
  const Names := ["workspaces", "tray", "volume", "clock", "feed", "vpn",
                  "proxyforge", "audio", "wifi", "bluetooth", "weather"]

  /** A widget factory: the registry key it was loaded for, and which load
      produced it (each load builds a new closure). */
  datatype Factory = Factory(name: string, serial: nat)

  /** `getWidgetNames`: `Object.keys(widgetRegistry)`. */
  function WidgetNames(): seq<string>
  {
    Names
  }

  /** `hasWidget` as intended: `name` is a key of the registry. */
  predicate HasWidget(name: string): (r: bool)
    ensures r <==> name in WidgetNames()
    ensures r ==> name !in ObjectPrototypeNames
  {
    assert name in Names ==> name !in ObjectPrototypeNames by {
      forall k | 0 <= k < |Names|
        ensures Names[k] !in ObjectPrototypeNames
      {
        assert forall m :: 0 <= m < |ObjectPrototypeNames| ==>
                 Names[k][0] != ObjectPrototypeNames[m][0] || |Names[k]| != |ObjectPrototypeNames[m]|;
      }
    }
    name in Names
  }

  /** `hasWidget` as written: `name in widgetRegistry`, which also holds
      for the names the registry inherits. */
  predicate HasWidgetAsWritten(name: string)
  {
    name in Names || name in ObjectPrototypeNames
  }

  /** The registry has eleven distinct keys, `hasWidget` holds exactly for
      them, and none of them is an inherited name. */
  lemma {:induction false} RegistryKeys()
    ensures |WidgetNames()| == 11
    ensures forall i, j :: 0 <= i < j < |Names| ==> Names[i] != Names[j]
    ensures forall name :: HasWidget(name) <==> name in WidgetNames()
    ensures forall k :: 0 <= k < |Names| ==> HasWidget(Names[k]) && Names[k] !in ObjectPrototypeNames
  {
    forall i, j | 0 <= i < j < |Names|
      ensures Names[i] != Names[j]
    {
      assert Names[i][0] != Names[j][0] || |Names[i]| != |Names[j]|;
    }
    forall k | 0 <= k < |Names|
      ensures Names[k] !in ObjectPrototypeNames
    {
      assert forall m :: 0 <= m < |ObjectPrototypeNames| ==>
               Names[k][0] != ObjectPrototypeNames[m][0] || |Names[k]| != |ObjectPrototypeNames[m]|;
    }
  }

  /** The name `toString` passes `hasWidget` as written although it is not
      among the names `getWidgetNames` returns. */
  lemma {:induction false} InheritedNameAccepted()
    ensures HasWidgetAsWritten("toString") && "toString" !in WidgetNames()
    ensures !HasWidget("toString")
  {
    assert ObjectPrototypeNames[5] == "toString";
    assert forall k :: 0 <= k < |Names| ==> Names[k][0] != 't' || |Names[k]| != 8;
  }

  /** The module-level `loadedWidgets` map. */
  class WidgetCache {
    var loaded: map<string, Factory>

    /** Only registry keys are cached, each with a factory loaded for it. */
    predicate Valid()
      reads this
    {
      forall name :: name in loaded ==> HasWidget(name) && loaded[name].name == name
    }

    constructor ()
      ensures Valid() && loaded == map[]
    {
      loaded := map[];
    }

    /** The body of `getWidget` once the lookup `widgetRegistry[name]`
        has found a loader (`found`) or not, given what the loader would
        do: yield a factory with the given serial, or throw. A cached name
        is answered from the cache without loading; a name with no loader
        gives null; a load that throws gives null and caches nothing. */
    method Lookup(name: string, found: bool, load: Result<nat>) returns (r: Option<Factory>)
      modifies this
      ensures name in old(loaded) ==> r == Some(old(loaded)[name]) && loaded == old(loaded)
      ensures name !in old(loaded) && (!found || load.Err?) ==> r == None && loaded == old(loaded)
      ensures name !in old(loaded) && found && load.Ok? ==>
                r == Some(Factory(name, load.value)) && loaded == old(loaded)[name := r.value]
    {
      if name in loaded {
        return Some(loaded[name]);
      }
      if !found {
        return None;
      }
      match load {
        case Ok(serial) =>
          var factory := Factory(name, serial);
          loaded := loaded[name := factory];
          r := Some(factory);
        case Err(_) =>
          r := None;
      }
    }

    /** `getWidget` with an own-key lookup: only registry keys are ever
        loaded or cached. */
    method GetWidget(name: string, load: Result<nat>) returns (r: Option<Factory>)
      requires Valid()
      modifies this
      ensures Valid()
      ensures name in old(loaded) ==> r == Some(old(loaded)[name]) && loaded == old(loaded)
      ensures name !in old(loaded) && !HasWidget(name) ==> r == None && loaded == old(loaded)
      ensures name !in old(loaded) && HasWidget(name) && load.Err? ==> r == None && loaded == old(loaded)
      ensures name !in old(loaded) && HasWidget(name) && load.Ok? ==>
                r == Some(Factory(name, load.value)) && loaded == old(loaded)[name := r.value]
    {
      r := Lookup(name, HasWidget(name), load);
    }

    /** `getWidget` as written: `widgetRegistry[name]` also finds the
        inherited members, and calling one that does not throw caches what
        it returned under that name. */
    method GetWidgetAsWritten(name: string, load: Result<nat>) returns (r: Option<Factory>)
      modifies this
      ensures name in old(loaded) ==> r == Some(old(loaded)[name]) && loaded == old(loaded)
      ensures name !in old(loaded) && !HasWidgetAsWritten(name) ==> r == None && loaded == old(loaded)
      ensures name !in old(loaded) && HasWidgetAsWritten(name) && load.Ok? ==>
                r == Some(Factory(name, load.value)) && loaded == old(loaded)[name := r.value]
      ensures name !in old(loaded) && HasWidgetAsWritten(name) && load.Err? ==> r == None && loaded == old(loaded)
    {
      r := Lookup(name, HasWidgetAsWritten(name), load);
    }
  }

  /** Two lookups of a registry key in a row: once the first has loaded,
      the second returns the very same factory whatever its loader would
      do; after a failed load the second tries again. */
  method LookupTwice(cache: WidgetCache, name: string, first: Result<nat>, second: Result<nat>)
    returns (a: Option<Factory>, b: Option<Factory>)
    requires cache.Valid() && name !in cache.loaded && HasWidget(name)
    modifies cache
    ensures first.Ok? ==> a == b == Some(Factory(name, first.value))
    ensures first.Err? ==> a == None && b == (if second.Ok? then Some(Factory(name, second.value)) else None)
  {
    a := cache.GetWidget(name, first);
    b := cache.GetWidget(name, second);
  }

  /** The cache as written takes in an inherited name: asking a fresh
      cache for `toString` (whose call returns a string rather than
      throwing) leaves it holding an entry for a name that is not a
      widget. */
  method InheritedNameCached() returns (cache: WidgetCache, r: Option<Factory>)
    ensures r.Some? && "toString" in cache.loaded && !cache.Valid()
  {
    cache := new WidgetCache();
    InheritedNameAccepted();
    r := cache.GetWidgetAsWritten("toString", Ok(0));
  }
}
