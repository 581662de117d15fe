/**
 * The proxy registry (class puremvc.Model) and the proxies it holds
 * (class puremvc.Proxy).
 */
module Models {
  import opened Wrappers
  import opened Notifications
  import opened Observers
  import opened ObservedRegistry

  /** `Proxy.NAME`, the name of a proxy constructed without one. */
  const DEFAULT_PROXY_NAME: string := "Proxy"

  class Proxy {
    /** `getProxyName()`; the source has no setter for it. */
    const name: string
    /** `getData()` / `setData()`. */
    var data: Option<Payload>
    /** The back-reference `registerProxy` sets and `removeProxy` clears. */
    var model: Model?

    /** `initialize(proxyName, data)`: a null or undefined name becomes `Proxy.NAME`. */
    constructor(proxyName: Option<string>, data: Option<Payload>)
      ensures name == (if proxyName.Some? then proxyName.value else DEFAULT_PROXY_NAME)
      ensures this.data == data && model == null
    {
      name := if proxyName.Some? then proxyName.value else DEFAULT_PROXY_NAME;
      this.data := data;
      model := null;
    }
  }

  /** A map whose every proxy is stored under its own name has a key exactly for the names its proxies carry. */
  lemma ProxyNamed(m: map<string, Proxy>, name: string)
    ensures (forall n :: n in m ==> m[n].name == n) ==>
      (name in m <==> exists p :: p in m.Values && p.name == name)
  {
  }

  class Model {
    /** Proxy name to the proxy registered under it. */
    var proxyMap: map<string, Proxy>
    /** The Model's own observer registry, created with it. */
    const observed: Observed

    /** Every proxy is stored under its own name. */
    ghost predicate NamesMatch()
      reads this
    {
      forall n :: n in proxyMap ==> proxyMap[n].name == n
    }

    ghost predicate Valid()
      reads this, observed
    {
      observed.Valid() && NamesMatch()
    }

    /** `initialize`: no proxies and an empty registry of its own. */
    constructor()
      ensures Valid() && fresh(observed)
      ensures proxyMap == map[] && observed.observerMap == map[]
    {
      proxyMap := map[];
      observed := new Observed();
    }

    /** `registerObserver`, delegated to the Model's registry. */
    method RegisterObserver(name: string, observer: Observer)
      requires Valid()
      modifies observed
      ensures Valid()
      ensures observed.observerMap == Register(old(observed.observerMap), name, observer)
    {
      observed.RegisterObserver(name, observer);
    }

    /** `notifyObservers`, delegated to the Model's registry. */
    method NotifyObservers(note: Notification, react: Reaction) returns (invoked: seq<Observer>, ok: bool)
      requires Valid()
      modifies observed
      ensures Valid()
      ensures Delivery(invoked, observed.observerMap, ok)
           == Deliver(old(observed.observerMap), ObserversOf(old(observed.observerMap), note.name), note, react)
    {
      invoked, ok := observed.NotifyObservers(note, react);
    }

    /** `removeObserver`, delegated to the Model's registry; fails for a name without a list. */
    method RemoveObserver(name: string, ctx: object) returns (ok: bool)
      requires Valid()
      modifies observed
      ensures Valid()
      ensures ok <==> name in old(observed.observerMap)
      ensures ok ==> Some(observed.observerMap) == Unregister(old(observed.observerMap), name, ctx)
      ensures !ok ==> observed.observerMap == old(observed.observerMap)
    {
      ok := observed.RemoveObserver(name, ctx);
    }

    /**
     * `registerProxy`: always stores the proxy under its name, replacing any
     * proxy registered there before, and points the proxy at this Model.
     */
    method RegisterProxy(proxy: Proxy)
      requires Valid()
      modifies this, proxy
      ensures Valid() && observed.observerMap == old(observed.observerMap)
      ensures proxyMap == old(proxyMap)[proxy.name := proxy]
      ensures proxy.model == this && proxy.data == old(proxy.data)
      ensures RetrieveProxy(proxy.name) == proxy && HasProxy(proxy.name)
    {
      proxyMap := proxyMap[proxy.name := proxy];
      proxy.model := this;
    }

    /** `retrieveProxy`: the proxy registered under `name`, or an explicit null. */
    function RetrieveProxy(name: string): (r: Proxy?)
      requires NamesMatch()
      reads this
      ensures r == null <==> name !in proxyMap
      ensures r != null ==> r == proxyMap[name] && r.name == name
    {
      if name in proxyMap then proxyMap[name] else null
    }

    /**
     * `hasProxy`: the same lookup as `retrieveProxy`, as a boolean. Under the
     * naming invariant it holds exactly when some registered proxy carries
     * the name.
     */
    predicate HasProxy(name: string): (r: bool)
      reads this
      ensures NamesMatch() ==> (r <==> RetrieveProxy(name) != null)
      ensures NamesMatch() ==> (r <==> exists p :: p in proxyMap.Values && p.name == name)
    {
      ProxyNamed(proxyMap, name);
      name in proxyMap
    }

    /**
     * `removeProxy`: for an unknown name, null and no change. Otherwise the
     * entry is deleted, the proxy's back-reference cleared, and that same
     * proxy returned.
     */
    method RemoveProxy(name: string) returns (removed: Proxy?)
      requires Valid()
      modifies this, if name in proxyMap then {proxyMap[name]} else {}
      ensures Valid() && observed.observerMap == old(observed.observerMap)
      ensures name !in old(proxyMap) ==> removed == null && proxyMap == old(proxyMap)
      ensures name in old(proxyMap) ==>
        && removed == old(proxyMap[name])
        && proxyMap == old(proxyMap) - {name}
        && removed.model == null && removed.data == old(removed.data)
      ensures RetrieveProxy(name) == null && !HasProxy(name)
    {
      if name !in proxyMap {
        return null;
      }
      removed := proxyMap[name];
      proxyMap := proxyMap - {name};
      removed.model := null;
    }
  }
}
