/**
 * The UI's service-registry store: the sets of healthy service and module
 * names, refreshed by polling the registration service, and the flag and
 * timer handle that keep the polling single.
 */
module ServiceRegistryStore {
  import opened Wrappers

  /** One listed service (its service name) or module (its module name) and its health. */
  datatype Details = Details(name: string, isHealthy: bool)

  /** The names of the healthy entries of a listing. */
  function HealthyNames(listing: seq<Details>): set<string> {
    set i | 0 <= i < |listing| && listing[i].isHealthy :: listing[i].name
  }

  /** A name is in the set exactly when some healthy entry carries it. */
  lemma HealthyNamesMembers(listing: seq<Details>, name: string)
    ensures name in HealthyNames(listing) <==> exists d :: d in listing && d.isHealthy && d.name == name
  {
    if exists d :: d in listing && d.isHealthy && d.name == name {
      var d :| d in listing && d.isHealthy && d.name == name;
      var i :| 0 <= i < |listing| && listing[i] == d;
      assert listing[i].name in HealthyNames(listing);
    }
  }

  /** The change test: the sizes differ, or a new name is not current. */
  predicate HasChanged(next: set<string>, current: set<string>) {
    |next| != |current| || exists s :: s in next && s !in current
  }

  /** The change test detects exactly a different set. */
  lemma HasChangedIffDifferent(next: set<string>, current: set<string>)
    ensures HasChanged(next, current) <==> next != current
  {
    if !HasChanged(next, current) {
      assert next <= current;
      var rest := current - next;
      assert current == next + rest;
      assert |current| == |next| + |rest|;
      assert rest == {};
    }
  }

  /** The names of the healthy entries, collected one entry at a time. */
  method CollectHealthy(listing: seq<Details>) returns (names: set<string>)
    ensures names == HealthyNames(listing)
  {
    names := {};
    for i := 0 to |listing|
      invariant names == HealthyNames(listing[..i])
    {
      if listing[i].isHealthy {
        names := names + {listing[i].name};
      }
      assert forall n :: n in HealthyNames(listing[..i + 1]) <==>
        n in HealthyNames(listing[..i]) || (listing[i].isHealthy && n == listing[i].name) by {
        forall n ensures n in HealthyNames(listing[..i + 1]) <==>
          n in HealthyNames(listing[..i]) || (listing[i].isHealthy && n == listing[i].name) {
          if n in HealthyNames(listing[..i + 1]) {
            var j :| 0 <= j < i + 1 && listing[..i + 1][j].isHealthy && listing[..i + 1][j].name == n;
            if j < i {
              assert listing[..i][j] == listing[j];
            }
          }
          if n in HealthyNames(listing[..i]) {
            var j :| 0 <= j < i && listing[..i][j].isHealthy && listing[..i][j].name == n;
            assert listing[..i + 1][j] == listing[j];
          }
          if listing[i].isHealthy && n == listing[i].name {
            assert listing[..i + 1][i] == listing[i];
          }
        }
      }
    }
    assert listing[..|listing|] == listing;
  }

  /**
   * The store. `serviceUpdates` and `moduleUpdates` count the assignments to
   * the two reactive sets, which are what notify the UI.
   */
  class RegistryStore {
    var availableServices: set<string>
    var availableModules: set<string>
    /** The polling timer's handle, while polling runs. */
    var pollingInterval: Option<nat>
    var isInitialized: bool
    ghost var serviceUpdates: nat
    ghost var moduleUpdates: nat

    /** Polling runs exactly while the store is initialised. */
    ghost predicate Valid()
      reads this
    {
      isInitialized <==> pollingInterval.Some?
    }

    /** Creating the store initialises it: the first fetches start and polling begins under `timer`. */
    constructor (timer: nat)
      ensures Valid()
      ensures availableServices == {} && availableModules == {}
      ensures isInitialized && pollingInterval == Some(timer)
      ensures serviceUpdates == 0 && moduleUpdates == 0
    {
      availableServices := {};
      availableModules := {};
      pollingInterval := Some(timer);
      isInitialized := true;
      serviceUpdates := 0;
      moduleUpdates := 0;
    }

    /**
     * `fetchServices` once its listing has arrived (or failed): the healthy
     * names replace the set, and the set is assigned only when they differ.
     */
    method FetchServices(response: Result<seq<Details>, string>) returns (changed: bool)
      requires Valid()
      modifies this
      ensures Valid()
      ensures response.Err? ==> !changed && availableServices == old(availableServices)
      ensures response.Ok? ==> availableServices == HealthyNames(response.value)
      ensures changed <==> availableServices != old(availableServices)
      ensures serviceUpdates == old(serviceUpdates) + (if changed then 1 else 0)
      ensures availableModules == old(availableModules) && moduleUpdates == old(moduleUpdates)
      ensures pollingInterval == old(pollingInterval) && isInitialized == old(isInitialized)
    {
      if response.Err? {
        return false;
      }
      var services := CollectHealthy(response.value);
      var current := availableServices;
      changed := HasChanged(services, current);
      HasChangedIffDifferent(services, current);
      if changed {
        availableServices := services;
        serviceUpdates := serviceUpdates + 1;
      }
    }

    /** `fetchModules`, the same for the healthy module names. */
    method FetchModules(response: Result<seq<Details>, string>) returns (changed: bool)
      requires Valid()
      modifies this
      ensures Valid()
      ensures response.Err? ==> !changed && availableModules == old(availableModules)
      ensures response.Ok? ==> availableModules == HealthyNames(response.value)
      ensures changed <==> availableModules != old(availableModules)
      ensures moduleUpdates == old(moduleUpdates) + (if changed then 1 else 0)
      ensures availableServices == old(availableServices) && serviceUpdates == old(serviceUpdates)
      ensures pollingInterval == old(pollingInterval) && isInitialized == old(isInitialized)
    {
      if response.Err? {
        return false;
      }
      var modules := CollectHealthy(response.value);
      var current := availableModules;
      changed := HasChanged(modules, current);
      HasChangedIffDifferent(modules, current);
      if changed {
        availableModules := modules;
        moduleUpdates := moduleUpdates + 1;
      }
    }

    /**
     * `initializeStreams`: when not yet initialised, marks the store
     * initialised and starts the first fetches and the polling timer `timer`
     * (`started`); otherwise does nothing.
     */
    method InitializeStreams(timer: nat) returns (started: bool)
      requires Valid()
      modifies this
      ensures Valid()
      ensures started <==> !old(isInitialized)
      ensures isInitialized
      ensures pollingInterval == if started then Some(timer) else old(pollingInterval)
      ensures availableServices == old(availableServices) && availableModules == old(availableModules)
      ensures serviceUpdates == old(serviceUpdates) && moduleUpdates == old(moduleUpdates)
    {
      if isInitialized {
        return false;
      }
      isInitialized := true;
      pollingInterval := Some(timer);
      started := true;
    }

    /**
     * `cleanup`: stops the timer, if any (`cleared` is the handle passed to
     * `clearInterval`), and resets the flag so the store can be initialised
     * again. The sets keep their last value.
     */
    method Cleanup() returns (cleared: Option<nat>)
      requires Valid()
      modifies this
      ensures Valid()
      ensures cleared == old(pollingInterval)
      ensures pollingInterval == None && !isInitialized
      ensures availableServices == old(availableServices) && availableModules == old(availableModules)
      ensures serviceUpdates == old(serviceUpdates) && moduleUpdates == old(moduleUpdates)
    {
      cleared := pollingInterval;
      if pollingInterval.Some? {
        pollingInterval := None;
      }
      isInitialized := false;
    }
  }

  /** A second initialisation before a cleanup starts nothing; after a cleanup it starts polling again. */
  method InitializeTwice(store: RegistryStore, first: nat, second: nat, third: nat) returns (a: bool, b: bool, c: bool)
    requires store.Valid()
    modifies store
    ensures !b && c
    ensures store.isInitialized && store.pollingInterval == Some(third)
  {
    a := store.InitializeStreams(first);
    b := store.InitializeStreams(second);
    var _ := store.Cleanup();
    c := store.InitializeStreams(third);
  }
}
