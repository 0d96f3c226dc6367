/** `ResourceManager`: a cache from file path to a weak reference to the
    resource loaded from that path, and a table from manifest type string to
    the factory that loads resources of that type.

    Shared and weak pointers are modelled explicitly: every resource a
    factory builds lives in an arena (`ResourceHeap`) under a handle, with
    the number of strong references currently held to it. A weak reference
    is a handle; it has expired once the strong count is zero. Reading a
    file and parsing its JSON manifest is abstracted as a map from path to
    the manifest's `"type"` string. */
module Resources {
  /** `RESOURCE_TYPE`. */
  datatype ResourceType =
    | ResourceNull
    | ResourceShader
    | ResourceMesh
    | ResourceTexture
    | ResourceVulkanPipeline

  /** A registered factory: the manifest type string it serves, the kind of
      resource it builds, and an identity telling two factories apart. */
  datatype ResourceFactory = ResourceFactory(resourceType: string, produces: ResourceType, id: nat)

  /** A resource built by the factory `loader` from the file at `path`. */
  datatype Resource = Resource(path: string, kind: ResourceType, loader: nat)

  /** Identity of a resource object: its place in the arena. */
  type Handle = nat

  /** The shared-pointer control blocks of every resource ever built. */
  class ResourceHeap {
    var resources: seq<Resource>
    /** Number of `shared_ptr`s currently held to each resource. */
    var strongCounts: seq<nat>

    ghost predicate Valid()
      reads this
    {
      |resources| == |strongCounts|
    }

    /** A weak reference to `h` has not expired. */
    predicate Live(h: Handle)
      reads this
    {
      h < |strongCounts| && strongCounts[h] > 0
    }

    constructor ()
      ensures Valid() && resources == [] && strongCounts == []
    {
      resources, strongCounts := [], [];
    }

    /** `std::make_shared` inside a factory: a new resource with one holder. */
    method Make(r: Resource) returns (h: Handle)
      requires Valid()
      modifies this
      ensures Valid() && h == |old(resources)|
      ensures resources == old(resources) + [r]
      ensures strongCounts == old(strongCounts) + [1]
    {
      h := |resources|;
      resources := resources + [r];
      strongCounts := strongCounts + [1];
    }

    /** `weak_ptr::lock` on an unexpired reference: one more holder. */
    method Lock(h: Handle)
      requires Valid() && Live(h)
      modifies this
      ensures Valid() && resources == old(resources)
      ensures strongCounts == old(strongCounts)[h := old(strongCounts)[h] + 1]
    {
      strongCounts := strongCounts[h := strongCounts[h] + 1];
    }

    /** A holder drops its `shared_ptr`. */
    method Release(h: Handle)
      requires Valid() && Live(h)
      modifies this
      ensures Valid() && resources == old(resources)
      ensures strongCounts == old(strongCounts)[h := old(strongCounts)[h] - 1]
    {
      strongCounts := strongCounts[h := strongCounts[h] - 1];
    }
  }

  /** `ResourceFactory::load`: builds a fresh resource from `path`. */
  method Load(factory: ResourceFactory, path: string, heap: ResourceHeap) returns (h: Handle)
    requires heap.Valid()
    modifies heap
    ensures heap.Valid() && h == |old(heap.resources)|
    ensures heap.resources == old(heap.resources) + [Resource(path, factory.produces, factory.id)]
    ensures heap.strongCounts == old(heap.strongCounts) + [1]
  {
    h := heap.Make(Resource(path, factory.produces, factory.id));
  }

  class ResourceManager {
    /** Path to weak reference. */
    var resourceMap: map<string, Handle>
    /** Manifest type string to the uniquely owned factory. */
    var factoryMap: map<string, ResourceFactory>

    /** Whether `path` has an entry whose resource is still alive. */
    predicate CachedLive(path: string, heap: ResourceHeap)
      reads this, heap
    {
      path in resourceMap && heap.Live(resourceMap[path])
    }

    /** Whether loading `path` can proceed: its manifest is readable and
        names a type with a registered factory. The source dereferences a
        null factory otherwise. */
    predicate Loadable(path: string, manifests: map<string, string>)
      reads this
    {
      path in manifests && manifests[path] in factoryMap
    }

    constructor ()
      ensures resourceMap == map[] && factoryMap == map[]
    {
      resourceMap := map[];
      factoryMap := map[];
    }

    /** Installs `factory` under its type string, replacing (and so
        discarding) any factory registered for that string before. */
    method RegisterFactory(factory: ResourceFactory)
      modifies this`factoryMap
      ensures factoryMap == old(factoryMap)[factory.resourceType := factory]
      ensures factoryMap[factory.resourceType] == factory
      ensures forall t :: t in old(factoryMap) && t != factory.resourceType ==> t in factoryMap && factoryMap[t] == old(factoryMap)[t]
    {
      factoryMap := factoryMap[factory.resourceType := factory];
    }

    /** Reads the manifest's type, has that type's factory build the
        resource, then records a weak reference under `path`. */
    method LoadResource(path: string, manifests: map<string, string>, heap: ResourceHeap)
      returns (h: Handle)
      requires heap.Valid() && Loadable(path, manifests)
      modifies this`resourceMap, heap
      ensures heap.Valid() && h == |old(heap.resources)|
      ensures heap.resources == old(heap.resources) + [Resource(path, factoryMap[manifests[path]].produces, factoryMap[manifests[path]].id)]
      ensures heap.strongCounts == old(heap.strongCounts) + [1]
      ensures resourceMap == old(resourceMap)[path := h]
    {
      var resourceType := manifests[path];
      var factory := factoryMap[resourceType];
      h := Load(factory, path, heap);
      resourceMap := resourceMap[path := h];
    }

    /** The live resource cached for `path` if there is one (one more strong
        reference to it, no load); otherwise a fresh load. */
    method GetResource(path: string, manifests: map<string, string>, heap: ResourceHeap)
      returns (h: Handle)
      requires heap.Valid()
      requires CachedLive(path, heap) || Loadable(path, manifests)
      modifies this`resourceMap, heap
      ensures heap.Valid() && heap.Live(h)
      ensures path in resourceMap && resourceMap[path] == h
      ensures old(CachedLive(path, heap)) ==>
        && h == old(resourceMap[path])
        && resourceMap == old(resourceMap)
        && heap.resources == old(heap.resources)
        && heap.strongCounts == old(heap.strongCounts)[h := old(heap.strongCounts[h]) + 1]
      ensures !old(CachedLive(path, heap)) ==>
        && h == |old(heap.resources)|
        && heap.resources == old(heap.resources) + [Resource(path, factoryMap[manifests[path]].produces, factoryMap[manifests[path]].id)]
        && heap.strongCounts == old(heap.strongCounts) + [1]
        && resourceMap == old(resourceMap)[path := h]
    {
      if path in resourceMap {
        if heap.Live(resourceMap[path]) {
          h := resourceMap[path];
          heap.Lock(h);
          return;
        }
      }
      h := LoadResource(path, manifests, heap);
    }
  }

  /** The cache invariant: every resource still alive is the one its path
      maps to. */
  ghost predicate UniqueLive(cache: ResourceManager, heap: ResourceHeap)
    reads cache, heap
  {
    && heap.Valid()
    && forall h :: 0 <= h < |heap.resources| && heap.Live(h) ==>
         heap.resources[h].path in cache.resourceMap && cache.resourceMap[heap.resources[h].path] == h
  }

  /** Under the invariant, no two live resources come from the same path. */
  lemma AtMostOneLivePerPath(cache: ResourceManager, heap: ResourceHeap, h1: Handle, h2: Handle)
    requires UniqueLive(cache, heap)
    requires h1 < |heap.resources| && h2 < |heap.resources| && heap.Live(h1) && heap.Live(h2)
    requires heap.resources[h1].path == heap.resources[h2].path
    ensures h1 == h2
  {
  }

  /** A new manager over an empty arena satisfies the invariant. */
  method NewCache() returns (cache: ResourceManager, heap: ResourceHeap)
    ensures fresh(cache) && fresh(heap)
    ensures UniqueLive(cache, heap)
    ensures cache.resourceMap == map[] && cache.factoryMap == map[] && heap.resources == []
  {
    cache := new ResourceManager();
    heap := new ResourceHeap();
  }

  /** `getResource` keeps the invariant, from any state in which it holds. */
  method GetPreservesUniqueLive(cache: ResourceManager, path: string, manifests: map<string, string>,
                                heap: ResourceHeap) returns (h: Handle)
    requires UniqueLive(cache, heap)
    requires cache.CachedLive(path, heap) || cache.Loadable(path, manifests)
    modifies cache`resourceMap, heap
    ensures UniqueLive(cache, heap)
    ensures heap.Live(h) && path in cache.resourceMap && cache.resourceMap[path] == h
  {
    h := cache.GetResource(path, manifests, heap);
  }

  /** A holder dropping its reference keeps the invariant. */
  method ReleasePreservesUniqueLive(cache: ResourceManager, heap: ResourceHeap, h: Handle)
    requires UniqueLive(cache, heap) && heap.Live(h)
    modifies heap
    ensures UniqueLive(cache, heap)
  {
    heap.Release(h);
  }

  /** Registering a factory keeps the invariant. */
  method RegisterPreservesUniqueLive(cache: ResourceManager, heap: ResourceHeap, factory: ResourceFactory)
    requires UniqueLive(cache, heap)
    modifies cache`factoryMap
    ensures UniqueLive(cache, heap)
  {
    cache.RegisterFactory(factory);
  }

  /** Two requests for the same path while the first result is still held
      return the same resource, and the factory runs once. */
  method SharedWhileHeld(factory: ResourceFactory, path: string)
    returns (first: Handle, second: Handle, loads: nat, kind: ResourceType)
    ensures first == second && loads == 1 && kind == factory.produces
  {
    var heap := new ResourceHeap();
    var cache := new ResourceManager();
    cache.RegisterFactory(factory);
    var manifests := map[path := factory.resourceType];
    first := cache.GetResource(path, manifests, heap);
    second := cache.GetResource(path, manifests, heap);
    loads := |heap.resources|;
    kind := heap.resources[first].kind;
  }

  /** Once the only holder releases a resource, the next request for its
      path loads a new one: the cache did not keep it alive. */
  method ReloadAfterRelease(factory: ResourceFactory, path: string)
    returns (first: Handle, second: Handle, loads: nat, firstAlive: bool)
    ensures first != second && loads == 2 && !firstAlive
  {
    var heap := new ResourceHeap();
    var cache := new ResourceManager();
    cache.RegisterFactory(factory);
    var manifests := map[path := factory.resourceType];
    first := cache.GetResource(path, manifests, heap);
    heap.Release(first);
    firstAlive := heap.Live(first);
    second := cache.GetResource(path, manifests, heap);
    loads := |heap.resources|;
  }

  /** After two registrations under the same type string, loads go to the
      factory registered last. */
  method LastRegistrationWins(older: ResourceFactory, newer: ResourceFactory, path: string)
    returns (loadedBy: nat)
    requires older.resourceType == newer.resourceType
    ensures loadedBy == newer.id
  {
    var heap := new ResourceHeap();
    var cache := new ResourceManager();
    cache.RegisterFactory(older);
    cache.RegisterFactory(newer);
    var h := cache.GetResource(path, map[path := newer.resourceType], heap);
    loadedBy := heap.resources[h].loader;
  }

  /** Requests for two different paths load two different resources, and
      the second request leaves the first path's entry alone. */
  method DistinctPathsDistinctResources(factory: ResourceFactory, p: string, q: string)
    returns (hp: Handle, hq: Handle, entryP: Handle)
    requires p != q
    ensures hp != hq && entryP == hp
  {
    var heap := new ResourceHeap();
    var cache := new ResourceManager();
    cache.RegisterFactory(factory);
    var manifests := map[p := factory.resourceType, q := factory.resourceType];
    hp := cache.GetResource(p, manifests, heap);
    hq := cache.GetResource(q, manifests, heap);
    entryP := cache.resourceMap[p];
  }
}
