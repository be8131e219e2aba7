/**
 * The media-items repository (MediaItemsRepository.java): per media source, a cache of the
 * browse nodes the UI subscribed to, each with its own live data and the last list it received;
 * the root items and the search results shared by all sources; and the reaction to each
 * connection status of the browsing state.
 *
 * The browser's subscribe, unsubscribe and search calls are recorded in order; getRoot() is a
 * parameter. A live-data object is a handle (a number) whose current value is kept in a map.
 */
module Browse {
  import opened MediaTypes
  import opened SourceConnection

  /** MediaItemMetadata of a browsed item. */
  datatype BrowseItem = BrowseItem(mediaId: string, title: string)

  /** FutureData: still loading, or loaded with the previous and the new list (each maybe null). */
  datatype FutureData =
    | Loading
    | Loaded(previous: Option<seq<BrowseItem>>, data: Option<seq<BrowseItem>>)

  /** MediaChildren: a node's live-data handle and the last list delivered for it. */
  datatype Children = Children(nodeId: string, handle: nat, previousValue: Option<seq<BrowseItem>>)

  /** PerMediaSourceCache: the root id (null until connected) and the cached nodes. */
  datatype SourceCache = SourceCache(rootId: Option<string>, children: map<string, Children>)

  const EMPTY_CACHE: SourceCache := SourceCache(None, map[])

  datatype BrowserCall =
    | Subscribe(browser: Browser, nodeId: string)
    | Unsubscribe(browser: Browser, nodeId: string)
    | Search(browser: Browser, query: string)

  /** getMediaSource: the browsing state's source, null without a browsing state. */
  function SourceOf(state: Option<BrowsingState>): (r: Option<MediaSource>)
    ensures r.None? <==> state.None?
    ensures state.Some? ==> r == Some(state.value.source)
  {
    if state.Some? then Some(state.value.source) else None
  }

  /** The cache getCache returns for a key: the stored one, or a new empty one. */
  function CacheOf(caches: map<Option<MediaSource>, SourceCache>, key: Option<MediaSource>): SourceCache {
    if key in caches then caches[key] else EMPTY_CACHE
  }

  /** TextUtils.isEmpty. */
  predicate IsEmptyQuery(query: Option<string>) {
    query.None? || query.value == ""
  }

  /** The non-null items of a loaded list, in order. */
  function NonNullItems(items: seq<Option<BrowseItem>>): (r: seq<BrowseItem>)
    ensures |r| <= |items|
  {
    if items == [] then []
    else
      var rest := NonNullItems(items[..|items| - 1]);
      if items[|items| - 1].Some? then rest + [items[|items| - 1].value] else rest
  }

  /** The non-null filter keeps exactly the present items. */
  lemma {:induction false} NonNullItemsExactly(items: seq<Option<BrowseItem>>, x: BrowseItem)
    ensures x in NonNullItems(items) <==> Some(x) in items
  {
    if items != [] {
      var init := items[..|items| - 1];
      NonNullItemsExactly(init, x);
      assert items == init + [items[|items| - 1]];
    }
  }

  /** A list with no null keeps its every item, in order. */
  lemma {:induction false} NonNullItemsAllPresent(items: seq<Option<BrowseItem>>)
    requires forall i :: 0 <= i < |items| ==> items[i].Some?
    ensures |NonNullItems(items)| == |items|
    ensures forall i :: 0 <= i < |items| ==> NonNullItems(items)[i] == items[i].value
  {
    if items != [] {
      NonNullItemsAllPresent(items[..|items| - 1]);
    }
  }

  /** The filter distributes over concatenation, so the kept items stay in their list order. */
  lemma {:induction false} NonNullItemsConcat(a: seq<Option<BrowseItem>>, b: seq<Option<BrowseItem>>)
    ensures NonNullItems(a + b) == NonNullItems(a) + NonNullItems(b)
    decreases |b|
  {
    if b == [] {
      assert a + b == a;
    } else {
      var b' := b[..|b| - 1];
      assert (a + b)[..|a + b| - 1] == a + b';
      assert (a + b)[|a + b| - 1] == b[|b| - 1];
      NonNullItemsConcat(a, b');
    }
  }

  /** Every cached node is filed under its own id, with a live data that exists. */
  ghost predicate CachesValid(caches: map<Option<MediaSource>, SourceCache>, nextHandle: nat, liveValues: map<nat, Option<FutureData>>) {
    forall k, id :: k in caches && id in caches[k].children ==>
      && caches[k].children[id].nodeId == id
      && caches[k].children[id].handle < nextHandle
      && caches[k].children[id].handle in liveValues
  }

  /** Filing a new node under the next handle, with a new live data, keeps the caches valid. */
  lemma CachesValidAddChild(caches: map<Option<MediaSource>, SourceCache>, nextHandle: nat,
                            liveValues: map<nat, Option<FutureData>>, key: Option<MediaSource>, nodeId: string)
    requires CachesValid(caches, nextHandle, liveValues) && key in caches
    ensures var cache := caches[key];
      CachesValid(caches[key := cache.(children := cache.children[nodeId := Children(nodeId, nextHandle, Some([]))])],
                  nextHandle + 1, liveValues[nextHandle := Some(Loading)])
  {
  }

  /** Recording a node's last list and its live data's value keeps the caches valid. */
  lemma CachesValidSetPrevious(caches: map<Option<MediaSource>, SourceCache>, nextHandle: nat,
                               liveValues: map<nat, Option<FutureData>>, key: Option<MediaSource>, parentId: string,
                               list: Option<seq<BrowseItem>>, value: Option<FutureData>)
    requires CachesValid(caches, nextHandle, liveValues) && key in caches && parentId in caches[key].children
    ensures var cache := caches[key];
      var node := cache.children[parentId];
      CachesValid(caches[key := cache.(children := cache.children[parentId := node.(previousValue := list)])],
                  nextHandle, liveValues[node.handle := value])
  {
  }

  /** The repository's whole state, field by field. */
  datatype RepositoryFields = RepositoryFields(
    browsingState: Option<BrowsingState>,
    caches: map<Option<MediaSource>, SourceCache>,
    browsingStateLive: Option<BrowsingState>,
    rootItems: Option<FutureData>,
    searchItems: Option<FutureData>,
    searchQuery: Option<string>,
    liveValues: map<nat, Option<FutureData>>,
    nextHandle: nat,
    browserCalls: seq<BrowserCall>)

  class MediaItemsRepository {
    /** mBrowsingState. */
    var browsingState: Option<BrowsingState>
    /** mCaches, keyed by media source (null included). */
    var caches: map<Option<MediaSource>, SourceCache>
    /** mBrowsingStateLiveData. */
    var browsingStateLive: Option<BrowsingState>
    /** mRootMediaItems. */
    var rootItems: Option<FutureData>
    /** mSearchMediaItems. */
    var searchItems: Option<FutureData>
    /** mSearchQuery. */
    var searchQuery: Option<string>
    /** The value of each node live data, by handle. */
    var liveValues: map<nat, Option<FutureData>>
    /** The handle of the next node live data to be created. */
    var nextHandle: nat
    /** The calls made on browsers, oldest first. */
    var browserCalls: seq<BrowserCall>

    /** Every cached node is filed under its own id, with a live data that exists. */
    ghost predicate Valid()
      reads this
    {
      CachesValid(caches, nextHandle, liveValues)
    }

    ghost function State(): RepositoryFields
      reads this
    {
      RepositoryFields(browsingState, caches, browsingStateLive, rootItems, searchItems, searchQuery,
                       liveValues, nextHandle, browserCalls)
    }

    /**
     * The node part of getMediaChildren from caches c0, live data lv0 and next handle n0, with
     * `cache` the source's cache under `key`: a cached node changes nothing; a new one is filed
     * under the next handle with an empty previous list, and its live data starts loading.
     */
    ghost predicate NodeEnsured(c0: map<Option<MediaSource>, SourceCache>, lv0: map<nat, Option<FutureData>>, n0: nat,
                                key: Option<MediaSource>, cache: SourceCache, nodeId: string)
      reads this
    {
      if nodeId in cache.children then
        caches == c0[key := cache] && liveValues == lv0 && nextHandle == n0
      else
        && caches == c0[key := cache.(children := cache.children[nodeId := Children(nodeId, n0, Some([]))])]
        && liveValues == lv0[n0 := Some(Loading)]
        && nextHandle == n0 + 1
    }

    /**
     * onBrowseData's effect from caches c0, live data lv0 and root items r0 under `key`: an
     * uncached parent changes nothing but the creation of the cache; a cached one records the
     * list and delivers (old, new) to its live data, and to the root items when it is the root.
     */
    ghost predicate DataDelivered(c0: map<Option<MediaSource>, SourceCache>, lv0: map<nat, Option<FutureData>>,
                                  r0: Option<FutureData>, key: Option<MediaSource>, parentId: string,
                                  list: Option<seq<BrowseItem>>)
      reads this
    {
      var cache := CacheOf(c0, key);
      if parentId !in cache.children then
        caches == c0[key := cache] && liveValues == lv0 && rootItems == r0
      else
        var node := cache.children[parentId];
        && caches == c0[key := cache.(children := cache.children[parentId := node.(previousValue := list)])]
        && liveValues == lv0[node.handle := Some(Loaded(node.previousValue, list))]
        && rootItems == (if cache.rootId == Some(parentId) then Some(Loaded(node.previousValue, list)) else r0)
    }

    /**
     * The data part of losing the connection with `cache` as the source's cache: a cached root
     * node gets null data, in its own live data and in the root items; otherwise neither changes.
     */
    ghost predicate RootLost(cache: SourceCache, lv0: map<nat, Option<FutureData>>, r0: Option<FutureData>)
      reads this
    {
      if cache.rootId.Some? && cache.rootId.value in cache.children then
        var node := cache.children[cache.rootId.value];
        && liveValues == lv0[node.handle := Some(Loaded(node.previousValue, None))]
        && rootItems == Some(Loaded(node.previousValue, None))
      else
        liveValues == lv0 && rootItems == r0
    }

    constructor ()
      ensures Valid()
      ensures browsingState == None && caches == map[] && browsingStateLive == None
      ensures rootItems == Some(Loading) && searchItems == None && searchQuery == None
      ensures liveValues == map[] && nextHandle == 0 && browserCalls == []
    {
      browsingState := None;
      caches := map[];
      browsingStateLive := None;
      rootItems := Some(Loading);
      searchItems := None;
      searchQuery := None;
      liveValues := map[];
      nextHandle := 0;
      browserCalls := [];
    }

    /** getCache: the current source's cache, created empty on first access. */
    method GetCache() returns (cache: SourceCache)
      requires Valid()
      modifies this`caches
      ensures Valid()
      ensures var key := SourceOf(browsingState);
        cache == CacheOf(old(caches), key) && caches == old(caches)[key := cache]
    {
      var key := SourceOf(browsingState);
      if key in caches {
        cache := caches[key];
      } else {
        cache := EMPTY_CACHE;
        caches := caches[key := cache];
      }
    }

    /**
     * getMediaChildren: the node's live data, created (loading) only when the node is not cached;
     * the browser is then unsubscribed from and resubscribed to the node. Without a browsing
     * state the browser call throws a NullPointerException (crashed), after the cache update.
     */
    method GetMediaChildren(nodeId: string) returns (handle: nat, crashed: bool)
      requires Valid()
      modifies this`caches, this`liveValues, this`nextHandle, this`browserCalls
      ensures Valid()
      ensures var key := SourceOf(browsingState);
        var cache := CacheOf(old(caches), key);
        && NodeEnsured(old(caches), old(liveValues), old(nextHandle), key, cache, nodeId)
        && handle == (if nodeId in cache.children then cache.children[nodeId].handle else old(nextHandle))
      ensures handle < nextHandle && handle in liveValues
      ensures crashed <==> browsingState.None?
      ensures browsingState.None? ==> browserCalls == old(browserCalls)
      ensures browsingState.Some? ==>
        browserCalls == old(browserCalls) + [Unsubscribe(browsingState.value.browser, nodeId), Subscribe(browsingState.value.browser, nodeId)]
    {
      var cache := GetCache();
      if nodeId in cache.children {
        handle := cache.children[nodeId].handle;
      } else {
        CachesValidAddChild(caches, nextHandle, liveValues, SourceOf(browsingState), nodeId);
        handle := nextHandle;
        nextHandle := nextHandle + 1;
        liveValues := liveValues[handle := Some(Loading)];
        cache := cache.(children := cache.children[nodeId := Children(nodeId, handle, Some([]))]);
        caches := caches[SourceOf(browsingState) := cache];
      }
      if browsingState.None? {
        crashed := true;
        return;
      }
      crashed := false;
      var browser := browsingState.value.browser;
      browserCalls := browserCalls + [Unsubscribe(browser, nodeId), Subscribe(browser, nodeId)];
    }

    /**
     * onBrowseData: for a cached parent, store the list as its previous value and deliver
     * (old, new) to its live data, and to the root items too when the parent is the root.
     * A parent that is not cached changes nothing but the creation of the cache itself.
     */
    method OnBrowseData(parentId: string, list: Option<seq<BrowseItem>>)
      requires Valid()
      modifies this`caches, this`liveValues, this`rootItems
      ensures Valid()
      ensures DataDelivered(old(caches), old(liveValues), old(rootItems), SourceOf(browsingState), parentId, list)
    {
      var cache := GetCache();
      if parentId !in cache.children {
        return;
      }
      var node := cache.children[parentId];
      var previous := node.previousValue;
      CachesValidSetPrevious(caches, nextHandle, liveValues, SourceOf(browsingState), parentId, list, Some(Loaded(previous, list)));
      cache := cache.(children := cache.children[parentId := node.(previousValue := list)]);
      caches := caches[SourceOf(browsingState) := cache];
      liveValues := liveValues[node.handle := Some(Loaded(previous, list))];
      if cache.rootId == Some(parentId) {
        rootItems := Some(Loaded(previous, list));
      }
    }

    /** The browse callback's onChildrenLoaded: the non-null children are delivered. */
    method OnChildrenLoaded(parentId: string, children: seq<Option<BrowseItem>>)
      requires Valid()
      modifies this`caches, this`liveValues, this`rootItems
      ensures Valid()
      ensures DataDelivered(old(caches), old(liveValues), old(rootItems), SourceOf(browsingState), parentId, Some(NonNullItems(children)))
    {
      OnBrowseData(parentId, Some(NonNullItems(children)));
    }

    /** The browse callback's onError: null data is delivered. */
    method OnBrowseError(parentId: string)
      requires Valid()
      modifies this`caches, this`liveValues, this`rootItems
      ensures Valid()
      ensures DataDelivered(old(caches), old(liveValues), old(rootItems), SourceOf(browsingState), parentId, None)
    {
      OnBrowseData(parentId, None);
    }

    /**
     * setSearchQuery: record the query; an empty or null one clears the results and searches
     * nothing; any other marks the results loading and starts a search (throwing a
     * NullPointerException without a browsing state).
     */
    method SetSearchQuery(query: Option<string>) returns (crashed: bool)
      modifies this`searchQuery, this`searchItems, this`browserCalls
      ensures searchQuery == query
      ensures IsEmptyQuery(query) ==> searchItems == None && browserCalls == old(browserCalls) && !crashed
      ensures !IsEmptyQuery(query) ==> searchItems == Some(Loading) && (crashed <==> browsingState.None?)
      ensures !IsEmptyQuery(query) && browsingState.Some? ==>
        browserCalls == old(browserCalls) + [Search(browsingState.value.browser, query.value)]
      ensures !IsEmptyQuery(query) && browsingState.None? ==> browserCalls == old(browserCalls)
    {
      searchQuery := query;
      crashed := false;
      if query.None? || query.value == "" {
        searchItems := None;
      } else {
        searchItems := Some(Loading);
        if browsingState.None? {
          crashed := true;
          return;
        }
        browserCalls := browserCalls + [Search(browsingState.value.browser, query.value)];
      }
    }

    /** The search callback's onSearchResult: applied only for the current query. */
    method OnSearchResult(query: string, items: seq<Option<BrowseItem>>)
      modifies this`searchItems
      ensures searchQuery == Some(query) ==> searchItems == Some(Loaded(None, Some(NonNullItems(items))))
      ensures searchQuery != Some(query) ==> searchItems == old(searchItems)
    {
      if searchQuery == Some(query) {
        searchItems := Some(Loaded(None, Some(NonNullItems(items))));
      }
    }

    /** The search callback's onError: null results, only for the current query. */
    method OnSearchError(query: string)
      modifies this`searchItems
      ensures searchQuery == Some(query) ==> searchItems == Some(Loaded(None, None))
      ensures searchQuery != Some(query) ==> searchItems == old(searchItems)
    {
      if searchQuery == Some(query) {
        searchItems := Some(Loaded(None, None));
      }
    }

    /** unsubscribeNodes: unsubscribe the browser from every node of the current cache, once each. */
    method UnsubscribeNodes()
      requires Valid() && browsingState.Some?
      modifies this`caches, this`browserCalls
      ensures Valid()
      ensures var key := SourceOf(browsingState);
        && caches == old(caches)[key := CacheOf(old(caches), key)]
        && |browserCalls| >= |old(browserCalls)| && browserCalls[..|old(browserCalls)|] == old(browserCalls)
        && UnsubscribesEach(browserCalls[|old(browserCalls)|..], browsingState.value.browser, CacheOf(old(caches), key).children.Keys)
    {
      var cache := GetCache();
      var calls := UnsubscribeAll(browsingState.value.browser, cache.children.Keys);
      browserCalls := browserCalls + calls;
      assert browserCalls[|old(browserCalls)|..] == calls;
    }

    /** clearNodes: forget the current source's nodes (keeping its root id). */
    method ClearNodes()
      requires Valid()
      modifies this`caches
      ensures Valid()
      ensures var key := SourceOf(browsingState);
        caches == old(caches)[key := CacheOf(old(caches), key).(children := map[])]
    {
      var cache := GetCache();
      caches := caches[SourceOf(browsingState) := cache.(children := map[])];
    }

    /** The CONNECTED case: store the root id in the cache and fetch the root node. */
    method OnConnected(rootId: string)
      requires Valid() && browsingState.Some?
      modifies this`caches, this`liveValues, this`nextHandle, this`browserCalls
      ensures Valid()
      ensures var key := SourceOf(browsingState);
        && NodeEnsured(old(caches), old(liveValues), old(nextHandle), key, CacheOf(old(caches), key).(rootId := Some(rootId)), rootId)
        && key in caches && caches[key].rootId == Some(rootId) && rootId in caches[key].children
        && browserCalls == old(browserCalls) + [Unsubscribe(browsingState.value.browser, rootId), Subscribe(browsingState.value.browser, rootId)]
    {
      var cache := GetCache();
      caches := caches[SourceOf(browsingState) := cache.(rootId := Some(rootId))];
      var handle, crashed := GetMediaChildren(rootId);
    }

    /** The DISCONNECTING case: unsubscribe every node, clear the search results and the nodes. */
    method OnDisconnecting()
      requires Valid() && browsingState.Some?
      modifies this`caches, this`browserCalls, this`searchItems
      ensures Valid()
      ensures var key := SourceOf(browsingState);
        && caches == old(caches)[key := CacheOf(old(caches), key).(children := map[])]
        && searchItems == None
        && |browserCalls| >= |old(browserCalls)| && browserCalls[..|old(browserCalls)|] == old(browserCalls)
        && UnsubscribesEach(browserCalls[|old(browserCalls)|..], browsingState.value.browser, CacheOf(old(caches), key).children.Keys)
    {
      UnsubscribeNodes();
      searchItems := None;
      ClearNodes();
    }

    /** The REJECTED and SUSPENDED case: null data for the root node, then clear as above. */
    method OnConnectionLost()
      requires Valid()
      modifies this`caches, this`liveValues, this`rootItems, this`searchItems
      ensures Valid()
      ensures var key := SourceOf(browsingState);
        var cache := CacheOf(old(caches), key);
        && caches == old(caches)[key := cache.(children := map[])]
        && searchItems == None
        && RootLost(cache, old(liveValues), old(rootItems))
    {
      var cache := GetCache();
      if cache.rootId.Some? {
        OnBrowseData(cache.rootId.value, None);
      }
      searchItems := None;
      ClearNodes();
    }

    /**
     * onMediaBrowsingStateChanged: record the state; a null one is otherwise ignored. Then,
     * CONNECTING marks the root items loading; CONNECTED stores the browser's root id and
     * fetches the root node; DISCONNECTING unsubscribes every node, clears the search results and
     * the nodes; REJECTED and SUSPENDED deliver null to the root node, then clear the same.
     */
    method OnMediaBrowsingStateChanged(newState: Option<BrowsingState>, rootId: string)
      requires Valid()
      modifies this
      ensures Valid()
      ensures newState.None? ==> State() == old(State()).(browsingState := newState)
      ensures newState.Some? && newState.value.status == CONNECTING ==>
        State() == old(State()).(browsingState := newState, browsingStateLive := newState, rootItems := Some(Loading))
      ensures newState.Some? && newState.value.status == CONNECTED ==>
        var key := Some(newState.value.source);
        && State() == old(State()).(browsingState := newState, browsingStateLive := newState, caches := caches,
                                    liveValues := liveValues, nextHandle := nextHandle, browserCalls := browserCalls)
        && NodeEnsured(old(caches), old(liveValues), old(nextHandle), key, CacheOf(old(caches), key).(rootId := Some(rootId)), rootId)
        && browserCalls == old(browserCalls) + [Unsubscribe(newState.value.browser, rootId), Subscribe(newState.value.browser, rootId)]
      ensures newState.Some? && newState.value.status == DISCONNECTING ==>
        var key := Some(newState.value.source);
        && State() == old(State()).(browsingState := newState, browsingStateLive := newState,
                                    caches := old(caches)[key := CacheOf(old(caches), key).(children := map[])],
                                    searchItems := None, browserCalls := browserCalls)
        && |browserCalls| >= |old(browserCalls)| && browserCalls[..|old(browserCalls)|] == old(browserCalls)
        && UnsubscribesEach(browserCalls[|old(browserCalls)|..], newState.value.browser, CacheOf(old(caches), key).children.Keys)
      ensures newState.Some? && (newState.value.status == REJECTED || newState.value.status == SUSPENDED) ==>
        var key := Some(newState.value.source);
        var cache := CacheOf(old(caches), key);
        && State() == old(State()).(browsingState := newState, browsingStateLive := newState,
                                    caches := old(caches)[key := cache.(children := map[])],
                                    searchItems := None, liveValues := liveValues, rootItems := rootItems)
        && RootLost(cache, old(liveValues), old(rootItems))
    {
      browsingState := newState;
      if newState.None? {
        return;
      }
      browsingStateLive := newState;
      assert SourceOf(browsingState) == Some(newState.value.source);
      ghost var v := State();
      assert v == old(State()).(browsingState := newState, browsingStateLive := newState);
      match newState.value.status
      case CONNECTING =>
        rootItems := Some(Loading);
      case CONNECTED =>
        OnConnected(rootId);
      case DISCONNECTING =>
        OnDisconnecting();
      case _ =>
        OnConnectionLost();
    }
  }

  /** The calls unsubscribing a browser from each of the nodes, once each. */
  ghost predicate UnsubscribesEach(calls: seq<BrowserCall>, browser: Browser, nodes: set<string>) {
    && |calls| == |nodes|
    && (forall i :: 0 <= i < |calls| ==> calls[i].Unsubscribe? && calls[i].browser == browser && calls[i].nodeId in nodes)
    && (forall id :: id in nodes ==> Unsubscribe(browser, id) in calls)
  }

  /** The loop invariant of unsubscribeNodes: `calls` unsubscribes from the nodes done so far. */
  ghost predicate UnsubscribedSoFar(calls: seq<BrowserCall>, browser: Browser, nodes: set<string>, remaining: set<string>) {
    && remaining <= nodes
    && |calls| + |remaining| == |nodes|
    && (forall i :: 0 <= i < |calls| ==> calls[i].Unsubscribe? && calls[i].browser == browser
                                         && calls[i].nodeId in nodes && calls[i].nodeId !in remaining)
    && (forall id :: id in nodes && id !in remaining ==> Unsubscribe(browser, id) in calls)
  }

  lemma UnsubscribedStep(calls: seq<BrowserCall>, browser: Browser, nodes: set<string>, remaining: set<string>, id: string)
    requires UnsubscribedSoFar(calls, browser, nodes, remaining) && id in remaining
    ensures UnsubscribedSoFar(calls + [Unsubscribe(browser, id)], browser, nodes, remaining - {id})
  {
    var calls', remaining' := calls + [Unsubscribe(browser, id)], remaining - {id};
    assert |remaining'| == |remaining| - 1;
    forall i | 0 <= i < |calls'|
      ensures calls'[i].Unsubscribe? && calls'[i].browser == browser && calls'[i].nodeId in nodes && calls'[i].nodeId !in remaining'
    {
      if i < |calls| { assert calls'[i] == calls[i]; }
    }
    forall d | d in nodes && d !in remaining'
      ensures Unsubscribe(browser, d) in calls'
    {
      if d != id { assert Unsubscribe(browser, d) in calls; }
      else { assert calls'[|calls|] == Unsubscribe(browser, id); }
    }
  }

  /** The loop of unsubscribeNodes over the key set of the node map. */
  method UnsubscribeAll(browser: Browser, nodes: set<string>) returns (calls: seq<BrowserCall>)
    ensures UnsubscribesEach(calls, browser, nodes)
  {
    var remaining := nodes;
    calls := [];
    while remaining != {}
      invariant UnsubscribedSoFar(calls, browser, nodes, remaining)
      decreases |remaining|
    {
      var id :| id in remaining;
      UnsubscribedStep(calls, browser, nodes, remaining, id);
      calls := calls + [Unsubscribe(browser, id)];
      remaining := remaining - {id};
    }
  }

  /** Asking twice for a node's children yields the same live data, and creates it only once. */
  method RepeatedChildrenShareHandle(repo: MediaItemsRepository, nodeId: string) returns (first: nat, second: nat)
    requires repo.Valid()
    modifies repo
    ensures first == second && first in repo.liveValues
    ensures repo.nextHandle <= old(repo.nextHandle) + 1
  {
    var crashed1, crashed2;
    first, crashed1 := repo.GetMediaChildren(nodeId);
    second, crashed2 := repo.GetMediaChildren(nodeId);
  }
}
