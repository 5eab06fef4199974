/**
 * The front end's global store (`useAppStore`): the signed-in user and
 * their token, the headline statistics, the loading flag, the theme and
 * the skill list loaded once per session for the pickers.
 *
 * The browser's `localStorage` is a small class of its own that the
 * actions write through; the skill-graph request made by
 * `preloadSkills` is a parameter holding what the request returned.
 */
module AppStore {
  import opened Wrappers
  import opened Order

  // ---------------------------------------------------------------------
  // Values
  // ---------------------------------------------------------------------

  /** JavaScript truthiness of an optional string: present and not empty. */
  predicate Truthy(s: Option<string>)
  {
    s.Some? && s.value != []
  }

  /** The parts of the signed-in user the store reads. */
  datatype UserInfo = UserInfo(username: Option<string>, name: Option<string>, id: Option<string>)

  /** The headline statistics of the dashboard. */
  datatype SystemStats = SystemStats(totalJobs: int, totalSkills: int, totalCities: int, avgResponseTime: int)

  /** The argument of `setSystemStats`: each key may be left out. */
  datatype StatsPatch = StatsPatch(totalJobs: Option<int>, totalSkills: Option<int>,
                                   totalCities: Option<int>, avgResponseTime: Option<int>)

  datatype Theme = Dark | Light

  /** A node of the skill graph, as far as the skill list reads it. */
  datatype SkillNode = SkillNode(name: Option<string>, skill: Option<string>, id: Option<string>)

  /** What `getSkillGraph` came back with: an exception, or a body whose `nodes` may be missing. */
  datatype GraphResponse = Thrown | Received(nodes: Option<seq<SkillNode>>)

  /** The greeting name: `username || name || '用户'`. */
  const DefaultUserName: string := "用户"

  /** `{ ...stats, ...patch }`: the keys the patch gives replace, the others stay. */
  function Merge(stats: SystemStats, patch: StatsPatch): (r: SystemStats)
    ensures r.totalJobs == (if patch.totalJobs.Some? then patch.totalJobs.value else stats.totalJobs)
    ensures r.totalSkills == (if patch.totalSkills.Some? then patch.totalSkills.value else stats.totalSkills)
    ensures r.totalCities == (if patch.totalCities.Some? then patch.totalCities.value else stats.totalCities)
    ensures r.avgResponseTime == (if patch.avgResponseTime.Some? then patch.avgResponseTime.value else stats.avgResponseTime)
  {
    SystemStats(
      if patch.totalJobs.Some? then patch.totalJobs.value else stats.totalJobs,
      if patch.totalSkills.Some? then patch.totalSkills.value else stats.totalSkills,
      if patch.totalCities.Some? then patch.totalCities.value else stats.totalCities,
      if patch.avgResponseTime.Some? then patch.avgResponseTime.value else stats.avgResponseTime)
  }

  /** A patch that gives no key. */
  const EmptyPatch: StatsPatch := StatsPatch(None, None, None, None)

  /**
   * Merging is idempotent, the empty patch changes nothing, and a patch
   * giving every key replaces the statistics outright.
   */
  lemma MergeLaws(stats: SystemStats, patch: StatsPatch)
    ensures Merge(Merge(stats, patch), patch) == Merge(stats, patch)
    ensures Merge(stats, EmptyPatch) == stats
    ensures patch.totalJobs.Some? && patch.totalSkills.Some? && patch.totalCities.Some? && patch.avgResponseTime.Some?
            ==> Merge(stats, patch) == SystemStats(patch.totalJobs.value, patch.totalSkills.value,
                                                   patch.totalCities.value, patch.avgResponseTime.value)
  {
  }

  /** The `userName` getter on a user that may be missing. */
  function UserNameOf(user: Option<UserInfo>): (r: string)
    ensures r != []
    ensures user.Some? && Truthy(user.value.username) ==> r == user.value.username.value
    ensures user.Some? && !Truthy(user.value.username) && Truthy(user.value.name) ==> r == user.value.name.value
    ensures user.None? || (!Truthy(user.value.username) && !Truthy(user.value.name)) ==> r == DefaultUserName
  {
    if user.Some? && Truthy(user.value.username) then user.value.username.value
    else if user.Some? && Truthy(user.value.name) then user.value.name.value
    else DefaultUserName
  }

  /** The `userId` getter: `userInfo?.id || null`. */
  function UserIdOf(user: Option<UserInfo>): (r: Option<string>)
    ensures r.Some? <==> user.Some? && Truthy(user.value.id)
    ensures r.Some? ==> r.value != [] && r == user.value.id
  {
    if user.Some? && Truthy(user.value.id) then user.value.id else None
  }

  // ---------------------------------------------------------------------
  // The skill list
  // ---------------------------------------------------------------------

  /** `n.name || n.skill || n.id || ''` */
  function Label(n: SkillNode): (r: string)
    ensures r != [] <==> Truthy(n.name) || Truthy(n.skill) || Truthy(n.id)
    ensures Truthy(n.name) ==> r == n.name.value
  {
    if Truthy(n.name) then n.name.value
    else if Truthy(n.skill) then n.skill.value
    else if Truthy(n.id) then n.id.value
    else []
  }

  /** The labels of the nodes, in order. */
  function Labels(nodes: seq<SkillNode>): (r: seq<string>)
    ensures |r| == |nodes|
    ensures forall k :: 0 <= k < |nodes| ==> r[k] == Label(nodes[k])
  {
    seq(|nodes|, k requires 0 <= k < |nodes| => Label(nodes[k]))
  }

  /** `.filter(Boolean)` on strings: the non-empty ones. */
  function NonEmpty(xs: seq<string>): (r: seq<string>)
    ensures forall x :: x in r <==> x in xs && x != []
  {
    Filter(xs, (x: string) => x != [])
  }

  /** Removing later duplicates keeps a sorted sequence sorted. */
  lemma {:induction false} DedupKeepsSorted(xs: seq<string>)
    requires SortedStrings(xs)
    ensures SortedStrings(Dedup(xs))
    decreases |xs|
  {
    if xs != [] {
      var init := xs[..|xs| - 1];
      var last := xs[|xs| - 1];
      assert SortedStrings(init);
      DedupKeepsSorted(init);
      var d := Dedup(init);
      if last !in init {
        forall i | 0 <= i < |d| ensures LexLe(d[i], last) {
          assert d[i] in init;
          var k :| 0 <= k < |init| && init[k] == d[i];
          assert xs[k] == d[i];
        }
        assert Dedup(xs) == d + [last];
      }
    }
  }

  /**
   * `[...new Set(names.sort())]` after mapping each node to its label and
   * dropping the empty ones: strictly increasing, and holding exactly the
   * non-empty labels of the nodes.
   */
  function SkillList(nodes: seq<SkillNode>): (r: seq<string>)
    ensures StrictlySorted(r)
    ensures forall x :: x in r <==> x != [] && x in Labels(nodes)
    ensures forall x :: x in r ==> x != []
  {
    var names := NonEmpty(Labels(nodes));
    var sorted := SortStrings(names);
    var r := Dedup(sorted);
    DedupKeepsSorted(sorted);
    assert forall x :: x in sorted <==> x in names by {
      forall x ensures x in sorted <==> x in names {
        assert x in sorted <==> x in multiset(sorted);
        assert x in names <==> x in multiset(names);
      }
    }
    r
  }

  /** Two duplicate-free sequences with the same elements hold them equally often. */
  lemma SameElementsSameMultiset(a: seq<string>, b: seq<string>)
    requires NoDup(a) && NoDup(b)
    requires forall x :: x in a <==> x in b
    ensures multiset(a) == multiset(b)
  {
    NoDupMultiplicity(a);
    NoDupMultiplicity(b);
    forall x ensures multiset(a)[x] == multiset(b)[x] {
      assert x in a <==> x in multiset(a);
      assert x in b <==> x in multiset(b);
    }
  }

  /**
   * Sorting first and then removing duplicates, as the store does, gives
   * the same list as taking the distinct labels and sorting them.
   */
  lemma SkillListIsSortedSet(nodes: seq<SkillNode>)
    ensures SkillList(nodes) == SortedSet(NonEmpty(Labels(nodes)))
  {
    var a, b := SkillList(nodes), SortedSet(NonEmpty(Labels(nodes)));
    SameElementsSameMultiset(a, b);
    SortedUnique(a, b);
  }

  /** `res.data?.nodes?.length` is truthy: the request returned at least one node. */
  predicate HasNodes(res: GraphResponse)
  {
    res.Received? && res.nodes.Some? && |res.nodes.value| > 0
  }

  // ---------------------------------------------------------------------
  // The browser's local storage
  // ---------------------------------------------------------------------

  /**
   * The `token` and `userInfo` keys of `localStorage`. The user is kept
   * as the value `JSON.stringify` wrote; a missing key and the text
   * `null` both read back as no user.
   */
  class LocalStorage {
    var token: Option<string>
    var userInfo: Option<UserInfo>

    constructor (token: Option<string>, userInfo: Option<UserInfo>)
      ensures this.token == token && this.userInfo == userInfo
    {
      this.token := token;
      this.userInfo := userInfo;
    }
  }

  // ---------------------------------------------------------------------
  // The store
  // ---------------------------------------------------------------------

  class Store {
    var userInfo: Option<UserInfo>
    var token: Option<string>
    var systemStats: SystemStats
    var loading: bool
    var theme: Theme
    var skillsList: seq<string>
    var skillsLoaded: bool

    /** The list loaded so far is duplicate-free, sorted and without empty names; it is empty until loaded. */
    predicate Valid()
      reads this
    {
      && StrictlySorted(skillsList)
      && (forall x :: x in skillsList ==> x != [])
      && (!skillsLoaded ==> skillsList == [])
    }

    /** The initial state. */
    constructor ()
      ensures Valid()
      ensures userInfo.None? && token.None?
      ensures systemStats == SystemStats(0, 0, 0, 0)
      ensures !loading && theme == Dark
      ensures skillsList == [] && !skillsLoaded
    {
      userInfo := None;
      token := None;
      systemStats := SystemStats(0, 0, 0, 0);
      loading := false;
      theme := Dark;
      skillsList := [];
      skillsLoaded := false;
    }

    /** `isLoggedIn`: the token is there and not empty. */
    function IsLoggedIn(): (r: bool)
      reads this
      ensures r <==> Truthy(token)
    {
      token.Some? && token.value != []
    }

    /** `userName` */
    function UserName(): (r: string)
      reads this
      ensures r != []
      ensures r == UserNameOf(userInfo)
    {
      UserNameOf(userInfo)
    }

    /** `userId` */
    function UserId(): (r: Option<string>)
      reads this
      ensures r == UserIdOf(userInfo)
    {
      UserIdOf(userInfo)
    }

    method SetLoading(status: bool)
      modifies this
      ensures loading == status
      ensures userInfo == old(userInfo) && token == old(token) && systemStats == old(systemStats)
      ensures theme == old(theme) && skillsList == old(skillsList) && skillsLoaded == old(skillsLoaded)
    {
      loading := status;
    }

    method SetTheme(t: Theme)
      modifies this
      ensures theme == t
      ensures userInfo == old(userInfo) && token == old(token) && systemStats == old(systemStats)
      ensures loading == old(loading) && skillsList == old(skillsList) && skillsLoaded == old(skillsLoaded)
    {
      theme := t;
    }

    /** Only the keys the patch gives change; nothing else in the store does. */
    method SetSystemStats(stats: StatsPatch)
      modifies this
      ensures systemStats == Merge(old(systemStats), stats)
      ensures stats.totalJobs.None? ==> systemStats.totalJobs == old(systemStats.totalJobs)
      ensures stats.totalSkills.None? ==> systemStats.totalSkills == old(systemStats.totalSkills)
      ensures stats.totalCities.None? ==> systemStats.totalCities == old(systemStats.totalCities)
      ensures stats.avgResponseTime.None? ==> systemStats.avgResponseTime == old(systemStats.avgResponseTime)
      ensures userInfo == old(userInfo) && token == old(token) && loading == old(loading)
      ensures theme == old(theme) && skillsList == old(skillsList) && skillsLoaded == old(skillsLoaded)
    {
      systemStats := Merge(systemStats, stats);
    }

    /** Signing in sets the token and user here and in local storage. */
    method Login(t: string, user: Option<UserInfo>, storage: LocalStorage)
      modifies this, storage
      ensures token == Some(t) && userInfo == user
      ensures storage.token == Some(t) && storage.userInfo == user
      ensures IsLoggedIn() <==> t != []
      ensures systemStats == old(systemStats) && loading == old(loading) && theme == old(theme)
      ensures skillsList == old(skillsList) && skillsLoaded == old(skillsLoaded)
    {
      token := Some(t);
      userInfo := user;
      storage.token := Some(t);
      storage.userInfo := user;
    }

    /** Signing out clears the token and user here and in local storage. */
    method Logout(storage: LocalStorage)
      modifies this, storage
      ensures token.None? && userInfo.None?
      ensures storage.token.None? && storage.userInfo.None?
      ensures !IsLoggedIn() && UserName() == DefaultUserName && UserId().None?
      ensures systemStats == old(systemStats) && loading == old(loading) && theme == old(theme)
      ensures skillsList == old(skillsList) && skillsLoaded == old(skillsLoaded)
    {
      token := None;
      userInfo := None;
      storage.token := None;
      storage.userInfo := None;
    }

    /**
     * Loads the skill list once: when it is already loaded, or the
     * request failed or returned no nodes, nothing changes; otherwise the
     * list becomes the sorted distinct non-empty labels and is marked
     * loaded.
     */
    method PreloadSkills(res: GraphResponse)
      requires Valid()
      modifies this
      ensures Valid()
      ensures old(skillsLoaded) || !HasNodes(res) ==> skillsList == old(skillsList) && skillsLoaded == old(skillsLoaded)
      ensures !old(skillsLoaded) && HasNodes(res) ==> skillsList == SkillList(res.nodes.value) && skillsLoaded
      ensures userInfo == old(userInfo) && token == old(token) && systemStats == old(systemStats)
      ensures loading == old(loading) && theme == old(theme)
    {
      if skillsLoaded {
        return;
      }
      if res.Received? && res.nodes.Some? && |res.nodes.value| > 0 {
        skillsList := SkillList(res.nodes.value);
        skillsLoaded := true;
      }
    }

    /**
     * Restores the session from local storage when a non-empty token is
     * stored; otherwise nothing changes.
     */
    method RestoreAuth(storage: LocalStorage)
      modifies this
      ensures Truthy(old(storage.token)) ==> token == storage.token && userInfo == storage.userInfo
      ensures !Truthy(old(storage.token)) ==> token == old(token) && userInfo == old(userInfo)
      ensures systemStats == old(systemStats) && loading == old(loading) && theme == old(theme)
      ensures skillsList == old(skillsList) && skillsLoaded == old(skillsLoaded)
    {
      var stored := storage.token;
      if stored.Some? && stored.value != [] {
        token := stored;
        userInfo := storage.userInfo;
      }
    }
  }

  /**
   * A session signed in with a non-empty token survives a reload: a new
   * store restoring from the same local storage is signed in with the same
   * token and user.
   */
  method LoginSurvivesReload(t: string, user: Option<UserInfo>) returns (before: Store, after: Store)
    requires t != []
    ensures before.IsLoggedIn() && after.IsLoggedIn()
    ensures after.token == before.token == Some(t)
    ensures after.userInfo == before.userInfo == user
    ensures after.UserName() == before.UserName()
  {
    var storage := new LocalStorage(None, None);
    before := new Store();
    before.Login(t, user, storage);
    after := new Store();
    after.RestoreAuth(storage);
  }

  /**
   * After signing out no session comes back on reload: the restored store
   * stays signed out.
   */
  method LogoutSurvivesReload(t: string, user: Option<UserInfo>) returns (after: Store)
    ensures !after.IsLoggedIn() && after.token.None? && after.userInfo.None?
  {
    var storage := new LocalStorage(None, None);
    var before := new Store();
    before.Login(t, user, storage);
    before.Logout(storage);
    after := new Store();
    after.RestoreAuth(storage);
  }

  /**
   * The skill list is loaded at most once: a second load, whatever its
   * response, leaves the list of the first successful one.
   */
  method PreloadOnce(first: GraphResponse, second: GraphResponse) returns (list: seq<string>)
    requires HasNodes(first)
    ensures list == SkillList(first.nodes.value)
    ensures StrictlySorted(list)
  {
    var store := new Store();
    store.PreloadSkills(first);
    store.PreloadSkills(second);
    list := store.skillsList;
  }
}
