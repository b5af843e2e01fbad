/**
 * The console's client-side stores: the session (auth), the product catalog held in memory,
 * the dashboard metrics with the recent-activity log, and the UI notifications. Each store is
 * an object whose mutators replace fields; the product store also records an activity in the
 * metrics store for every insert and for every update or delete that finds the product.
 * The global singletons of the source become objects handed to the product store.
 */
module Stores {
  import opened Outcomes
  import opened Entities
  import Lists

  // ---------------------------------------------------------------- activity log

  datatype ActivityKind = Create | Update | Delete

  datatype Activity = Activity(id: string, kind: ActivityKind, product: string, user: string, timestamp: string)

  /** What a caller of `addActivity` supplies; the store adds the id and the timestamp label. */
  datatype ActivityInput = ActivityInput(kind: ActivityKind, product: string, user: string)

  /** The actor recorded when nobody is signed in, or the user's name is empty. */
  const DefaultActor := "Usuário"

  /** The timestamp label every new activity gets ("now"). */
  const JustNow := "agora"

  function Min(a: int, b: int): int { if a < b then a else b }

  /** `user?.name || "Usuário"`: the signed-in user's name when it is non-empty. */
  function ActorName(user: Option<User>): (r: string)
    ensures r != ""
    ensures user.Some? && user.value.name != "" ==> r == user.value.name
    ensures user.None? || user.value.name == "" ==> r == DefaultActor
  {
    if user.Some? && user.value.name != "" then user.value.name else DefaultActor
  }

  /**
   * `[a, ...log.slice(0, 9)]`: the log after recording `a`. It never grows past ten entries,
   * its head is the newest, and the rest is the start of the old log.
   */
  function PushActivity(log: seq<Activity>, a: Activity): (r: seq<Activity>)
    ensures |r| == Min(10, |log| + 1)
    ensures r[0] == a
    ensures r[1..] <= log
  {
    assert ([a] + log[..Min(9, |log|)])[1..] == log[..Min(9, |log|)];
    [a] + log[..Min(9, |log|)]
  }

  /** The log after recording `acts` one after the other. */
  function PushAll(log: seq<Activity>, acts: seq<Activity>): seq<Activity>
    decreases acts
  {
    if acts == [] then log else PushAll(PushActivity(log, acts[0]), acts[1..])
  }

  /** The elements of `s` in the opposite order: the newest recording first. */
  function Reversed<T>(s: seq<T>): (r: seq<T>)
    ensures |r| == |s|
    ensures forall k :: 0 <= k < |r| ==> r[k] == s[|s| - 1 - k]
  {
    if s == [] then [] else Reversed(s[1..]) + [s[0]]
  }

  lemma PrefixOfConcat<T>(r: seq<T>, x: seq<T>, m: nat, n: nat)
    requires m <= |x| && n <= |r| + m
    ensures (r + x[..m])[..n] == (r + x)[..n]
  {
    assert forall i :: 0 <= i < n ==> (r + x[..m])[i] == (r + x)[i];
  }

  /**
   * After any non-empty run of recordings (or any run, from a log of at most ten), the log
   * holds the ten most recent activities, newest first, followed by what is left of the old log.
   */
  lemma {:induction false} PushAllKeepsNewest(log: seq<Activity>, acts: seq<Activity>)
    requires acts != [] || |log| <= 10
    ensures PushAll(log, acts) == (Reversed(acts) + log)[..Min(10, |acts| + |log|)]
    decreases acts
  {
    if acts == [] {
      assert Reversed(acts) + log == log;
    } else {
      var a0, rest := acts[0], acts[1..];
      var x := [a0] + log;
      var log' := PushActivity(log, a0);
      assert log' == x[..Min(10, |x|)];
      PushAllKeepsNewest(log', rest);
      assert Reversed(acts) == Reversed(rest) + [a0];
      assert Reversed(acts) + log == Reversed(rest) + x;
      PrefixOfConcat(Reversed(rest), x, Min(10, |x|), Min(10, |rest| + |log'|));
    }
  }

  // ---------------------------------------------------------------- auth store

  class AuthStore {
    var user: Option<User>
    var token: Option<string>
    var isAuthenticated: bool

    /** The session invariant: authenticated exactly when a token is held. */
    predicate Valid()
      reads this
    {
      isAuthenticated <==> token.Some?
    }

    constructor ()
      ensures Valid()
      ensures user == None && token == None && !isAuthenticated
    {
      user, token, isAuthenticated := None, None, false;
    }

    method SetAuth(u: User, t: string)
      modifies this
      ensures Valid()
      ensures user == Some(u) && token == Some(t) && isAuthenticated
    {
      user, token, isAuthenticated := Some(u), Some(t), true;
    }

    method ClearAuth()
      modifies this
      ensures Valid()
      ensures user == None && token == None && !isAuthenticated
    {
      user, token, isAuthenticated := None, None, false;
    }
  }

  // ---------------------------------------------------------------- metrics store

  datatype SalesPoint = SalesPoint(month: string, sales: int, products: int)
  datatype CategoryShare = CategoryShare(name: string, value: int, color: string)

  /** A `Partial<MetricsState>` over the data fields: absent fields are None. */
  datatype MetricsPatch = MetricsPatch(
    totalProducts: Option<int>, activeProducts: Option<int>, totalUsers: Option<int>,
    totalRevenue: Option<int>, salesData: Option<seq<SalesPoint>>,
    categoryData: Option<seq<CategoryShare>>, recentActivities: Option<seq<Activity>>)

  class MetricsStore {
    var totalProducts: int
    var activeProducts: int
    var totalUsers: int
    var totalRevenue: int
    var salesData: seq<SalesPoint>
    var categoryData: seq<CategoryShare>
    var recentActivities: seq<Activity>

    /** The store seeded with the given baseline values. */
    constructor (totalProducts: int, activeProducts: int, totalUsers: int, totalRevenue: int,
                 salesData: seq<SalesPoint>, categoryData: seq<CategoryShare>,
                 recentActivities: seq<Activity>)
      ensures this.totalProducts == totalProducts && this.activeProducts == activeProducts
      ensures this.totalUsers == totalUsers && this.totalRevenue == totalRevenue
      ensures this.salesData == salesData && this.categoryData == categoryData
      ensures this.recentActivities == recentActivities
    {
      this.totalProducts, this.activeProducts := totalProducts, activeProducts;
      this.totalUsers, this.totalRevenue := totalUsers, totalRevenue;
      this.salesData, this.categoryData := salesData, categoryData;
      this.recentActivities := recentActivities;
    }

    /** `{...state, ...metrics}`: the fields present in `m` are overwritten, the others kept. */
    method SetMetrics(m: MetricsPatch)
      modifies this
      ensures totalProducts == m.totalProducts.GetOr(old(totalProducts))
      ensures activeProducts == m.activeProducts.GetOr(old(activeProducts))
      ensures totalUsers == m.totalUsers.GetOr(old(totalUsers))
      ensures totalRevenue == m.totalRevenue.GetOr(old(totalRevenue))
      ensures salesData == m.salesData.GetOr(old(salesData))
      ensures categoryData == m.categoryData.GetOr(old(categoryData))
      ensures recentActivities == m.recentActivities.GetOr(old(recentActivities))
    {
      totalProducts := m.totalProducts.GetOr(totalProducts);
      activeProducts := m.activeProducts.GetOr(activeProducts);
      totalUsers := m.totalUsers.GetOr(totalUsers);
      totalRevenue := m.totalRevenue.GetOr(totalRevenue);
      salesData := m.salesData.GetOr(salesData);
      categoryData := m.categoryData.GetOr(categoryData);
      recentActivities := m.recentActivities.GetOr(recentActivities);
    }

    method UpdateSalesData(data: seq<SalesPoint>)
      modifies this`salesData
      ensures salesData == data
    {
      salesData := data;
    }

    /** Records an activity stamped with id `now` at the head of the log, keeping at most ten. */
    method AddActivity(input: ActivityInput, now: string)
      modifies this`recentActivities
      ensures recentActivities == PushActivity(old(recentActivities), Activity(now, input.kind, input.product, input.user, JustNow))
      ensures |recentActivities| <= 10
    {
      var newActivity := Activity(now, input.kind, input.product, input.user, JustNow);
      recentActivities := [newActivity] + recentActivities[..Min(9, |recentActivities|)];
    }
  }

  // ---------------------------------------------------------------- product store

  /** `products.map(p => p.id === id ? {...p, ...patch} : p)` */
  function MergeWhere(ps: seq<Product>, id: string, patch: ProductPatch): (r: seq<Product>)
    ensures |r| == |ps|
    ensures forall j :: 0 <= j < |ps| && ps[j].id != id ==> r[j] == ps[j]
    ensures forall j :: 0 <= j < |ps| && ps[j].id == id ==> r[j] == Merge(ps[j], patch)
  {
    if ps == [] then []
    else [if ps[0].id == id then Merge(ps[0], patch) else ps[0]] + MergeWhere(ps[1..], id, patch)
  }

  /**
   * After the merge a product with the id is found exactly when one was there before and the
   * patch keeps the id; the one found is the first former match, merged.
   */
  lemma UpdateFindsMerged(ps: seq<Product>, id: string, patch: ProductPatch)
    ensures var found := Lists.FindFirst(MergeWhere(ps, id, patch), ProductId, id);
      && (found.Some? <==> Lists.IndexOf(ps, ProductId, id) >= 0 && patch.id.GetOr(id) == id)
      && (found.Some? ==> found.value == Merge(ps[Lists.IndexOf(ps, ProductId, id)], patch))
  {
    var r := MergeWhere(ps, id, patch);
    var i, k := Lists.IndexOf(ps, ProductId, id), Lists.IndexOf(r, ProductId, id);
    if k >= 0 {
      assert ps[k].id == id;
      assert 0 <= i <= k;
      assert r[i].id == patch.id.GetOr(id);
    }
    if i >= 0 && patch.id.GetOr(id) == id {
      assert ProductId(r[i]) == id;
      assert k == i;
    }
  }

  /**
   * The record the local adapter stores on update, `{...old, ...data, updatedAt: now}` at the
   * first index with the id, agrees with this store's merge of the same patch with `updatedAt`
   * present, as long as no other product shares the id.
   */
  lemma FirstIndexMergeAgrees(ps: seq<Product>, id: string, data: ProductPatch, now: string)
    requires forall j, k :: 0 <= j < k < |ps| && ps[j].id == id ==> ps[k].id != id
    ensures var i := Lists.IndexOf(ps, ProductId, id);
      i >= 0 ==> ps[i := Merge(ps[i], data).(updatedAt := now)] == MergeWhere(ps, id, data.(updatedAt := Some(now)))
  {
    var i := Lists.IndexOf(ps, ProductId, id);
    if i >= 0 {
      var r := MergeWhere(ps, id, data.(updatedAt := Some(now)));
      forall j | 0 <= j < |ps| ensures ps[i := Merge(ps[i], data).(updatedAt := now)][j] == r[j] {
        if j < i {
          assert ProductId(ps[j]) != id;
        }
      }
    }
  }

  /** Deleting an id that no product carries leaves the catalog as it was. */
  lemma DeleteAbsentIsNoOp(ps: seq<Product>, id: string)
    requires Lists.FindFirst(ps, ProductId, id).None?
    ensures Lists.Without(ps, ProductId, id) == ps
  {
    Lists.WithoutAbsent(ps, ProductId, id);
  }

  class ProductStore {
    const auth: AuthStore
    const metrics: MetricsStore
    var products: seq<Product>
    var currentProduct: Option<Product>
    var isLoading: bool
    var error: Option<string>

    constructor (auth: AuthStore, metrics: MetricsStore)
      ensures this.auth == auth && this.metrics == metrics
      ensures products == [] && currentProduct == None && !isLoading && error == None
    {
      this.auth, this.metrics := auth, metrics;
      products, currentProduct, isLoading, error := [], None, false, None;
    }

    /** The record the metrics store gets for a mutation of the product titled `title`. */
    function Logged(kind: ActivityKind, title: string, now: string): (r: Activity)
      reads auth
      ensures r.kind == kind && r.product == title && r.id == now && r.timestamp == JustNow
      ensures r.user != "" && (auth.user.Some? && auth.user.value.name != "" ==> r.user == auth.user.value.name)
    {
      Activity(now, kind, title, ActorName(auth.user), JustNow)
    }

    /** Bulk load: the list is stored verbatim, the error cleared, and no activity recorded. */
    method SetProducts(ps: seq<Product>)
      modifies this`products, this`error
      ensures products == ps && error == None
    {
      products, error := ps, None;
    }

    method AddProduct(p: Product, now: string)
      modifies this`products, metrics`recentActivities
      ensures products == old(products) + [p]
      ensures metrics.recentActivities == PushActivity(old(metrics.recentActivities), Logged(Create, p.title, now))
    {
      products := products + [p];
      metrics.AddActivity(ActivityInput(Create, p.title, ActorName(auth.user)), now);
    }

    method UpdateProduct(id: string, patch: ProductPatch, now: string)
      modifies this`products, metrics`recentActivities
      ensures products == MergeWhere(old(products), id, patch)
      ensures var found := Lists.FindFirst(products, ProductId, id);
        metrics.recentActivities ==
          if found.Some? then PushActivity(old(metrics.recentActivities), Logged(Update, found.value.title, now))
          else old(metrics.recentActivities)
    {
      products := MergeWhere(products, id, patch);
      var product := Lists.FindFirst(products, ProductId, id);
      if product.Some? {
        metrics.AddActivity(ActivityInput(Update, product.value.title, ActorName(auth.user)), now);
      }
    }

    method DeleteProduct(id: string, now: string)
      modifies this`products, metrics`recentActivities
      ensures products == Lists.Without(old(products), ProductId, id)
      ensures var found := Lists.FindFirst(old(products), ProductId, id);
        metrics.recentActivities ==
          if found.Some? then PushActivity(old(metrics.recentActivities), Logged(Delete, found.value.title, now))
          else old(metrics.recentActivities)
    {
      var product := Lists.FindFirst(products, ProductId, id);
      products := Lists.Without(products, ProductId, id);
      if product.Some? {
        metrics.AddActivity(ActivityInput(Delete, product.value.title, ActorName(auth.user)), now);
      }
    }

    method SetCurrentProduct(p: Option<Product>)
      modifies this`currentProduct
      ensures currentProduct == p
    {
      currentProduct := p;
    }

    method SetLoading(loading: bool)
      modifies this`isLoading
      ensures isLoading == loading
    {
      isLoading := loading;
    }

    method SetError(e: Option<string>)
      modifies this`error
      ensures error == e
    {
      error := e;
    }
  }

  // ---------------------------------------------------------------- UI store

  datatype Theme = Light | Dark | System

  datatype NotificationKind = Success | Error | Warning | Info

  datatype Notification = Notification(id: string, kind: NotificationKind, title: string, message: string, timestamp: nat)

  /** What a caller of `addNotification` supplies; the store adds the id and the creation time. */
  datatype NotificationInput = NotificationInput(kind: NotificationKind, title: string, message: string)

  function NotificationId(n: Notification): string { n.id }

  class UIStore {
    var sidebarOpen: bool
    var theme: Theme
    var notifications: seq<Notification>

    constructor ()
      ensures !sidebarOpen && theme == System && notifications == []
    {
      sidebarOpen, theme, notifications := false, System, [];
    }

    method SetSidebarOpen(open: bool)
      modifies this`sidebarOpen
      ensures sidebarOpen == open
    {
      sidebarOpen := open;
    }

    method SetTheme(t: Theme)
      modifies this`theme
      ensures theme == t
    {
      theme := t;
    }

    /** Appends the notification with id `id` created at `timestamp` (expiry is not modelled). */
    method AddNotification(input: NotificationInput, id: string, timestamp: nat)
      modifies this`notifications
      ensures notifications == old(notifications) + [Notification(id, input.kind, input.title, input.message, timestamp)]
    {
      var n := Notification(id, input.kind, input.title, input.message, timestamp);
      notifications := notifications + [n];
    }

    /** Removes every notification with the id, keeping the others in order. */
    method RemoveNotification(id: string)
      modifies this`notifications
      ensures notifications == Lists.Without(old(notifications), NotificationId, id)
    {
      notifications := Lists.Without(notifications, NotificationId, id);
    }

    method ClearNotifications()
      modifies this`notifications
      ensures notifications == []
    {
      notifications := [];
    }
  }

  /**
   * The create, update and delete of one product by a signed-in user, as a caller of the
   * stores observes it: the catalog ends empty and the log holds the three records, newest first.
   */
  method LampScenario(u: User) returns (products: seq<Product>, log: seq<Activity>)
    ensures products == []
    ensures |log| == 3 && log[0].kind == Delete && log[1].kind == Update && log[2].kind == Create
    ensures forall i :: 0 <= i < |log| ==> log[i].product == "Lamp" && log[i].user == ActorName(Some(u))
  {
    var auth := new AuthStore();
    auth.SetAuth(u, "token");
    var metrics := new MetricsStore(0, 0, 0, 0, [], [], []);
    var store := new ProductStore(auth, metrics);
    var lamp := Product("1", "local-user", "Lamp", "Desk lamp", true, "", "t0", "t0", None);

    store.AddProduct(lamp, "a1");
    assert store.products == [lamp];
    assert metrics.recentActivities == [Activity("a1", Create, "Lamp", ActorName(Some(u)), JustNow)];

    store.UpdateProduct("1", EmptyPatch.(status := Some(false)), "a2");
    assert store.products[0] == lamp.(status := false);
    assert Lists.FindFirst(store.products, ProductId, "1") == Some(lamp.(status := false));
    assert metrics.recentActivities[0] == Activity("a2", Update, "Lamp", ActorName(Some(u)), JustNow);

    store.DeleteProduct("1", "a3");
    products, log := store.products, metrics.recentActivities;
  }
}
