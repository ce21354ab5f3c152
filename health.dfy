/** The category endpoint table and the security health score of a client site. */
module Health {

  import opened Common
  import opened Text
  import Streams

  /** The namespace every category endpoint lives under. */
  const Namespace: string := "luna_widget/v1/"

  /** `get_category_endpoints`' table: the client REST paths each category draws on. */
  const EndpointMap: map<string, seq<string>> := map[
    "infrastructure" := [Namespace + "system/site"],
    "content" := [Namespace + "content/posts", Namespace + "content/pages"],
    "identity" := [Namespace + "users"],
    "security" := [Namespace + "plugins", Namespace + "themes"],
    "analytics" := [Namespace + "chat/history"],
    "search" := [],
    "marketing" := [],
    "ecommerce" := [],
    "cloudops" := [Namespace + "system/site"],
    "competitive" := []]

  /** `get_category_endpoints`: the table's entry, or nothing for an unknown category. */
  function CategoryEndpoints(category: string): seq<string> {
    if category in EndpointMap then EndpointMap[category] else []
  }

  /** The table covers exactly the ten categories streams can be assigned to. */
  lemma EndpointCategories()
    ensures forall c :: c in EndpointMap <==> c in Streams.Categories
  {
  }

  /** A category with endpoints is one streams can be assigned to, and each endpoint is in the namespace. */
  lemma EndpointsInNamespace(category: string)
    ensures CategoryEndpoints(category) != [] ==> category in Streams.Categories
    ensures forall e :: e in CategoryEndpoints(category) ==> StartsWith(e, Namespace)
  {
  }

  /** A plugin or theme entry of the site report. */
  type Item = map<string, PhpVal>

  /** `isset($i['update_available']) && $i['update_available']`. */
  predicate Outdated(item: Item) {
    "update_available" in item && PhpTruthy(item["update_available"])
  }

  /** The number of outdated entries. */
  function OutdatedCount(items: seq<Item>): (n: nat)
    ensures n <= |items|
  {
    if items == [] then 0
    else OutdatedCount(items[..|items| - 1]) + (if Outdated(items[|items| - 1]) then 1 else 0)
  }

  /** A missing list (`!isset`) counts nothing. */
  function OutdatedIn(items: Option<seq<Item>>): nat {
    if items.Some? then OutdatedCount(items.value) else 0
  }

  /** `max(0, min(100, 100 - 5 * $outdated_count))`. */
  function Score(n: nat): int {
    var s := 100 - 5 * n;
    if s < 0 then 0 else if s > 100 then 100 else s
  }

  /** Counting splits over concatenation. */
  lemma {:induction false} OutdatedCountAppend(xs: seq<Item>, ys: seq<Item>)
    ensures OutdatedCount(xs + ys) == OutdatedCount(xs) + OutdatedCount(ys)
    decreases |ys|
  {
    if ys != [] {
      var init := ys[..|ys| - 1];
      assert (xs + ys)[..|xs + ys| - 1] == xs + init;
      assert (xs + ys)[|xs + ys| - 1] == ys[|ys| - 1];
      OutdatedCountAppend(xs, init);
    } else {
      assert xs + ys == xs;
    }
  }

  /** The score is a multiple of five in [0, 100]: full with nothing outdated, zero from twenty on. */
  lemma ScoreRange(n: nat)
    ensures 0 <= Score(n) <= 100 && Score(n) % 5 == 0
    ensures Score(n) == 100 <==> n == 0
    ensures Score(n) == 0 <==> n >= 20
  {
  }

  /** More outdated entries never raise the score. */
  lemma ScoreMonotone(m: nat, n: nat)
    requires m <= n
    ensures Score(n) <= Score(m)
  {
  }

  /** One more outdated plugin costs five points until the score reaches zero. */
  lemma OutdatedPluginCosts(items: seq<Item>, item: Item)
    requires Outdated(item)
    ensures Score(OutdatedCount(items + [item])) == if OutdatedCount(items) >= 20 then 0 else Score(OutdatedCount(items)) - 5
  {
    assert (items + [item])[..|items|] == items;
  }

  /** The outdated entries of one list, counted as the `foreach` does. */
  method CountOutdated(items: seq<Item>) returns (n: nat)
    ensures n == OutdatedCount(items)
  {
    n := 0;
    var i := 0;
    while i < |items|
      invariant 0 <= i <= |items|
      invariant n == OutdatedCount(items[..i])
    {
      assert items[..i + 1][..i] == items[..i];
      if Outdated(items[i]) {
        n := n + 1;
      }
      i := i + 1;
    }
    assert items[..i] == items;
  }

  /** `calculate_security_health`: five points off per outdated plugin or theme, clamped to [0, 100]. */
  method CalculateSecurityHealth(plugins: Option<seq<Item>>, themes: Option<seq<Item>>) returns (score: int)
    ensures score == Score(OutdatedIn(plugins) + OutdatedIn(themes))
    ensures 0 <= score <= 100
  {
    var outdated: nat := 0;
    if plugins.Some? {
      var n := CountOutdated(plugins.value);
      outdated := outdated + n;
    }
    if themes.Some? {
      var n := CountOutdated(themes.value);
      outdated := outdated + n;
    }
    var raw: int := 100 - 5 * outdated;
    score := if raw < 0 then 0 else if raw > 100 then 100 else raw;
  }
}
