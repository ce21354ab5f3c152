/**
 * Client data streams: the `vl_data_streams` option maps a license key to an
 * ordered PHP array of streams, each an array of fields; the cloud-connection
 * endpoint appends to it using one-time link tokens.
 */
module Streams {

  import opened Common
  import WordPress

  /** A stream field: a string, a number or a list of strings (the categories). */
  datatype Field = Text(s: string) | Number(r: real) | List(items: seq<string>)

  /** One stream (`id`, `license_key`, `status`, `health_score`, `categories`, ...). */
  type Stream = map<string, Field>

  /** A PHP array key. */
  datatype Key = Named(name: string) | Index(n: int)

  /** An ordered PHP array of streams. */
  type StreamArray = seq<(Key, Stream)>

  /** A non-negative decimal integer written without leading zeros. */
  predicate IsDecimal(s: string) {
    s != [] && (forall i :: 0 <= i < |s| ==> '0' <= s[i] <= '9') && (s[0] == '0' ==> |s| == 1)
  }

  function DecimalValue(s: string): nat
    requires forall i :: 0 <= i < |s| ==> '0' <= s[i] <= '9'
  {
    if s == [] then 0 else 10 * DecimalValue(s[..|s| - 1]) + (s[|s| - 1] as int - '0' as int)
  }

  /** `PHP_INT_MAX` on a 64-bit build. */
  const PhpIntMax: int := 0x7FFF_FFFF_FFFF_FFFF

  /**
   * PHP stores a string key that is a canonical decimal integer in the range
   * of its integers as that integer: no leading zeros, a leading `-` only
   * before a non-zero value (so `"-0"` stays a string).
   */
  function ArrayKey(s: string): (k: Key)
    ensures k.Index? ==> -PhpIntMax - 1 <= k.n <= PhpIntMax
    ensures k.Named? ==> k.name == s
  {
    if IsDecimal(s) && DecimalValue(s) <= PhpIntMax then Index(DecimalValue(s))
    else if |s| > 1 && s[0] == '-' && IsDecimal(s[1..]) && s[1..] != "0" && DecimalValue(s[1..]) <= PhpIntMax + 1
    then Index(-(DecimalValue(s[1..]) as int))
    else Named(s)
  }

  /** `"-5"` is the integer key -5, while `"-0"` and `"05"` stay strings. */
  lemma ArrayKeyExamples()
    ensures ArrayKey("-5") == Index(-5)
    ensures ArrayKey("-0") == Named("-0")
    ensures ArrayKey("05") == Named("05")
    ensures ArrayKey("12") == Index(12)
  {
    assert "-5"[1..] == "5" && DecimalValue("5") == 5;
    assert "-0"[1..] == "0";
    assert "12"[..1] == "1" && DecimalValue("12") == 12;
  }

  /** No key occurs twice, as in every PHP array. */
  predicate UniqueKeys(a: StreamArray) {
    forall i, j :: 0 <= i < j < |a| ==> a[i].0 != a[j].0
  }

  /** The position of key `k`. */
  function Find(a: StreamArray, k: Key): (r: Option<nat>)
    ensures r.Some? ==> r.value < |a| && a[r.value].0 == k
    ensures r.Some? ==> forall j :: 0 <= j < r.value ==> a[j].0 != k
    ensures r.None? <==> forall i :: 0 <= i < |a| ==> a[i].0 != k
  {
    if a == [] then None
    else if a[0].0 == k then Some(0)
    else match Find(a[1..], k)
      case None => None
      case Some(i) => Some(i + 1)
  }

  /** `$a[$k]`, when set. */
  function Lookup(a: StreamArray, k: Key): Option<Stream> {
    match Find(a, k)
    case None => None
    case Some(i) => Some(a[i].1)
  }

  /** `$a[$k] = $v`: overwrite in place, or append at the end. */
  function Put(a: StreamArray, k: Key, v: Stream): StreamArray {
    match Find(a, k)
    case None => a + [(k, v)]
    case Some(i) => a[i := (k, v)]
  }

  /** The key `$a[] = $v` uses: one more than the greatest integer key, and never below 0. */
  function NextIndex(a: StreamArray): (r: nat)
    ensures forall i :: 0 <= i < |a| && a[i].0.Index? ==> a[i].0.n < r
  {
    if a == [] then 0
    else
      var rest := NextIndex(a[..|a| - 1]);
      var last := a[|a| - 1].0;
      if last.Index? && last.n + 1 > rest then last.n + 1 else rest
  }

  /** `$a[] = $v`. */
  function Push(a: StreamArray, v: Stream): StreamArray {
    a + [(Index(NextIndex(a)), v)]
  }

  lemma FindUnique(a: StreamArray, k: Key, i: nat)
    requires UniqueKeys(a) && i < |a| && a[i].0 == k
    ensures Find(a, k) == Some(i)
  {
  }

  /** Writing key `k` sets it and leaves every other key's value alone. */
  lemma PutLookup(a: StreamArray, k: Key, v: Stream, k': Key)
    requires UniqueKeys(a)
    ensures UniqueKeys(Put(a, k, v))
    ensures Lookup(Put(a, k, v), k') == if k' == k then Some(v) else Lookup(a, k')
  {
    var b := Put(a, k, v);
    match Find(a, k)
    case None =>
      assert b == a + [(k, v)];
      FindUnique(b, k, |a|);
      if Find(a, k').Some? && k' != k {
        FindUnique(b, k', Find(a, k').value);
      }
    case Some(i) =>
      assert b == a[i := (k, v)];
      FindUnique(b, k, i);
      if Find(a, k').Some? && k' != k {
        FindUnique(b, k', Find(a, k').value);
      }
  }

  /** Looking a key up in an array that starts with `x`. */
  lemma LookupCons(x: (Key, Stream), r: StreamArray, k: Key)
    ensures Lookup([x] + r, k) == if x.0 == k then Some(x.1) else Lookup(r, k)
  {
    assert ([x] + r)[1..] == r;
    if x.0 != k && Find(r, k).Some? {
      assert ([x] + r)[Find(r, k).value + 1] == r[Find(r, k).value];
    }
  }

  /** `$a[] = $v` appends under a key not yet in use. */
  lemma PushIsPut(a: StreamArray, v: Stream)
    ensures Find(a, Index(NextIndex(a))).None?
    ensures Push(a, v) == Put(a, Index(NextIndex(a)), v)
  {
  }

  /** `isset($all[$k]) ? $all[$k] : array()`. */
  function StreamsOf(all: map<string, StreamArray>, licenseKey: string): StreamArray {
    if licenseKey in all then all[licenseKey] else []
  }

  /** The ten stream categories. */
  const Categories: seq<string> := ["infrastructure", "content", "search", "analytics", "marketing",
                                    "ecommerce", "security", "cloudops", "identity", "competitive"]

  /** `array_values(array_intersect($cs, $valid))`: the values of `cs` found in `valid`, in order, repeats kept. */
  function Intersect(cs: seq<string>, valid: seq<string>): (r: seq<string>)
    ensures |r| <= |cs|
    ensures forall c :: c in r <==> c in cs && c in valid
  {
    if cs == [] then []
    else (if cs[0] in valid then [cs[0]] else []) + Intersect(cs[1..], valid)
  }

  /** Filtering twice filters nothing more. */
  lemma {:induction false} IntersectIdempotent(cs: seq<string>, valid: seq<string>)
    ensures Intersect(Intersect(cs, valid), valid) == Intersect(cs, valid)
  {
    if cs != [] {
      IntersectIdempotent(cs[1..], valid);
      var rest := Intersect(cs[1..], valid);
      if cs[0] in valid {
        var once := [cs[0]] + rest;
        assert Intersect(cs, valid) == once;
        assert once[0] == cs[0] && once[1..] == rest;
        assert Intersect(once, valid) == [cs[0]] + Intersect(rest, valid);
      } else {
        assert Intersect(cs, valid) == [] + rest == rest;
      }
    }
  }

  /** The categories `assign_stream_categories` accepts. */
  function KnownCategories(cs: seq<string>): seq<string> {
    Intersect(cs, Categories)
  }

  /** `isset($s['categories']) && in_array($c, $s['categories'])`. */
  predicate HasCategory(s: Stream, c: string) {
    "categories" in s && s["categories"].List? && c in s["categories"].items
  }

  /** `array_filter` on the category test: keys and order are kept. */
  function InCategory(a: StreamArray, c: string): (r: StreamArray)
    ensures |r| <= |a|
    ensures forall i :: 0 <= i < |r| ==> HasCategory(r[i].1, c)
  {
    if a == [] then []
    else (if HasCategory(a[0].1, c) then [a[0]] else []) + InCategory(a[1..], c)
  }

  /** A stream is listed under `c` exactly when it is stored and carries `c`. */
  lemma {:induction false} InCategoryLookup(a: StreamArray, c: string, k: Key)
    requires UniqueKeys(a)
    ensures Lookup(InCategory(a, c), k) ==
      if Lookup(a, k).Some? && HasCategory(Lookup(a, k).value, c) then Lookup(a, k) else None
  {
    if a != [] {
      var rest := a[1..];
      assert UniqueKeys(rest) by {
        forall i, j | 0 <= i < j < |rest| ensures rest[i].0 != rest[j].0 {
          assert rest[i] == a[i + 1] && rest[j] == a[j + 1];
        }
      }
      InCategoryLookup(rest, c, k);
      var fr := InCategory(rest, c);
      assert a == [a[0]] + rest;
      LookupCons(a[0], rest, k);
      if a[0].0 == k {
        assert Find(rest, k).None? by {
          forall i | 0 <= i < |rest| ensures rest[i].0 != k {
            assert rest[i] == a[i + 1];
          }
        }
      }
      if HasCategory(a[0].1, c) {
        assert InCategory(a, c) == [a[0]] + fr;
        LookupCons(a[0], fr, k);
      } else {
        assert InCategory(a, c) == fr;
      }
    }
  }

  /** `get_license_streams`: the license's streams, narrowed to a category when one is given. */
  function LicenseStreams(all: map<string, StreamArray>, licenseKey: string, category: string): StreamArray {
    if licenseKey !in all then []
    else if PhpEmpty(category) then all[licenseKey]
    else InCategory(all[licenseKey], category)
  }

  /** What `get_license_streams` lists under key `k`. */
  lemma LicenseStreamsLookup(all: map<string, StreamArray>, licenseKey: string, category: string, k: Key)
    requires licenseKey in all ==> UniqueKeys(all[licenseKey])
    ensures var listed := Lookup(LicenseStreams(all, licenseKey, category), k);
      var stored := Lookup(StreamsOf(all, licenseKey), k);
      listed == if stored.Some? && (PhpEmpty(category) || HasCategory(stored.value, category)) then stored else None
  {
    if licenseKey in all && !PhpEmpty(category) {
      InCategoryLookup(all[licenseKey], category, k);
    }
  }

  /** What `add_data_stream` stores: the caller's fields with the required ones set and defaults filled in. */
  function WithDefaults(data: Stream, streamId: string, licenseKey: string, now: string): Stream {
    var d := data["id" := Text(streamId)]["license_key" := Text(licenseKey)]["created" := Text(now)]["last_updated" := Text(now)];
    var d := if "status" in d then d else d["status" := Text("active")];
    var d := if "health_score" in d then d else d["health_score" := Number(100.0)];
    var d := if "categories" in d then d else d["categories" := List([])];
    var d := if "error_count" in d then d else d["error_count" := Number(0.0)];
    if "warning_count" in d then d else d["warning_count" := Number(0.0)]
  }

  /** The fields `add_data_stream` always overwrites. */
  const RequiredFields: set<string> := {"id", "license_key", "created", "last_updated"}

  /** The fields `add_data_stream` fills in when the caller leaves them out. */
  const DefaultedFields: set<string> := {"status", "health_score", "categories", "error_count", "warning_count"}

  /** A stored stream carries its id, its license and both timestamps. */
  lemma WithDefaultsRequired(data: Stream, streamId: string, licenseKey: string, now: string)
    ensures var r := WithDefaults(data, streamId, licenseKey, now);
      && "id" in r && r["id"] == Text(streamId) && "license_key" in r && r["license_key"] == Text(licenseKey)
      && "created" in r && r["created"] == Text(now) && "last_updated" in r && r["last_updated"] == Text(now)
  {
  }

  /** The status, health score, categories and counts are the caller's, or their defaults. */
  lemma WithDefaultsDefaults(data: Stream, streamId: string, licenseKey: string, now: string)
    ensures var r := WithDefaults(data, streamId, licenseKey, now);
      && "status" in r && r["status"] == (if "status" in data then data["status"] else Text("active"))
      && "health_score" in r && r["health_score"] == (if "health_score" in data then data["health_score"] else Number(100.0))
      && "categories" in r && r["categories"] == (if "categories" in data then data["categories"] else List([]))
      && "error_count" in r && r["error_count"] == (if "error_count" in data then data["error_count"] else Number(0.0))
      && "warning_count" in r && r["warning_count"] == (if "warning_count" in data then data["warning_count"] else Number(0.0))
  {
  }

  /** Nothing else is added, and every other field of the caller's is kept. */
  lemma WithDefaultsKeeps(data: Stream, streamId: string, licenseKey: string, now: string)
    ensures var r := WithDefaults(data, streamId, licenseKey, now);
      forall f :: (f in r <==> f in data || f in RequiredFields || f in DefaultedFields)
        && (f in data && f !in RequiredFields ==> r[f] == data[f])
  {
  }

  /** The metrics `update_stream_health` may copy, in the order it copies them. */
  const HealthMetrics: seq<string> := ["health_score", "error_count", "warning_count", "status", "last_updated"]

  /** Copy each of `names` that `metrics` sets into `s`. */
  function CopyMetrics(s: Stream, metrics: Stream, names: seq<string>): (r: Stream)
    ensures forall f :: f in r <==> f in s || (f in names && f in metrics)
    ensures forall f :: f in r ==> r[f] == if f in names && f in metrics then metrics[f] else s[f]
  {
    if names == [] then s
    else
      var prev := CopyMetrics(s, metrics, names[..|names| - 1]);
      var m := names[|names| - 1];
      if m in metrics then prev[m := metrics[m]] else prev
  }

  /** The `foreach ($allowed_metrics ...)` loop of `update_stream_health`. */
  method CopyAllowed(s: Stream, metrics: Stream, names: seq<string>) returns (r: Stream)
    ensures r == CopyMetrics(s, metrics, names)
  {
    r := s;
    var i := 0;
    while i < |names|
      invariant 0 <= i <= |names|
      invariant r == CopyMetrics(s, metrics, names[..i])
    {
      var m := names[i];
      assert names[..i + 1][..i] == names[..i];
      if m in metrics {
        r := r[m := metrics[m]];
      }
      i := i + 1;
    }
    assert names[..i] == names;
  }

  /** What `assign_stream_categories` stores. */
  function Assigned(s: Stream, categories: seq<string>, now: string): Stream {
    s["categories" := List(KnownCategories(categories))]["last_updated" := Text(now)]
  }

  /** After an assignment the stream carries `c` exactly when `c` was asked for and is known. */
  lemma AssignedCategory(s: Stream, categories: seq<string>, now: string, c: string)
    ensures HasCategory(Assigned(s, categories, now), c) <==> c in categories && c in Categories
  {
    assert Assigned(s, categories, now)["categories"] == List(KnownCategories(categories));
  }

  /** A stream written under `k` is listed under `c` exactly when it carries `c`. */
  lemma ListedAfterPut(a: StreamArray, k: Key, s: Stream, c: string)
    requires UniqueKeys(a)
    ensures Lookup(InCategory(Put(a, k, s), c), k) == if HasCategory(s, c) then Some(s) else None
  {
    PutLookup(a, k, s, k);
    InCategoryLookup(Put(a, k, s), c, k);
  }

  /** A one-time link token (`vl_client_link_token_<token>`). */
  datatype Token = Token(expires: int, serviceName: string, licenseKey: string, subcategory: string)

  /** The option as `get_option` returns it. */
  datatype StreamOption = NotAnArray | Licenses(licenses: map<string, StreamArray>)

  /** The JSON body of a request: `$data[$name] ?? ''`. */
  function JsonParam(data: map<string, string>, name: string): string {
    if name in data then data[name] else ""
  }

  /** The sanitised fields of a cloud-connection request. */
  datatype Connect = Connect(service: string, token: string, apiKey: string, accountId: string, notes: string)

  function ReadConnect(h: WordPress.Host, data: map<string, string>): Connect {
    Connect(h.sanitizeText(JsonParam(data, "service_name")), h.sanitizeText(JsonParam(data, "token")),
            h.sanitizeText(JsonParam(data, "api_key")), h.sanitizeText(JsonParam(data, "account_id")),
            h.sanitizeTextarea(JsonParam(data, "notes")))
  }

  /** The connection record appended to the license's streams. */
  function Connection(c: Connect, t: Token, now: string): Stream {
    map["service_name" := Text(c.service), "subcategory" := Text(t.subcategory), "api_key" := Text(c.apiKey),
        "account_id" := Text(c.accountId), "notes" := Text(c.notes), "status" := Text("connected"),
        "connected_at" := Text(now), "connected_by" := Text("client")]
  }

  /** The reply of `rest_complete_cloud_connection`. */
  datatype CloudReply = CloudReply(success: bool, message: string, service: Option<string>)

  class StreamStore {
    /** The `vl_data_streams` option. */
    var option: StreamOption
    /** The `vl_client_link_token_*` options, by token. */
    var linkTokens: map<string, Token>

    /** `data_streams_store_get`: anything but an array reads as empty. */
    function All(): map<string, StreamArray>
      reads this
    {
      if option.Licenses? then option.licenses else map[]
    }

    ghost predicate Valid()
      reads this
    {
      forall l :: l in All() ==> UniqueKeys(All()[l])
    }

    constructor(option: StreamOption, linkTokens: map<string, Token>)
      requires option.Licenses? ==> forall l :: l in option.licenses ==> UniqueKeys(option.licenses[l])
      ensures Valid() && this.option == option && this.linkTokens == linkTokens
    {
      this.option := option;
      this.linkTokens := linkTokens;
    }

    /** `data_streams_store_set`: write the whole store; it returns nothing. */
    method StoreSet(list: map<string, StreamArray>)
      modifies this
      ensures All() == list && linkTokens == old(linkTokens)
    {
      option := Licenses(list);
    }

    /**
     * `add_data_stream`: refuse an empty license or stream id or a non-array
     * payload; otherwise store the stream, with its defaults, under its id.
     * Reports success as `true` (see `AddDataStreamAsWritten`).
     */
    method AddDataStream(licenseKey: string, streamId: string, data: Option<Stream>, now: string) returns (added: bool)
      requires Valid()
      modifies this
      ensures Valid() && linkTokens == old(linkTokens)
      ensures added <==> !PhpEmpty(licenseKey) && !PhpEmpty(streamId) && data.Some?
      ensures !added ==> option == old(option)
      ensures added ==> All() == old(All())[licenseKey :=
        Put(StreamsOf(old(All()), licenseKey), ArrayKey(streamId), WithDefaults(data.value, streamId, licenseKey, now))]
    {
      if PhpEmpty(licenseKey) || PhpEmpty(streamId) || data.None? {
        return false;
      }
      var all := All();
      var streams := StreamsOf(all, licenseKey);
      var stream := WithDefaults(data.value, streamId, licenseKey, now);
      PutLookup(streams, ArrayKey(streamId), stream, ArrayKey(streamId));
      StoreSet(all[licenseKey := Put(streams, ArrayKey(streamId), stream)]);
      return true;
    }

    /** `add_data_stream` as written: it returns what `data_streams_store_set` returns, which is nothing. */
    method AddDataStreamAsWritten(licenseKey: string, streamId: string, data: Option<Stream>, now: string) returns (result: bool)
      requires Valid()
      modifies this
      ensures Valid()
      ensures !result
      ensures !PhpEmpty(licenseKey) && !PhpEmpty(streamId) && data.Some? ==>
        licenseKey in All() && Lookup(All()[licenseKey], ArrayKey(streamId)) == Some(WithDefaults(data.value, streamId, licenseKey, now))
    {
      var added := AddDataStream(licenseKey, streamId, data, now);
      if added {
        PutLookup(StreamsOf(old(All()), licenseKey), ArrayKey(streamId), WithDefaults(data.value, streamId, licenseKey, now), ArrayKey(streamId));
      }
      result := false;
    }

    /**
     * `update_stream_health`: for a stored stream, copy the whitelisted
     * metrics the caller sets and stamp `last_updated`.
     */
    method UpdateStreamHealth(licenseKey: string, streamId: string, metrics: Stream, now: string) returns (updated: bool)
      requires Valid()
      modifies this
      ensures Valid() && linkTokens == old(linkTokens)
      ensures updated <==> licenseKey in old(All()) && Lookup(old(All())[licenseKey], ArrayKey(streamId)).Some?
      ensures !updated ==> option == old(option)
      ensures updated ==> All() == old(All())[licenseKey := Put(old(All())[licenseKey], ArrayKey(streamId),
        CopyMetrics(Lookup(old(All())[licenseKey], ArrayKey(streamId)).value, metrics, HealthMetrics)["last_updated" := Text(now)])]
    {
      var all := All();
      var key := ArrayKey(streamId);
      if licenseKey !in all || Lookup(all[licenseKey], key).None? {
        return false;
      }
      var s := CopyAllowed(Lookup(all[licenseKey], key).value, metrics, HealthMetrics);
      s := s["last_updated" := Text(now)];
      PutLookup(all[licenseKey], key, s, key);
      StoreSet(all[licenseKey := Put(all[licenseKey], key, s)]);
      return true;
    }

    /** `update_stream_health` as written: its result is that of `data_streams_store_set`. */
    method UpdateStreamHealthAsWritten(licenseKey: string, streamId: string, metrics: Stream, now: string) returns (result: bool)
      requires Valid()
      modifies this
      ensures Valid()
      ensures !result
      ensures licenseKey in old(All()) && Lookup(old(All())[licenseKey], ArrayKey(streamId)).Some? ==>
        All() == old(All())[licenseKey := Put(old(All())[licenseKey], ArrayKey(streamId),
          CopyMetrics(Lookup(old(All())[licenseKey], ArrayKey(streamId)).value, metrics, HealthMetrics)["last_updated" := Text(now)])]
    {
      var updated := UpdateStreamHealth(licenseKey, streamId, metrics, now);
      result := false;
    }

    /**
     * `assign_stream_categories`: for a stored stream, keep the known
     * categories asked for and stamp `last_updated`.
     */
    method AssignStreamCategories(licenseKey: string, streamId: string, categories: seq<string>, now: string) returns (stored: bool)
      requires Valid()
      modifies this
      ensures Valid() && linkTokens == old(linkTokens)
      ensures stored <==> licenseKey in old(All()) && Lookup(old(All())[licenseKey], ArrayKey(streamId)).Some?
      ensures !stored ==> option == old(option)
      ensures stored ==> All() == old(All())[licenseKey := Put(old(All())[licenseKey], ArrayKey(streamId),
        Assigned(Lookup(old(All())[licenseKey], ArrayKey(streamId)).value, categories, now))]
    {
      var all := All();
      var key := ArrayKey(streamId);
      if licenseKey !in all || Lookup(all[licenseKey], key).None? {
        return false;
      }
      var s := Assigned(Lookup(all[licenseKey], key).value, categories, now);
      PutLookup(all[licenseKey], key, s, key);
      StoreSet(all[licenseKey := Put(all[licenseKey], key, s)]);
      return true;
    }

    /** `assign_stream_categories` as written: its result is that of `data_streams_store_set`. */
    method AssignStreamCategoriesAsWritten(licenseKey: string, streamId: string, categories: seq<string>, now: string) returns (result: bool)
      requires Valid()
      modifies this
      ensures Valid()
      ensures !result
      ensures licenseKey in old(All()) && Lookup(old(All())[licenseKey], ArrayKey(streamId)).Some? ==>
        All() == old(All())[licenseKey := Put(old(All())[licenseKey], ArrayKey(streamId),
          Assigned(Lookup(old(All())[licenseKey], ArrayKey(streamId)).value, categories, now))]
    {
      var stored := AssignStreamCategories(licenseKey, streamId, categories, now);
      result := false;
    }

    /**
     * `rest_complete_cloud_connection`: the service and token are required,
     * the token must exist, be unexpired and name the same service; the
     * connection is then appended to the token's license and the token is
     * used up.
     */
    method CompleteCloudConnection(h: WordPress.Host, data: map<string, string>, time: int, now: string) returns (reply: CloudReply)
      requires Valid()
      modifies this
      ensures Valid()
      ensures var c := ReadConnect(h, data);
        PhpEmpty(c.service) || PhpEmpty(c.token) ==>
          reply == CloudReply(false, "Service name and token are required", None)
          && option == old(option) && linkTokens == old(linkTokens)
      ensures var c := ReadConnect(h, data);
        !PhpEmpty(c.service) && !PhpEmpty(c.token)
        && (c.token !in old(linkTokens) || old(linkTokens)[c.token].expires < time) ==>
          reply == CloudReply(false, "Invalid or expired token", None)
          && option == old(option) && linkTokens == old(linkTokens)
      ensures var c := ReadConnect(h, data);
        !PhpEmpty(c.service) && !PhpEmpty(c.token) && c.token in old(linkTokens)
        && old(linkTokens)[c.token].expires >= time && old(linkTokens)[c.token].serviceName != c.service ==>
          reply == CloudReply(false, "Token does not match service", None)
          && option == old(option) && linkTokens == old(linkTokens)
      ensures var c := ReadConnect(h, data);
        !PhpEmpty(c.service) && !PhpEmpty(c.token) && c.token in old(linkTokens)
        && old(linkTokens)[c.token].expires >= time && old(linkTokens)[c.token].serviceName == c.service ==>
          var t := old(linkTokens)[c.token];
          && reply == CloudReply(true, "Cloud connection completed successfully", Some(c.service))
          && linkTokens == old(linkTokens) - {c.token}
          && All() == old(All())[t.licenseKey := Push(StreamsOf(old(All()), t.licenseKey), Connection(c, t, now))]
    {
      var c := ReadConnect(h, data);
      if PhpEmpty(c.service) || PhpEmpty(c.token) {
        return CloudReply(false, "Service name and token are required", None);
      }
      if c.token !in linkTokens || linkTokens[c.token].expires < time {
        return CloudReply(false, "Invalid or expired token", None);
      }
      var t := linkTokens[c.token];
      if t.serviceName != c.service {
        return CloudReply(false, "Token does not match service", None);
      }
      var all := All();
      var streams := StreamsOf(all, t.licenseKey);
      var connection := Connection(c, t, now);
      PushIsPut(streams, connection);
      PutLookup(streams, Index(NextIndex(streams)), connection, Index(NextIndex(streams)));
      StoreSet(all[t.licenseKey := Push(streams, connection)]);
      linkTokens := linkTokens - {c.token};
      return CloudReply(true, "Cloud connection completed successfully", Some(c.service));
    }
  }
}
