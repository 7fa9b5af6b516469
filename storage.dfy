/** `MemStorage`: the in-memory record store. Each table is a map from id to
    record with its own id counter; a create takes the counter's value as the
    new id and advances it, an update merges a partial record into the stored
    one, and each list operation returns the rows in its table's order. */
module Storage {
  import opened Wrappers
  import opened Schema
  import opened Sorting
  import SampleData

  /** The keys of `m` are exactly 1 .. next - 1: ids are handed out from 1 by
      a counter and rows are never deleted. */
  ghost predicate Dense<T>(m: map<int, T>, next: int) {
    1 <= next && forall k :: k in m <==> 1 <= k < next
  }

  /** The rows under keys `lo .. hi - 1` in ascending key order. A `Map`
      iterates in insertion order, which is ascending key order here because
      each table's keys are set in increasing order and never removed. */
  function InKeyOrder<T(!new)>(m: map<int, T>, lo: int, hi: int): (r: seq<T>)
    ensures forall x :: x in r <==> exists k :: lo <= k < hi && k in m && m[k] == x
    ensures (forall k :: lo <= k < hi ==> k in m) ==> |r| == if lo <= hi then hi - lo else 0
    ensures (forall k :: lo <= k < hi ==> k in m) ==> forall i :: 0 <= i < |r| ==> r[i] == m[lo + i]
    decreases hi - lo
  {
    if hi <= lo then []
    else
      var rest := InKeyOrder(m, lo + 1, hi);
      if lo in m then [m[lo]] + rest else rest
  }

  /** `Array.from(m.values())` for a table whose keys are 1 .. next - 1:
      the row under key `i + 1` comes `i`-th. */
  function KeyOrder<T(!new)>(m: map<int, T>, next: int): (r: seq<T>)
    requires Dense(m, next)
    ensures |r| == next - 1
    ensures forall i :: 0 <= i < |r| ==> r[i] == m[i + 1]
    ensures forall x :: x in r <==> exists k :: k in m && m[k] == x
  {
    var r := InKeyOrder(m, 1, next);
    assert forall x :: (exists k :: k in m && m[k] == x) ==> x in r by {
      forall x | exists k :: k in m && m[k] == x
        ensures x in r
      {
        var k :| k in m && m[k] == x;
        assert r[k - 1] == x;
      }
    }
    r
  }

  /** A list operation: every row of the table, ordered by `key` with ties
      in id order. */
  function Listed<T(!new)>(m: map<int, T>, next: int, key: T -> int): (r: seq<T>)
    requires Dense(m, next)
    ensures |r| == next - 1
    ensures forall x :: x in r <==> exists k :: k in m && m[k] == x
    ensures multiset(r) == multiset(KeyOrder(m, next))
    ensures SortedBy(r, key)
  {
    var rows := KeyOrder(m, next);
    var r := SortBy(rows, key);
    assert forall x :: x in r <==> x in rows by {
      assert forall x :: x in r <==> multiset(r)[x] > 0;
      assert forall x :: x in rows <==> multiset(rows)[x] > 0;
    }
    r
  }

  // Sort keys. A comparator `(a, b) => b.t - a.t` orders newest first, which
  // is ascending order of `-t`.
  function ViralVideoAge(v: ViralVideo): int { -v.created_at }
  function ProductAge(p: AffiliateProduct): int { -p.created_at }
  function ScriptAge(s: Script): int { -s.created_at }
  function VideoAge(v: Video): int { -v.generated_at }
  function PostTime(p: ScheduledPost): int { p.scheduled_time }
  function AnalyticsAge(a: Analytics): int { -a.date }


  /** The rows that belong to `videoId`; a row without a video never does. */
  function ForVideo(rows: seq<Analytics>, videoId: int): (r: seq<Analytics>)
    ensures forall a :: a in r <==> a in rows && a.video_id == Some(videoId)
    ensures forall a :: multiset(r)[a] == if a.video_id == Some(videoId) then multiset(rows)[a] else 0
  {
    if rows == [] then []
    else
      assert rows == [rows[0]] + rows[1..];
      var rest := ForVideo(rows[1..], videoId);
      if rows[0].video_id == Some(videoId) then [rows[0]] + rest else rest
  }

  /** The position of the first user in `rows` with the given name, or
      `|rows|` when there is none. */
  function FirstWithUsername(rows: seq<User>, username: string): (i: nat)
    ensures i <= |rows|
    ensures forall j :: 0 <= j < i ==> rows[j].username != username
    ensures i < |rows| ==> rows[i].username == username
  {
    if rows == [] then 0
    else if rows[0].username == username then 0
    else 1 + FirstWithUsername(rows[1..], username)
  }

  /** A sample row as stored: `{ ...row, id, <timestamps>: now }`. */
  function StampViralVideo(v: ViralVideo, id: int, now: Timestamp): ViralVideo {
    v.(id := id, created_at := now, updated_at := now)
  }

  function StampAffiliateProduct(p: AffiliateProduct, id: int, now: Timestamp): AffiliateProduct {
    p.(id := id, created_at := now)
  }

  function StampScript(s: Script, id: int, now: Timestamp): Script {
    s.(id := id, created_at := now, updated_at := now)
  }

  function StampAnalytics(a: Analytics, id: int, now: Timestamp): Analytics {
    a.(id := id, date := now)
  }

  /** `rows` holds exactly `samples` and `next` follows the last id: sample
      `i` is stored under id `i + 1`, stamped with `clock[from + i]`. */
  ghost predicate ViralVideosSeeded(rows: map<int, ViralVideo>, next: int, samples: seq<ViralVideo>, clock: seq<Timestamp>, from: nat) {
    next == |samples| + 1 && Dense(rows, next) && from + |samples| <= |clock|
    && forall k :: 1 <= k <= |samples| ==> rows[k] == StampViralVideo(samples[k - 1], k, clock[from + k - 1])
  }

  /** `rows` holds exactly `samples` and `next` follows the last id: sample
      `i` is stored under id `i + 1`, stamped with `clock[from + i]`. */
  ghost predicate AffiliateProductsSeeded(rows: map<int, AffiliateProduct>, next: int, samples: seq<AffiliateProduct>, clock: seq<Timestamp>, from: nat) {
    next == |samples| + 1 && Dense(rows, next) && from + |samples| <= |clock|
    && forall k :: 1 <= k <= |samples| ==> rows[k] == StampAffiliateProduct(samples[k - 1], k, clock[from + k - 1])
  }

  /** `rows` holds exactly `samples` and `next` follows the last id: sample
      `i` is stored under id `i + 1`, stamped with `clock[from + i]`. */
  ghost predicate ScriptsSeeded(rows: map<int, Script>, next: int, samples: seq<Script>, clock: seq<Timestamp>, from: nat) {
    next == |samples| + 1 && Dense(rows, next) && from + |samples| <= |clock|
    && forall k :: 1 <= k <= |samples| ==> rows[k] == StampScript(samples[k - 1], k, clock[from + k - 1])
  }

  /** `rows` holds exactly `samples` and `next` follows the last id: sample
      `i` is stored under id `i + 1`, stamped with `clock[from + i]`. */
  ghost predicate AnalyticsSeeded(rows: map<int, Analytics>, next: int, samples: seq<Analytics>, clock: seq<Timestamp>, from: nat) {
    next == |samples| + 1 && Dense(rows, next) && from + |samples| <= |clock|
    && forall k :: 1 <= k <= |samples| ==> rows[k] == StampAnalytics(samples[k - 1], k, clock[from + k - 1])
  }

  /** The `forEach` over the sample viral videos: row `i` gets the next id and
      the clock reading `clock[from + i]`. */
  method SeedViralVideos(samples: seq<ViralVideo>, clock: seq<Timestamp>, from: nat) returns (rows: map<int, ViralVideo>, next: int)
    requires from + |samples| <= |clock|
    ensures ViralVideosSeeded(rows, next, samples, clock, from)
  {
    rows, next := map[], 1;
    var i := 0;
    while i < |samples|
      invariant 0 <= i <= |samples| && next == i + 1
      invariant forall k :: k in rows <==> 1 <= k <= i
      invariant forall k :: 1 <= k <= i ==> rows[k] == StampViralVideo(samples[k - 1], k, clock[from + k - 1])
    {
      var id := next;
      next := next + 1;
      rows := rows[id := StampViralVideo(samples[i], id, clock[from + i])];
      i := i + 1;
    }
  }

  /** The `forEach` over the sample products: row `i` gets the next id and
      the clock reading `clock[from + i]`. */
  method SeedAffiliateProducts(samples: seq<AffiliateProduct>, clock: seq<Timestamp>, from: nat) returns (rows: map<int, AffiliateProduct>, next: int)
    requires from + |samples| <= |clock|
    ensures AffiliateProductsSeeded(rows, next, samples, clock, from)
      ensures forall k :: k in rows ==> rows[k].id == k
  {
    rows, next := map[], 1;
    var i := 0;
    while i < |samples|
      invariant 0 <= i <= |samples| && next == i + 1
      invariant forall k :: k in rows <==> 1 <= k <= i
      invariant forall k :: 1 <= k <= i ==> rows[k] == StampAffiliateProduct(samples[k - 1], k, clock[from + k - 1])
    {
      var id := next;
      next := next + 1;
      rows := rows[id := StampAffiliateProduct(samples[i], id, clock[from + i])];
      i := i + 1;
    }
  }

  /** The `forEach` over the sample scripts: row `i` gets the next id and
      the clock reading `clock[from + i]`. */
  method SeedScripts(samples: seq<Script>, clock: seq<Timestamp>, from: nat) returns (rows: map<int, Script>, next: int)
    requires from + |samples| <= |clock|
    ensures ScriptsSeeded(rows, next, samples, clock, from)
  {
    rows, next := map[], 1;
    var i := 0;
    while i < |samples|
      invariant 0 <= i <= |samples| && next == i + 1
      invariant forall k :: k in rows <==> 1 <= k <= i
      invariant forall k :: 1 <= k <= i ==> rows[k] == StampScript(samples[k - 1], k, clock[from + k - 1])
    {
      var id := next;
      next := next + 1;
      rows := rows[id := StampScript(samples[i], id, clock[from + i])];
      i := i + 1;
    }
  }

  /** The `forEach` over the sample analytics rows: row `i` gets the next id and
      the clock reading `clock[from + i]`. */
  method SeedAnalytics(samples: seq<Analytics>, clock: seq<Timestamp>, from: nat) returns (rows: map<int, Analytics>, next: int)
    requires from + |samples| <= |clock|
    ensures AnalyticsSeeded(rows, next, samples, clock, from)
      ensures forall k :: k in rows ==> rows[k].id == k
  {
    rows, next := map[], 1;
    var i := 0;
    while i < |samples|
      invariant 0 <= i <= |samples| && next == i + 1
      invariant forall k :: k in rows <==> 1 <= k <= i
      invariant forall k :: 1 <= k <= i ==> rows[k] == StampAnalytics(samples[k - 1], k, clock[from + k - 1])
    {
      var id := next;
      next := next + 1;
      rows := rows[id := StampAnalytics(samples[i], id, clock[from + i])];
      i := i + 1;
    }
  }

  class MemStorage {
    var users: map<int, User>
    var viralVideos: map<int, ViralVideo>
    var affiliateProducts: map<int, AffiliateProduct>
    var scripts: map<int, Script>
    var videos: map<int, Video>
    var scheduledPosts: map<int, ScheduledPost>
    var analytics: map<int, Analytics>

    var currentUserId: int
    var currentViralVideoId: int
    var currentAffiliateProductId: int
    var currentScriptId: int
    var currentVideoId: int
    var currentScheduledPostId: int
    var currentAnalyticsId: int

    /** Each table's keys run from 1 to its counter minus one. Tables without
        an update operation also keep every row under its own id; an update
        may overwrite the `id` field of the others. */
    ghost predicate Valid()
      reads this
    {
      Dense(users, currentUserId) && Dense(viralVideos, currentViralVideoId)
      && Dense(affiliateProducts, currentAffiliateProductId) && Dense(scripts, currentScriptId)
      && Dense(videos, currentVideoId) && Dense(scheduledPosts, currentScheduledPostId)
      && Dense(analytics, currentAnalyticsId)
      && (forall k :: k in users ==> users[k].id == k)
      && (forall k :: k in affiliateProducts ==> affiliateProducts[k].id == k)
      && (forall k :: k in analytics ==> analytics[k].id == k)
    }

    /** `initializeSampleData`: seeds the rows of `seed`, one table after
        another. Each row reads the clock once; `clock` lists the readings in
        order. `new MemStorage()` is this constructor applied to
        `SampleData.Rows()` (6 viral videos, 8 products, 5 scripts and
        3 analytics rows). */
    constructor (seed: SampleData.Seed, clock: seq<Timestamp>)
      requires |clock| == seed.Size()
      ensures Valid()
      ensures users == map[] && videos == map[] && scheduledPosts == map[]
      ensures currentUserId == 1 && currentVideoId == 1 && currentScheduledPostId == 1
      ensures ViralVideosSeeded(viralVideos, currentViralVideoId, seed.viralVideos, clock, 0)
      ensures AffiliateProductsSeeded(affiliateProducts, currentAffiliateProductId, seed.affiliateProducts, clock, seed.ProductsFrom())
      ensures ScriptsSeeded(scripts, currentScriptId, seed.scripts, clock, seed.ScriptsFrom())
      ensures AnalyticsSeeded(analytics, currentAnalyticsId, seed.analytics, clock, seed.AnalyticsFrom())
    {
      var vv, vvNext := SeedViralVideos(seed.viralVideos, clock, 0);
      var ap, apNext := SeedAffiliateProducts(seed.affiliateProducts, clock, seed.ProductsFrom());
      var sc, scNext := SeedScripts(seed.scripts, clock, seed.ScriptsFrom());
      var an, anNext := SeedAnalytics(seed.analytics, clock, seed.AnalyticsFrom());
      users, videos, scheduledPosts := map[], map[], map[];
      currentUserId, currentVideoId, currentScheduledPostId := 1, 1, 1;
      viralVideos, currentViralVideoId := vv, vvNext;
      affiliateProducts, currentAffiliateProductId := ap, apNext;
      scripts, currentScriptId := sc, scNext;
      analytics, currentAnalyticsId := an, anNext;
    }

    // ---------------------------------------------------------------- users

    /** `getUser`: the row stored under `id`, if any. */
    function GetUser(id: int): (r: Option<User>)
      reads this
      requires Valid()
      ensures r.Some? <==> 1 <= id < currentUserId
      ensures r.Some? ==> r.value == users[id] && r.value.id == id
    {
      if id in users then Some(users[id]) else None
    }

    /** `getUserByUsername`: the first user, in id order, with that name. */
    function GetUserByUsername(username: string): (r: Option<User>)
      reads this
      requires Valid()
      ensures r.None? <==> forall k :: k in users ==> users[k].username != username
      ensures r.Some? ==> r.value.id in users && users[r.value.id] == r.value && r.value.username == username
      ensures r.Some? ==> forall k :: k in users && k < r.value.id ==> users[k].username != username
    {
      var rows := KeyOrder(users, currentUserId);
      var i := FirstWithUsername(rows, username);
      assert forall k :: k in users && k < i + 1 ==> users[k].username != username by {
        forall k | k in users && k < i + 1
          ensures users[k].username != username
        {
          assert rows[k - 1] == users[k];
        }
      }
      if i < |rows| then Some(rows[i]) else None
    }

    /** `createUser`: stores the user under the next id. */
    method CreateUser(ins: InsertUser) returns (u: User)
      requires Valid()
      modifies this`users, this`currentUserId
      ensures Valid()
      ensures u == NewUser(ins, old(currentUserId))
      ensures u.id !in old(users) && forall k :: k in old(users) ==> k < u.id
      ensures users == old(users)[u.id := u] && currentUserId == old(currentUserId) + 1
      ensures GetUser(u.id) == Some(u)
    {
      var id := currentUserId;
      currentUserId := currentUserId + 1;
      u := NewUser(ins, id);
      users := users[id := u];
    }

    // ------------------------------------------------------------ ViralVideo

    /** `getViralVideos`: every row, newest first by `created_at`; ties keep id order. */
    function GetViralVideos(): (r: seq<ViralVideo>)
      reads this
      requires Valid()
      ensures |r| == currentViralVideoId - 1
      ensures multiset(r) == multiset(KeyOrder(viralVideos, currentViralVideoId))
      ensures forall x :: x in r <==> exists k :: k in viralVideos && viralVideos[k] == x
      ensures SortedBy(r, ViralVideoAge)
    {
      Listed(viralVideos, currentViralVideoId, ViralVideoAge)
    }

    /** `getViralVideo`: the row stored under `id`, if any. */
    function GetViralVideo(id: int): (r: Option<ViralVideo>)
      reads this
      requires Valid()
      ensures r.Some? <==> 1 <= id < currentViralVideoId
      ensures r.Some? ==> r.value == viralVideos[id]
    {
      if id in viralVideos then Some(viralVideos[id]) else None
    }

    /** `createViralVideo`: stores the new row under the next id; `now` is the clock
        reading. */
    method CreateViralVideo(ins: InsertViralVideo, now: Timestamp) returns (v: ViralVideo)
      requires Valid()
      modifies this`viralVideos, this`currentViralVideoId
      ensures Valid()
      ensures v == NewViralVideo(ins, old(currentViralVideoId), now)
      ensures v.id !in old(viralVideos) && forall k :: k in old(viralVideos) ==> k < v.id
      ensures viralVideos == old(viralVideos)[v.id := v] && currentViralVideoId == old(currentViralVideoId) + 1
      ensures GetViralVideo(v.id) == Some(v)
    {
      var id := currentViralVideoId;
      currentViralVideoId := currentViralVideoId + 1;
      v := NewViralVideo(ins, id, now);
      viralVideos := viralVideos[id := v];
    }

    /** `updateViralVideo`: merges `updates` into the row under `id`; an unknown id
        changes nothing. */
    method UpdateViralVideo(id: int, updates: ViralVideoPatch, now: Timestamp) returns (r: Option<ViralVideo>)
      requires Valid()
      modifies this`viralVideos
      ensures Valid()
      ensures r.None? <==> id !in old(viralVideos)
      ensures r.None? ==> viralVideos == old(viralVideos)
      ensures r.Some? ==> r.value == MergeViralVideo(old(viralVideos)[id], updates, now) && viralVideos == old(viralVideos)[id := r.value]
    {
      if id in viralVideos {
        var merged := MergeViralVideo(viralVideos[id], updates, now);
        viralVideos := viralVideos[id := merged];
        r := Some(merged);
      } else {
        r := None;
      }
    }

    // ------------------------------------------------------ AffiliateProduct

    /** `getAffiliateProducts`: every row, newest first by `created_at`; ties keep id order. */
    function GetAffiliateProducts(): (r: seq<AffiliateProduct>)
      reads this
      requires Valid()
      ensures |r| == currentAffiliateProductId - 1
      ensures multiset(r) == multiset(KeyOrder(affiliateProducts, currentAffiliateProductId))
      ensures forall x :: x in r <==> exists k :: k in affiliateProducts && affiliateProducts[k] == x
      ensures SortedBy(r, ProductAge)
    {
      Listed(affiliateProducts, currentAffiliateProductId, ProductAge)
    }

    /** `getAffiliateProduct`: the row stored under `id`, if any. */
    function GetAffiliateProduct(id: int): (r: Option<AffiliateProduct>)
      reads this
      requires Valid()
      ensures r.Some? <==> 1 <= id < currentAffiliateProductId
      ensures r.Some? ==> r.value == affiliateProducts[id]
    {
      if id in affiliateProducts then Some(affiliateProducts[id]) else None
    }

    /** `createAffiliateProduct`: stores the new row under the next id; `now` is the clock
        reading. */
    method CreateAffiliateProduct(ins: InsertAffiliateProduct, now: Timestamp) returns (v: AffiliateProduct)
      requires Valid()
      modifies this`affiliateProducts, this`currentAffiliateProductId
      ensures Valid()
      ensures v == NewAffiliateProduct(ins, old(currentAffiliateProductId), now)
      ensures v.id !in old(affiliateProducts) && forall k :: k in old(affiliateProducts) ==> k < v.id
      ensures affiliateProducts == old(affiliateProducts)[v.id := v] && currentAffiliateProductId == old(currentAffiliateProductId) + 1
      ensures GetAffiliateProduct(v.id) == Some(v)
    {
      var id := currentAffiliateProductId;
      currentAffiliateProductId := currentAffiliateProductId + 1;
      v := NewAffiliateProduct(ins, id, now);
      affiliateProducts := affiliateProducts[id := v];
    }

    // ---------------------------------------------------------------- Script

    /** `getScripts`: every row, newest first by `created_at`; ties keep id order. */
    function GetScripts(): (r: seq<Script>)
      reads this
      requires Valid()
      ensures |r| == currentScriptId - 1
      ensures multiset(r) == multiset(KeyOrder(scripts, currentScriptId))
      ensures forall x :: x in r <==> exists k :: k in scripts && scripts[k] == x
      ensures SortedBy(r, ScriptAge)
    {
      Listed(scripts, currentScriptId, ScriptAge)
    }

    /** `getScript`: the row stored under `id`, if any. */
    function GetScript(id: int): (r: Option<Script>)
      reads this
      requires Valid()
      ensures r.Some? <==> 1 <= id < currentScriptId
      ensures r.Some? ==> r.value == scripts[id]
    {
      if id in scripts then Some(scripts[id]) else None
    }

    /** `createScript`: stores the new row under the next id; `now` is the clock
        reading. */
    method CreateScript(ins: InsertScript, now: Timestamp) returns (v: Script)
      requires Valid()
      modifies this`scripts, this`currentScriptId
      ensures Valid()
      ensures v == NewScript(ins, old(currentScriptId), now)
      ensures v.id !in old(scripts) && forall k :: k in old(scripts) ==> k < v.id
      ensures scripts == old(scripts)[v.id := v] && currentScriptId == old(currentScriptId) + 1
      ensures GetScript(v.id) == Some(v)
    {
      var id := currentScriptId;
      currentScriptId := currentScriptId + 1;
      v := NewScript(ins, id, now);
      scripts := scripts[id := v];
    }

    /** `updateScript`: merges `updates` into the row under `id`; an unknown id
        changes nothing. */
    method UpdateScript(id: int, updates: ScriptPatch, now: Timestamp) returns (r: Option<Script>)
      requires Valid()
      modifies this`scripts
      ensures Valid()
      ensures r.None? <==> id !in old(scripts)
      ensures r.None? ==> scripts == old(scripts)
      ensures r.Some? ==> r.value == MergeScript(old(scripts)[id], updates, now) && scripts == old(scripts)[id := r.value]
    {
      if id in scripts {
        var merged := MergeScript(scripts[id], updates, now);
        scripts := scripts[id := merged];
        r := Some(merged);
      } else {
        r := None;
      }
    }

    // ----------------------------------------------------------------- Video

    /** `getVideos`: every row, newest first by `generated_at`; ties keep id order. */
    function GetVideos(): (r: seq<Video>)
      reads this
      requires Valid()
      ensures |r| == currentVideoId - 1
      ensures multiset(r) == multiset(KeyOrder(videos, currentVideoId))
      ensures forall x :: x in r <==> exists k :: k in videos && videos[k] == x
      ensures SortedBy(r, VideoAge)
    {
      Listed(videos, currentVideoId, VideoAge)
    }

    /** `getVideo`: the row stored under `id`, if any. */
    function GetVideo(id: int): (r: Option<Video>)
      reads this
      requires Valid()
      ensures r.Some? <==> 1 <= id < currentVideoId
      ensures r.Some? ==> r.value == videos[id]
    {
      if id in videos then Some(videos[id]) else None
    }

    /** `createVideo`: stores the new row under the next id; `now` is the clock
        reading. */
    method CreateVideo(ins: InsertVideo, now: Timestamp) returns (v: Video)
      requires Valid()
      modifies this`videos, this`currentVideoId
      ensures Valid()
      ensures v == NewVideo(ins, old(currentVideoId), now)
      ensures v.id !in old(videos) && forall k :: k in old(videos) ==> k < v.id
      ensures videos == old(videos)[v.id := v] && currentVideoId == old(currentVideoId) + 1
      ensures GetVideo(v.id) == Some(v)
    {
      var id := currentVideoId;
      currentVideoId := currentVideoId + 1;
      v := NewVideo(ins, id, now);
      videos := videos[id := v];
    }

    /** `updateVideo`: merges `updates` into the row under `id`; an unknown id
        changes nothing. */
    method UpdateVideo(id: int, updates: VideoPatch) returns (r: Option<Video>)
      requires Valid()
      modifies this`videos
      ensures Valid()
      ensures r.None? <==> id !in old(videos)
      ensures r.None? ==> videos == old(videos)
      ensures r.Some? ==> r.value == MergeVideo(old(videos)[id], updates) && videos == old(videos)[id := r.value]
    {
      if id in videos {
        var merged := MergeVideo(videos[id], updates);
        videos := videos[id := merged];
        r := Some(merged);
      } else {
        r := None;
      }
    }

    // --------------------------------------------------------- ScheduledPost

    /** `getScheduledPosts`: every row, soonest first by `scheduled_time`; ties keep id order. */
    function GetScheduledPosts(): (r: seq<ScheduledPost>)
      reads this
      requires Valid()
      ensures |r| == currentScheduledPostId - 1
      ensures multiset(r) == multiset(KeyOrder(scheduledPosts, currentScheduledPostId))
      ensures forall x :: x in r <==> exists k :: k in scheduledPosts && scheduledPosts[k] == x
      ensures SortedBy(r, PostTime)
    {
      Listed(scheduledPosts, currentScheduledPostId, PostTime)
    }

    /** `getScheduledPost`: the row stored under `id`, if any. */
    function GetScheduledPost(id: int): (r: Option<ScheduledPost>)
      reads this
      requires Valid()
      ensures r.Some? <==> 1 <= id < currentScheduledPostId
      ensures r.Some? ==> r.value == scheduledPosts[id]
    {
      if id in scheduledPosts then Some(scheduledPosts[id]) else None
    }

    /** `createScheduledPost`: stores the new row under the next id; `now` is the clock
        reading. */
    method CreateScheduledPost(ins: InsertScheduledPost, now: Timestamp) returns (v: ScheduledPost)
      requires Valid()
      modifies this`scheduledPosts, this`currentScheduledPostId
      ensures Valid()
      ensures v == NewScheduledPost(ins, old(currentScheduledPostId), now)
      ensures v.id !in old(scheduledPosts) && forall k :: k in old(scheduledPosts) ==> k < v.id
      ensures scheduledPosts == old(scheduledPosts)[v.id := v] && currentScheduledPostId == old(currentScheduledPostId) + 1
      ensures GetScheduledPost(v.id) == Some(v)
    {
      var id := currentScheduledPostId;
      currentScheduledPostId := currentScheduledPostId + 1;
      v := NewScheduledPost(ins, id, now);
      scheduledPosts := scheduledPosts[id := v];
    }

    /** `updateScheduledPost`: merges `updates` into the row under `id`; an unknown id
        changes nothing. */
    method UpdateScheduledPost(id: int, updates: ScheduledPostPatch) returns (r: Option<ScheduledPost>)
      requires Valid()
      modifies this`scheduledPosts
      ensures Valid()
      ensures r.None? <==> id !in old(scheduledPosts)
      ensures r.None? ==> scheduledPosts == old(scheduledPosts)
      ensures r.Some? ==> r.value == MergeScheduledPost(old(scheduledPosts)[id], updates) && scheduledPosts == old(scheduledPosts)[id := r.value]
    {
      if id in scheduledPosts {
        var merged := MergeScheduledPost(scheduledPosts[id], updates);
        scheduledPosts := scheduledPosts[id := merged];
        r := Some(merged);
      } else {
        r := None;
      }
    }

    // ------------------------------------------------------------- Analytics

    /** `getAnalytics`: every row, newest first by `date`; ties keep id order. */
    function GetAnalytics(): (r: seq<Analytics>)
      reads this
      requires Valid()
      ensures |r| == currentAnalyticsId - 1
      ensures multiset(r) == multiset(KeyOrder(analytics, currentAnalyticsId))
      ensures forall x :: x in r <==> exists k :: k in analytics && analytics[k] == x
      ensures SortedBy(r, AnalyticsAge)
    {
      Listed(analytics, currentAnalyticsId, AnalyticsAge)
    }

    /** `getAnalyticsByVideo`: the rows of one video, newest first by `date`;
        a row without a video belongs to none. */
    function GetAnalyticsByVideo(videoId: int): (r: seq<Analytics>)
      reads this
      requires Valid()
      ensures forall a :: a in r <==> a.video_id == Some(videoId) && exists k :: k in analytics && analytics[k] == a
      ensures multiset(r) == multiset(ForVideo(KeyOrder(analytics, currentAnalyticsId), videoId))
      ensures SortedBy(r, AnalyticsAge)
    {
      var rows := KeyOrder(analytics, currentAnalyticsId);
      var mine := ForVideo(rows, videoId);
      var r := SortBy(mine, AnalyticsAge);
      assert forall a :: a in r <==> a in mine by {
        assert forall a :: a in r <==> multiset(r)[a] > 0;
        assert forall a :: a in mine <==> multiset(mine)[a] > 0;
      }
      r
    }

    /** `createAnalytics`: stores the new row under the next id; `now` is the clock
        reading. */
    method CreateAnalytics(ins: InsertAnalytics, now: Timestamp) returns (a: Analytics)
      requires Valid()
      modifies this`analytics, this`currentAnalyticsId
      ensures Valid()
      ensures a == NewAnalytics(ins, old(currentAnalyticsId), now)
      ensures a.id !in old(analytics) && forall k :: k in old(analytics) ==> k < a.id
      ensures analytics == old(analytics)[a.id := a] && currentAnalyticsId == old(currentAnalyticsId) + 1
      ensures a in GetAnalytics()
    {
      var id := currentAnalyticsId;
      currentAnalyticsId := currentAnalyticsId + 1;
      a := NewAnalytics(ins, id, now);
      analytics := analytics[id := a];
    }
  }
}
