/**
 * The region registry and the song-availability cache of the wrapper manager. Each storefront
 * is a `RegionInfo` object whose availability flag is updated in place; the cache maps an adam
 * id to the outcome of its last availability check. Times are integer seconds.
 */
module RegionDetector {
  import opened Wrappers
  import opened Seqs

  class RegionInfo {
    const code: string
    const name: string
    var available: bool
    var lastCheck: int

    constructor (code: string, name: string, now: int)
      ensures this.code == code && this.name == name && available && lastCheck == now
    {
      this.code := code;
      this.name := name;
      available := true;
      lastCheck := now;
    }
  }

  /** The outcome of one availability check of a song. */
  datatype SongAvailability = SongAvailability(
    adamId: string, availableRegions: set<string>, unavailableRegions: set<string>, lastCheck: int)

  /** The storefronts known at start-up, in their listed order. */
  const KnownRegions: seq<(string, string)> := [
    ("us", "United States"), ("cn", "China"), ("jp", "Japan"), ("hk", "Hong Kong"),
    ("tw", "Taiwan"), ("gb", "United Kingdom"), ("de", "Germany"), ("fr", "France"),
    ("au", "Australia"), ("ca", "Canada"), ("kr", "South Korea"), ("sg", "Singapore"),
    ("th", "Thailand"), ("in", "India"), ("br", "Brazil"), ("mx", "Mexico"),
    ("es", "Spain"), ("it", "Italy"), ("nl", "Netherlands"), ("se", "Sweden")]

  const DefaultCacheTtl := 3600
  const DefaultApiTimeout := 10

  /** The codes among `order` whose region is available, in order. */
  function AvailableCodes(order: seq<string>, regions: map<string, RegionInfo>): (r: seq<string>)
    reads regions.Values
    ensures forall c :: c in r <==> c in order && c in regions && regions[c].available
  {
    if order == [] then []
    else
      var rest := AvailableCodes(order[1..], regions);
      assert forall c :: c in order <==> c == order[0] || c in order[1..];
      if order[0] in regions && regions[order[0]].available then [order[0]] + rest else rest
  }

  /** A cache entry younger than `cache_ttl` at clock reading `now`. */
  predicate Fresh(a: SongAvailability, now: int, cacheTtl: int)
  {
    now - a.lastCheck < cacheTtl
  }

  /**
   * The availability gathered from the checks of `regions`: `ok(i)` is what the check of the
   * i-th region answered (a failed request answers false).
   */
  function Gathered(adamId: string, regions: seq<string>, ok: nat -> bool, now: int): SongAvailability
  {
    SongAvailability(adamId,
      set i | 0 <= i < |regions| && ok(i) :: regions[i],
      set i | 0 <= i < |regions| && !ok(i) :: regions[i],
      now)
  }

  /** Every checked region lands in one of the two sets, and only checked regions do. */
  lemma GatheredCoversChecked(adamId: string, regions: seq<string>, ok: nat -> bool, now: int)
    ensures var a := Gathered(adamId, regions, ok, now);
      a.availableRegions + a.unavailableRegions == set r | r in regions
  {
    var a := Gathered(adamId, regions, ok, now);
    forall r | r in regions
      ensures r in a.availableRegions + a.unavailableRegions
    {
      var i :| 0 <= i < |regions| && regions[i] == r;
      if ok(i) {
        assert regions[i] in a.availableRegions;
      } else {
        assert regions[i] in a.unavailableRegions;
      }
    }
  }

  /** With each region checked once, no region is both available and unavailable. */
  lemma GatheredDisjoint(adamId: string, regions: seq<string>, ok: nat -> bool, now: int)
    requires Distinct(regions)
    ensures var a := Gathered(adamId, regions, ok, now);
      a.availableRegions * a.unavailableRegions == {}
  {
    var a := Gathered(adamId, regions, ok, now);
    forall r | r in a.availableRegions
      ensures r !in a.unavailableRegions
    {
      var i :| 0 <= i < |regions| && ok(i) && regions[i] == r;
      forall j | 0 <= j < |regions| && !ok(j)
        ensures regions[j] != r
      {
        if i < j {
          assert regions[i] != regions[j];
        } else if j < i {
          assert regions[j] != regions[i];
        }
      }
    }
  }

  /** `is_available_in_region` on one cache entry. */
  function RegionAnswer(a: Option<SongAvailability>, region: string): (r: Option<bool>)
    ensures a.None? ==> r.None?
    ensures a.Some? && region in a.value.availableRegions ==> r == Some(true)
    ensures a.Some? && region !in a.value.availableRegions && region in a.value.unavailableRegions ==> r == Some(false)
    ensures a.Some? && region !in a.value.availableRegions + a.value.unavailableRegions ==> r.None?
  {
    match a
    case None => None
    case Some(v) =>
      if region in v.availableRegions then Some(true)
      else if region in v.unavailableRegions then Some(false)
      else None
  }

  /**
   * One fresh, available `RegionInfo` per listed code, the last listing of a code winning, and
   * the listed codes in their order.
   */
  method BuildRegistry(table: seq<(string, string)>, now: int)
    returns (rs: map<string, RegionInfo>, codes: seq<string>)
    ensures |codes| == |table| && forall i :: 0 <= i < |table| ==> codes[i] == table[i].0
    ensures forall c :: c in rs <==> c in codes
    ensures forall c :: c in rs ==> rs[c].code == c && rs[c].available && rs[c].lastCheck == now
                                    && (c, rs[c].name) in table
    ensures forall c, d :: c in rs && d in rs && c != d ==> rs[c] != rs[d]
    ensures forall c :: c in rs ==> fresh(rs[c])
  {
    rs := map[];
    codes := [];
    for i := 0 to |table|
      invariant |codes| == i && forall k :: 0 <= k < i ==> codes[k] == table[k].0
      invariant forall c :: c in rs <==> c in codes
      invariant forall c :: c in rs ==> rs[c].code == c && rs[c].available && rs[c].lastCheck == now
                                        && (c, rs[c].name) in table
      invariant forall c, d :: c in rs && d in rs && c != d ==> rs[c] != rs[d]
      invariant forall c :: c in rs ==> fresh(rs[c])
    {
      var (code, name) := table[i];
      var info := new RegionInfo(code, name, now);
      rs := rs[code := info];
      codes := codes + [code];
    }
  }

  /** What `get_cache_stats` reports. */
  datatype CacheStats = CacheStats(totalCached: nat, freshCount: nat, staleCount: nat, cacheTtl: int, knownRegions: nat)

  class RegionDetector {
    const cacheTtl: int
    const apiTimeout: int
    var order: seq<string>
    var regions: map<string, RegionInfo>
    var songAvailability: map<string, SongAvailability>

    /** The registry lists its codes in insertion order, each under its own object. */
    ghost predicate Valid()
      reads this`order, this`regions, regions.Values
    {
      (forall c :: c in regions <==> c in order)
      && (forall c :: c in regions ==> regions[c].code == c)
      && (forall c, d :: c in regions && d in regions && c != d ==> regions[c] != regions[d])
    }

    /** Every known storefront, available, checked at `now`. */
    constructor (cacheTtl: int, apiTimeout: int, now: int)
      ensures this.cacheTtl == cacheTtl && this.apiTimeout == apiTimeout && Valid()
      ensures songAvailability == map[]
      ensures |order| == |KnownRegions| && forall i :: 0 <= i < |order| ==> order[i] == KnownRegions[i].0
      ensures forall c :: c in regions ==>
                regions[c].available && regions[c].lastCheck == now && (c, regions[c].name) in KnownRegions
      ensures forall c :: c in regions ==> fresh(regions[c])
    {
      this.cacheTtl := cacheTtl;
      this.apiTimeout := apiTimeout;
      songAvailability := map[];
      var rs, codes := BuildRegistry(KnownRegions, now);
      regions := rs;
      order := codes;
    }

    /** `get_all_regions`, in insertion order. */
    function GetAllRegions(): (r: seq<RegionInfo>)
      reads this`order, this`regions, regions.Values
      requires Valid()
      ensures |r| == |order| && forall i :: 0 <= i < |order| ==> r[i] == regions[order[i]]
    {
      var o, m := order, regions;
      seq(|o|, i requires 0 <= i < |o| && o[i] in m => m[o[i]])
    }

    /** `get_available_regions`: exactly the codes whose flag is set, in insertion order. */
    function GetAvailableRegions(): (r: seq<string>)
      reads this`order, this`regions, regions.Values
      requires Valid()
      ensures forall c :: c in r <==> c in regions && regions[c].available
    {
      AvailableCodes(order, regions)
    }

    /** `get_region_name`. */
    function GetRegionName(code: string): (r: Option<string>)
      reads this`order, this`regions, regions.Values
      ensures r.Some? <==> code in regions
      ensures r.Some? ==> r.value == regions[code].name
    {
      if code in regions then Some(regions[code].name) else None
    }

    /** `get_cached_availability`. */
    function GetCachedAvailability(adamId: string): (r: Option<SongAvailability>)
      reads this
      ensures r.Some? <==> adamId in songAvailability
      ensures r.Some? ==> r.value == songAvailability[adamId]
    {
      if adamId in songAvailability then Some(songAvailability[adamId]) else None
    }

    /** `is_available_in_region`: None without a cache entry or for an unchecked region. */
    function IsAvailableInRegion(adamId: string, region: string): (r: Option<bool>)
      reads this
      ensures adamId !in songAvailability ==> r.None?
      ensures adamId in songAvailability ==> r == RegionAnswer(Some(songAvailability[adamId]), region)
    {
      RegionAnswer(GetCachedAvailability(adamId), region)
    }

    /**
     * `check_song_availability`: a cache entry younger than `cache_ttl` is returned as it is
     * unless `forceRefresh`; otherwise each region of `requested` (by default the available
     * ones) is checked, `ok(i)` being the answer for the i-th, and the result is cached.
     */
    method CheckSongAvailability(adamId: string, requested: Option<seq<string>>, forceRefresh: bool, now: int,
                                 ok: nat -> bool)
      returns (a: SongAvailability)
      requires Valid()
      modifies this
      ensures Valid() && order == old(order) && regions == old(regions)
      ensures !forceRefresh && adamId in old(songAvailability) && Fresh(old(songAvailability)[adamId], now, cacheTtl) ==>
        a == old(songAvailability)[adamId] && songAvailability == old(songAvailability)
      ensures !(!forceRefresh && adamId in old(songAvailability) && Fresh(old(songAvailability)[adamId], now, cacheTtl)) ==>
        var checked := if requested.Some? then requested.value else old(GetAvailableRegions());
        a == Gathered(adamId, checked, ok, now) && songAvailability == old(songAvailability)[adamId := a]
    {
      if !forceRefresh && adamId in songAvailability {
        var cached := songAvailability[adamId];
        if Fresh(cached, now, cacheTtl) {
          return cached;
        }
      }
      var checked := if requested.Some? then requested.value else GetAvailableRegions();
      a := GatherChecks(adamId, checked, ok, now);
      songAvailability := songAvailability[adamId := a];
    }

    /** `suggest_alternative_regions`: nothing when the preferred region is available. */
    method SuggestAlternativeRegions(adamId: string, preferred: string, now: int, ok: nat -> bool)
      returns (alternatives: set<string>)
      requires Valid()
      modifies this
      ensures Valid() && order == old(order) && regions == old(regions)
      ensures adamId in songAvailability
      ensures preferred in songAvailability[adamId].availableRegions ==> alternatives == {}
      ensures preferred !in songAvailability[adamId].availableRegions ==>
        alternatives == songAvailability[adamId].availableRegions
    {
      var a := CheckSongAvailability(adamId, None, false, now, ok);
      if preferred in a.availableRegions {
        return {};
      }
      alternatives := a.availableRegions;
    }

    /**
     * `clear_cache`: removes one entry, or every entry when no id (or the empty id, which
     * Python reads as false) is given.
     */
    method ClearCache(adamId: Option<string>)
      modifies this
      ensures order == old(order) && regions == old(regions)
      ensures adamId.Some? && adamId.value != "" ==> songAvailability == old(songAvailability) - {adamId.value}
      ensures adamId.None? || adamId.value == "" ==> songAvailability == map[]
    {
      if adamId.Some? && adamId.value != "" {
        songAvailability := songAvailability - {adamId.value};
      } else {
        songAvailability := map[];
      }
    }

    /** `get_cache_stats` at clock reading `now`: every entry counts as fresh or as stale. */
    method GetCacheStats(now: int) returns (stats: CacheStats)
      ensures stats.totalCached == |songAvailability| == stats.freshCount + stats.staleCount
      ensures stats.freshCount == |set id | id in songAvailability && Fresh(songAvailability[id], now, cacheTtl)|
      ensures stats.cacheTtl == cacheTtl && stats.knownRegions == |regions|
    {
      ghost var freshIds: set<string> := {};
      var done: set<string> := {};
      var freshCount, staleCount := 0, 0;
      var todo := songAvailability.Keys;
      while todo != {}
        invariant done <= songAvailability.Keys && todo == songAvailability.Keys - done
        invariant freshIds == set id | id in done && Fresh(songAvailability[id], now, cacheTtl)
        invariant freshCount == |freshIds| && freshCount + staleCount == |done|
        decreases |todo|
      {
        var id :| id in todo;
        if Fresh(songAvailability[id], now, cacheTtl) {
          freshIds := freshIds + {id};
          freshCount := freshCount + 1;
        } else {
          staleCount := staleCount + 1;
        }
        done := done + {id};
        todo := songAvailability.Keys - done;
      }
      assert done == songAvailability.Keys;
      return CacheStats(|songAvailability|, freshCount, staleCount, cacheTtl, |regions|);
    }

    /**
     * `refresh_stale_cache`: every entry at least `cache_ttl` old is checked again over the
     * available regions, `ok(id)` being the answers for adam id `id`; fresh entries stay.
     */
    method RefreshStaleCache(now: int, ok: string -> nat -> bool)
      requires Valid()
      modifies this
      ensures Valid() && order == old(order) && regions == old(regions)
      ensures songAvailability.Keys == old(songAvailability.Keys)
      ensures forall id :: id in songAvailability ==>
        songAvailability[id] == (if Fresh(old(songAvailability)[id], now, cacheTtl) then old(songAvailability)[id]
                                 else Gathered(id, old(GetAvailableRegions()), ok(id), now))
    {
      ghost var before := songAvailability;
      ghost var avail := GetAvailableRegions();
      var stale := set id | id in songAvailability && !Fresh(songAvailability[id], now, cacheTtl);
      var todo := stale;
      while todo != {}
        invariant Valid() && order == old(order) && regions == old(regions) && GetAvailableRegions() == avail
        invariant todo <= stale && songAvailability.Keys == before.Keys
        invariant forall id :: id in songAvailability ==>
          songAvailability[id] == (if id in stale - todo then Gathered(id, avail, ok(id), now)
                                   else before[id])
        decreases |todo|
      {
        var id :| id in todo;
        var a := CheckSongAvailability(id, None, true, now, ok(id));
        todo := todo - {id};
      }
    }

    /** The loop of `check_song_availability` that sorts each checked region into a set. */
    method GatherChecks(adamId: string, checked: seq<string>, ok: nat -> bool, now: int) returns (a: SongAvailability)
      ensures a == Gathered(adamId, checked, ok, now)
    {
      var yes: set<string> := {};
      var no: set<string> := {};
      for i := 0 to |checked|
        invariant yes == set k | 0 <= k < i && ok(k) :: checked[k]
        invariant no == set k | 0 <= k < i && !ok(k) :: checked[k]
      {
        if ok(i) {
          yes := yes + {checked[i]};
        } else {
          no := no + {checked[i]};
        }
      }
      return SongAvailability(adamId, yes, no, now);
    }

    /** `add_custom_region`: an existing code is never overwritten. */
    method AddCustomRegion(code: string, name: string, now: int)
      requires Valid()
      modifies this
      ensures Valid() && songAvailability == old(songAvailability)
      ensures code in old(regions) ==> regions == old(regions) && order == old(order)
      ensures code !in old(regions) ==>
        order == old(order) + [code] && regions.Keys == old(regions.Keys) + {code}
        && fresh(regions[code]) && regions[code].name == name && regions[code].available
        && forall c :: c in old(regions) ==> regions[c] == old(regions)[c]
    {
      if code !in regions {
        var info := new RegionInfo(code, name, now);
        regions := regions[code := info];
        order := order + [code];
      }
    }

    /** `mark_region_unavailable`/`mark_region_available`: only a known code changes. */
    method MarkRegion(code: string, available: bool, now: int)
      requires Valid()
      modifies regions.Values
      ensures Valid()
      ensures code in regions ==> regions[code].available == available && regions[code].lastCheck == now
      ensures forall c :: c in regions && c != code ==> unchanged(regions[c])
    {
      if code in regions {
        regions[code].available := available;
        regions[code].lastCheck := now;
      }
    }
  }
}
