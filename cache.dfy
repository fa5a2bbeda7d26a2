/**
 * The `/simulate` endpoint of the game server: its request validation,
 * the in-memory cache of raw game data with a ten-minute expiry, and the
 * rule that adds a what-if's points to the team it names. The clock is the
 * parameter `now`, in whole seconds; the fetch of raw game data and the
 * extraction of the score header are parameters as well.
 */
module SimulateEndpoint {
  import opened Common
  import opened Text

  const CacheExpiry: int := 10 * 60

  datatype Entry<D> = Entry(timestamp: int, data: D)

  /** What a lookup returns: the data of an entry that has not expired. */
  function Lookup<D>(entries: map<string, Entry<D>>, id: string, now: int): (r: Option<D>)
    ensures r.Some? <==> id in entries && now - entries[id].timestamp <= CacheExpiry
    ensures r.Some? ==> r.value == entries[id].data
  {
    if id !in entries then None
    else if now - entries[id].timestamp > CacheExpiry then None
    else Some(entries[id].data)
  }

  /** The entries after a lookup: an expired entry for `id` is gone, nothing else changes. */
  function AfterLookup<D>(entries: map<string, Entry<D>>, id: string, now: int): (r: map<string, Entry<D>>)
    ensures forall k :: k != id ==> (k in r <==> k in entries) && (k in r ==> r[k] == entries[k])
    ensures id in r <==> Lookup(entries, id, now).Some?
    ensures id in r ==> r[id] == entries[id]
  {
    if id in entries && now - entries[id].timestamp > CacheExpiry then entries - {id} else entries
  }

  /** The module-level `cache` dictionary and its two accessors. */
  class GameCache<D> {
    var entries: map<string, Entry<D>>

    constructor ()
      ensures entries == map[]
    {
      entries := map[];
    }

    /** `get_cached_game`. */
    method Get(id: string, now: int) returns (r: Option<D>)
      modifies this
      ensures r == Lookup(old(entries), id, now)
      ensures entries == AfterLookup(old(entries), id, now)
    {
      if id !in entries {
        return None;
      }
      var entry := entries[id];
      if now - entry.timestamp > CacheExpiry {
        entries := entries - {id};
        return None;
      }
      return Some(entry.data);
    }

    /** `set_cached_game`: the entry is overwritten with the current time. */
    method Set(id: string, data: D, now: int)
      modifies this
      ensures entries == old(entries)[id := Entry(now, data)]
    {
      entries := entries[id := Entry(now, data)];
    }
  }

  /** A lookup right after a store returns the stored data. */
  lemma StoreThenLookup<D>(entries: map<string, Entry<D>>, id: string, data: D, now: int)
    ensures Lookup(entries[id := Entry(now, data)], id, now) == Some(data)
  {
  }

  /** A store keeps every other entry, so it never makes another lookup fail. */
  lemma {:induction false} StoreKeepsOthers<D>(entries: map<string, Entry<D>>, id: string, other: string,
                                                data: D, now: int, later: int)
    requires other != id
    ensures Lookup(entries[id := Entry(now, data)], other, later) == Lookup(entries, other, later)
  {
  }

  /** An entry serves exactly the requests made within ten minutes of its store. */
  lemma {:induction false} EntryLifetime<D>(entries: map<string, Entry<D>>, id: string, data: D, stored: int, now: int)
    ensures Lookup(entries[id := Entry(stored, data)], id, now).Some? <==> now <= stored + 600
  {
  }

  // ---------------------------------------------------------------------
  // Request validation
  // ---------------------------------------------------------------------

  /**
   * The `points` member: absent, a JSON number written without fraction
   * (a Python `int`; `true`/`false` arrive here as 1/0), one written with a
   * fraction or exponent (a Python `float`, carried with its `int(...)`
   * value), or anything else.
   */
  datatype Points = NoPoints | IntPoints(n: int) | FloatPoints(truncated: int) | NotANumber

  datatype WhatIf = WhatIf(teamAbbr: Option<string>, team: Option<string>, teamName: Option<string>, points: Points)

  /** The `what_if` member of the request body. */
  datatype WhatIfBody = Missing | Object(whatIf: WhatIf) | NotObject

  const EmptyWhatIf := WhatIf(None, None, None, NoPoints)

  /** Python truthiness of an optional string. */
  predicate Truthy(s: Option<string>) {
    s.Some? && s.value != []
  }

  /** The first check of `/simulate`: a game id and an object (default `{}`) are required. */
  function Validate(gameId: Option<string>, body: WhatIfBody): (r: Result<(string, WhatIf)>)
    ensures r.Ok? <==> Truthy(gameId) && !body.NotObject?
    ensures r.Ok? ==> r.value.0 == gameId.value
    ensures r.Ok? && body.Missing? ==> r.value.1 == EmptyWhatIf
    ensures r.Ok? && body.Object? ==> r.value.1 == body.whatIf
  {
    if !Truthy(gameId) || body.NotObject? then Err("Missing game_id or what_if body (must be object)")
    else Ok((gameId.value, if body.Object? then body.whatIf else EmptyWhatIf))
  }

  // ---------------------------------------------------------------------
  // The points rule
  // ---------------------------------------------------------------------

  /** `team_abbr or team or team_name`. */
  function TeamKey(w: WhatIf): (r: Option<string>)
    ensures r.Some? <==> Truthy(w.teamAbbr) || Truthy(w.team) || Truthy(w.teamName)
    ensures r.Some? ==> r.value != [] && (r == w.teamAbbr || r == w.team || r == w.teamName)
    ensures Truthy(w.teamAbbr) ==> r == w.teamAbbr
  {
    if Truthy(w.teamAbbr) then w.teamAbbr
    else if Truthy(w.team) then w.team
    else if Truthy(w.teamName) then w.teamName
    else None
  }

  predicate IsNumber(p: Points) {
    p.IntPoints? || p.FloatPoints?
  }

  function PointsValue(p: Points): int
    requires IsNumber(p)
  {
    if p.IntPoints? then p.n else p.truncated
  }

  /** The team key occurs in the team's name, ignoring case. */
  predicate NameHas(name: Option<string>, key: string) {
    Truthy(name) && Contains(Lower(name.value), Lower(key))
  }

  /** The score header of the game, as the server extracts it from the raw data. */
  datatype Header = Header(homeName: Option<string>, awayName: Option<string>, homeScore: int, awayScore: int)

  datatype Adjusted = Adjusted(newHome: int, newAway: int, applied: bool)

  /**
   * The what-if points rule: the key is looked for in the home name first,
   * then in the away name, and the side found gains the points.
   */
  function PointsRule(h: Header, w: WhatIf): (r: Adjusted)
    ensures r.applied <==>
      TeamKey(w).Some? && IsNumber(w.points)
      && (NameHas(h.homeName, TeamKey(w).value) || NameHas(h.awayName, TeamKey(w).value))
    ensures !r.applied ==> r.newHome == h.homeScore && r.newAway == h.awayScore
    ensures r.applied && NameHas(h.homeName, TeamKey(w).value) ==>
              r.newHome == h.homeScore + PointsValue(w.points) && r.newAway == h.awayScore
    ensures r.applied && !NameHas(h.homeName, TeamKey(w).value) ==>
              r.newAway == h.awayScore + PointsValue(w.points) && r.newHome == h.homeScore
  {
    var key := TeamKey(w);
    if key.Some? && IsNumber(w.points) then
      if NameHas(h.homeName, key.value) then Adjusted(h.homeScore + PointsValue(w.points), h.awayScore, true)
      else if NameHas(h.awayName, key.value) then Adjusted(h.homeScore, h.awayScore + PointsValue(w.points), true)
      else Adjusted(h.homeScore, h.awayScore, false)
    else Adjusted(h.homeScore, h.awayScore, false)
  }

  /** Applying points changes at most one side, and the total by exactly the points. */
  lemma OneSideChanges(h: Header, w: WhatIf)
    ensures var r := PointsRule(h, w);
      && (r.newHome == h.homeScore || r.newAway == h.awayScore)
      && (r.newHome - h.homeScore) + (r.newAway - h.awayScore) == (if r.applied then PointsValue(w.points) else 0)
  {
  }

  /** The key's case does not matter. */
  lemma {:induction false} KeyCaseIgnored(h: Header, w: WhatIf, key: string)
    requires Truthy(w.teamAbbr) && key != [] && Lower(key) == Lower(w.teamAbbr.value)
    ensures PointsRule(h, w.(teamAbbr := Some(key))) == PointsRule(h, w)
  {
  }

  /**
   * The rule as the endpoint runs it, assignment by assignment. As written,
   * the message for an applied change formats the points with `{points:+d}`,
   * which raises for a Python `float`: the request then fails with status
   * 500 even though `isinstance(points, (int, float))` admitted it.
   */
  method ApplyPointsAsWritten(h: Header, w: WhatIf) returns (r: Result<Adjusted>)
    ensures r.Err? <==> PointsRule(h, w).applied && w.points.FloatPoints?
    ensures r.Ok? ==> r.value == PointsRule(h, w)
  {
    var newHome := h.homeScore;
    var newAway := h.awayScore;
    var applied := false;
    var key := TeamKey(w);
    if key.Some? && IsNumber(w.points) {
      var tk := Lower(key.value);
      if Truthy(h.homeName) && Contains(Lower(h.homeName.value), tk) {
        newHome := newHome + PointsValue(w.points);
        applied := true;
        if w.points.FloatPoints? {
          return Err("Unknown format code 'd' for object of type 'float'");
        }
      } else if Truthy(h.awayName) && Contains(Lower(h.awayName.value), tk) {
        newAway := newAway + PointsValue(w.points);
        applied := true;
        if w.points.FloatPoints? {
          return Err("Unknown format code 'd' for object of type 'float'");
        }
      }
    }
    r := Ok(Adjusted(newHome, newAway, applied));
  }

  /** A `points` of 3.0 for the home team fails the request. */
  method FloatPointsFail() returns (r: Result<Adjusted>)
    ensures r.Err?
  {
    var h := Header(Some("eagles"), Some("cowboys"), 20, 17);
    var w := WhatIf(Some("eagles"), None, None, FloatPoints(3));
    LowerKeepsLowerCase("eagles");
    ContainsItself("eagles");
    r := ApplyPointsAsWritten(h, w);
  }

  /** The rule with every admitted number applied: the request always goes on. */
  method ApplyPoints(h: Header, w: WhatIf) returns (r: Adjusted)
    ensures r == PointsRule(h, w)
  {
    var newHome := h.homeScore;
    var newAway := h.awayScore;
    var applied := false;
    var key := TeamKey(w);
    if key.Some? && IsNumber(w.points) {
      var tk := Lower(key.value);
      if Truthy(h.homeName) && Contains(Lower(h.homeName.value), tk) {
        newHome := newHome + PointsValue(w.points);
        applied := true;
      } else if Truthy(h.awayName) && Contains(Lower(h.awayName.value), tk) {
        newAway := newAway + PointsValue(w.points);
        applied := true;
      }
    }
    r := Adjusted(newHome, newAway, applied);
  }

  // ---------------------------------------------------------------------
  // The endpoint
  // ---------------------------------------------------------------------

  datatype Response<D> =
    | BadRequest(message: string)
    | Simulated(raw: D, adjusted: Adjusted)

  /**
   * `/simulate`, up to the points rule: validate, take the raw data from the
   * cache or fetch and store it, then apply the what-if's points to the
   * header's scores. `fetched` is what the fetch would return and `header`
   * the extraction of the score header from raw data.
   */
  method Simulate<D>(cache: GameCache<D>, gameId: Option<string>, body: WhatIfBody, now: int,
                     fetched: D, header: D -> Header) returns (r: Response<D>)
    modifies cache
    ensures Validate(gameId, body).Err? ==> r.BadRequest? && cache.entries == old(cache.entries)
    ensures Validate(gameId, body).Ok? ==>
      var (id, w) := Validate(gameId, body).value;
      var hit := Lookup(old(cache.entries), id, now);
      r.Simulated?
      && r.raw == (if hit.Some? then hit.value else fetched)
      && r.adjusted == PointsRule(header(r.raw), w)
      && cache.entries == (if hit.Some? then old(cache.entries) else old(cache.entries)[id := Entry(now, fetched)])
  {
    var v := Validate(gameId, body);
    if v.Err? {
      return BadRequest(v.error);
    }
    var (id, w) := v.value;
    var cached := cache.Get(id, now);
    var raw;
    if cached.None? {
      raw := fetched;
      cache.Set(id, raw, now);
    } else {
      raw := cached.value;
    }
    var adjusted := ApplyPoints(header(raw), w);
    r := Simulated(raw, adjusted);
  }

  /** Two requests for one game within ten minutes fetch once: the second is served from the cache. */
  method RepeatRequest<D>(gameId: string, w: WhatIf, now: int, later: int, fetched: D, refetched: D, header: D -> Header)
    returns (first: Response<D>, second: Response<D>)
    requires gameId != [] && now <= later <= now + 600
    ensures first.Simulated? && second.Simulated?
    ensures first.raw == fetched && second.raw == fetched
  {
    var cache := new GameCache<D>();
    first := Simulate(cache, Some(gameId), Object(w), now, fetched, header);
    second := Simulate(cache, Some(gameId), Object(w), later, refetched, header);
  }
}
