/** `get_instagram_profile`: the cache-aside fetch pipeline. The Redis client
    becomes the `Cache` class, whose map is the only state the pipeline changes;
    the upstream GET becomes the `Response` value the pipeline is handed. */
module Parser {
  import opened Wrappers
  import opened Upstream
  import opened Normalizer

  /** Literal prefix of every cache key. */
  const KeyPrefix: string := "ig:"

  /** Expiry, in seconds, given to every profile the pipeline stores. */
  const CacheTtlSeconds: nat := 600

  /** The classified failures, each raised as an `HTTPException`. */
  datatype Error = NotFound | Private | FetchError | ParseError {

    /** The HTTP status the exception carries. */
    function StatusCode(): (code: int)
      ensures code in {403, 404, 500}
      ensures code == 404 <==> this == NotFound
      ensures code == 403 <==> this == Private
    {
      match this
      case NotFound => 404
      case Private => 403
      case FetchError => 500
      case ParseError => 500
    }

    /** The exception's `detail` text; both 404 raises carry the same one. */
    function Detail(): (d: string)
      ensures d in {"User not found", "Profile is private", "Error fetching Instagram data", "Error parsing Instagram data"}
      ensures d == "User not found" <==> this == NotFound
      ensures d == "Profile is private" <==> this == Private
      ensures d == "Error parsing Instagram data" <==> this == ParseError
    {
      match this
      case NotFound => "User not found"
      case Private => "Profile is private"
      case FetchError => "Error fetching Instagram data"
      case ParseError => "Error parsing Instagram data"
    }
  }

  /** Two failures that carry the same status and detail are the same failure:
      the caller can tell every kind apart. */
  lemma ErrorsDistinguishable(e1: Error, e2: Error)
    requires e1.StatusCode() == e2.StatusCode() && e1.Detail() == e2.Detail()
    ensures e1 == e2
  {
  }

  /** `f"ig:{username}"`. */
  function CacheKey(username: string): (key: string)
    ensures |key| == |KeyPrefix| + |username|
    ensures key[..|KeyPrefix|] == KeyPrefix && key[|KeyPrefix|..] == username
  {
    KeyPrefix + username
  }

  /** Different usernames never share a cache entry: the key keeps the username
      verbatim, without any normalisation. */
  lemma CacheKeyInjective(a: string, b: string)
    requires CacheKey(a) == CacheKey(b)
    ensures a == b
  {
  }

  /** Status checks, then the `data.user` checks, in the code's order. An
      `HTTPException` raised inside the `try` is not a `JSONDecodeError`, so it
      leaves the `try` unchanged. */
  function Classify(response: Response): (r: Result<User, Error>)
    ensures response.status == 404 ==> r == Err(NotFound)
    ensures response.status != 404 && response.status != 200 ==> r == Err(FetchError)
    ensures response.status == 200 && response.body.Undecodable? ==> r == Err(ParseError)
    ensures response.status == 200 && response.body.Decoded? ==>
      var user := UserOf(response.body.doc);
      (user.None? || !Truthy(user.value) ==> r == Err(NotFound))
      && (user.Some? && Truthy(user.value) && user.value.isPrivate == Some(true) ==> r == Err(Private))
    ensures r.Ok? <==>
      response.status == 200 && response.body.Decoded?
      && UserOf(response.body.doc).Some? && Truthy(UserOf(response.body.doc).value)
      && UserOf(response.body.doc).value.isPrivate != Some(true)
    ensures r.Ok? ==> UserOf(response.body.doc) == Some(r.value)
  {
    if response.status == 404 then Err(NotFound)
    else if response.status != 200 then Err(FetchError)
    else
      match response.body
      case Undecodable => Err(ParseError)
      case Decoded(doc) =>
        match UserOf(doc)
        case None => Err(NotFound)
        case Some(user) =>
          if !Truthy(user) then Err(NotFound)
          else if user.isPrivate == Some(true) then Err(Private)
          else Ok(user)
  }

  /** What a cache miss returns for a given upstream response: the classified
      failure, or the profile normalised from the user object. */
  function Resolve(response: Response): (r: Result<Profile, Error>)
    ensures r.Ok? <==> Classify(response).Ok?
    ensures r.Ok? ==> r.value == Normalize(Classify(response).value)
    ensures r.Err? ==> r.error == Classify(response).error
  {
    match Classify(response)
    case Err(e) => Err(e)
    case Ok(user) => Ok(Normalize(user))
  }

  /** Only an upstream status of exactly 200 can produce a profile; 404 and every
      other status (201 included) fail before the body is looked at. */
  lemma OnlyStatus200Succeeds(response: Response)
    ensures Resolve(response).Ok? ==> response.status == 200
    ensures response.status == 404 ==> Resolve(response) == Err(NotFound)
    ensures response.status != 200 && response.status != 404 ==> Resolve(response) == Err(FetchError)
  {
  }

  /** A stored value: Redis returns a string, and an empty one is falsy, so it
      counts as a miss. A non-empty one is the JSON of a profile, read back by
      `json.loads` as the same profile. */
  datatype Cached = Blank | Stored(profile: Profile)

  /** `cached = r.get(key)` followed by `if cached:`: the profile a lookup serves. */
  function Hit(entries: map<string, Cached>, key: string): (p: Option<Profile>)
    ensures p.Some? <==> key in entries && entries[key].Stored?
    ensures p.Some? ==> entries[key] == Stored(p.value)
  {
    if key in entries && entries[key].Stored? then Some(entries[key].profile) else None
  }

  /** The Redis client: the stored values and the expiry each key was last given
      (recorded, not counted down). */
  class Cache {
    var entries: map<string, Cached>
    var expiry: map<string, nat>

    constructor (entries: map<string, Cached>, expiry: map<string, nat>)
      ensures this.entries == entries && this.expiry == expiry
    {
      this.entries := entries;
      this.expiry := expiry;
    }

    /** `r.get(key)`: the stored value, `None` when the key is absent. */
    method Get(key: string) returns (value: Option<Cached>)
      ensures value.Some? <==> key in entries
      ensures value.Some? ==> value.value == entries[key]
    {
      value := if key in entries then Some(entries[key]) else None;
    }

    /** `r.set(key, value, ex=seconds)`: stores the value and gives the key a
        fresh expiry; every other key keeps its value and expiry. */
    method Set(key: string, value: Profile, seconds: nat)
      modifies this
      ensures entries == old(entries)[key := Stored(value)]
      ensures expiry == old(expiry)[key := seconds]
    {
      entries := entries[key := Stored(value)];
      expiry := expiry[key := seconds];
    }
  }

  /** `get_instagram_profile(username)` against cache `r`, where `response` is
      what the upstream GET would return. `requested` says whether the GET was
      issued. A hit is served from the cache with no request and no change; a
      miss returns `Resolve(response)` and stores the profile under
      `ig:<username>` for 600 seconds only when it succeeds. */
  method GetInstagramProfile(r: Cache, username: string, response: Response)
    returns (result: Result<Profile, Error>, requested: bool)
    modifies r
    ensures var key := CacheKey(username);
      match Hit(old(r.entries), key)
      case Some(p) =>
        result == Ok(p) && !requested
        && r.entries == old(r.entries) && r.expiry == old(r.expiry)
      case None =>
        requested && result == Resolve(response)
        && (result.Ok? ==>
              r.entries == old(r.entries)[key := Stored(result.value)]
              && r.expiry == old(r.expiry)[key := CacheTtlSeconds])
        && (result.Err? ==> r.entries == old(r.entries) && r.expiry == old(r.expiry))
  {
    var cacheKey := CacheKey(username);
    var cached := r.Get(cacheKey);
    if cached.Some? && cached.value.Stored? {
      return Ok(cached.value.profile), false;
    }

    requested := true;
    var user;
    match Classify(response) {
      case Err(e) =>
        return Err(e), requested;
      case Ok(u) =>
        user := u;
    }

    var latestPhotos := CollectPhotos(EdgesOf(user));
    var profile := Assemble(user, latestPhotos);

    r.Set(cacheKey, profile, CacheTtlSeconds);
    result := Ok(profile);
  }

  /** A successful fetch followed at once by a second one for the same username:
      the second is a cache hit, issues no request, changes nothing and returns
      the same profile. */
  method FetchTwice(r: Cache, username: string, first: Response, second: Response)
    returns (result1: Result<Profile, Error>, result2: Result<Profile, Error>, requested2: bool)
    modifies r
    ensures result1.Ok? ==> result2 == result1 && !requested2
    ensures result1.Ok? ==> r.entries == old(r.entries)[CacheKey(username) := Stored(result1.value)]
  {
    var requested1;
    result1, requested1 := GetInstagramProfile(r, username, first);
    result2, requested2 := GetInstagramProfile(r, username, second);
  }
}
