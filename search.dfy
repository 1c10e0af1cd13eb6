/** The search service: the places provider's answer post-filtered by
    category, the profile search over the user table, and the combined
    search. The provider's HTTP reply and the user table are inputs. */
module Search {
  import opened Common
  import Users

  /** A place as the provider describes it, restricted by the field mask to
      these five fields; the service's DTO copies them one for one. */
  datatype Place = Place(
    id: string,
    displayName: string,
    googleMapsUri: string,
    shortFormattedAddress: string,
    types: seq<string>)

  /** What a provider request came back with: a transport or parse failure,
      or the parsed JSON body. */
  datatype Reply<T> = Failed(reason: string) | Answered(body: T)

  /** The configuration value GOOGLE_API_KEY, absent or present. */
  datatype Config = Config(googleApiKey: Option<string>)

  datatype PlacesAndProfiles = PlacesAndProfiles(places: seq<Place>, profiles: seq<Users.Profile>)

  /** The categories a place must carry one of to be returned. */
  const AcceptableTypes: seq<string> := ["bar", "restaurant", "food"]

  const MissingGoogleApiKey := "Missing Google API Key"
  /** What `getOrThrow` raises when the key is not configured at all. */
  const KeyNotConfigured := "Configuration key \"GOOGLE_API_KEY\" does not exist"
  /** What the rewrapped TypeError says when the reply has no `places` field. */
  const PlacesFieldMissing := "TypeError: Cannot read properties of undefined (reading 'filter')"

  /** The key guard both provider calls run before any request: an absent
      key fails in the configuration lookup, an empty one with "Missing
      Google API Key". */
  function ApiKey(config: Config): (r: Result<string>)
    ensures r.Success? <==> config.googleApiKey.Some? && config.googleApiKey.value != ""
    ensures r.Success? ==> r.value == config.googleApiKey.value
    ensures r.Failure? ==> r.error.ConfigurationError?
    ensures config.googleApiKey == Some("") ==> r == Failure(ConfigurationError(MissingGoogleApiKey))
  {
    match config.googleApiKey
    case None => Failure(ConfigurationError(KeyNotConfigured))
    case Some(key) => if key == "" then Failure(ConfigurationError(MissingGoogleApiKey)) else Success(key)
  }

  /** `place.types.some((type) => acceptableTypes.includes(type))`. */
  predicate IsAcceptable(p: Place)
  {
    exists t :: t in p.types && t in AcceptableTypes
  }

  /** searchGooglePlaces: the key guard, then the reply to the text search
      filtered by category. A failed request, or a body without `places`,
      is rethrown as a provider failure. */
  function SearchGooglePlaces(config: Config, reply: Reply<Option<seq<Place>>>): (r: Result<seq<Place>>)
    ensures ApiKey(config).Failure? ==> r == Failure(ApiKey(config).error)
    ensures ApiKey(config).Success? && reply.Failed? ==> r == Failure(ProviderFailure(reply.reason))
    ensures ApiKey(config).Success? && reply == Answered(None) ==> r == Failure(ProviderFailure(PlacesFieldMissing))
    ensures r.Success? <==> ApiKey(config).Success? && reply.Answered? && reply.body.Some?
    ensures r.Success? ==> |r.value| <= |reply.body.value|
    ensures r.Success? ==> forall i :: 0 <= i < |r.value| ==> r.value[i] in reply.body.value && IsAcceptable(r.value[i])
    ensures r.Success? ==>
              forall i :: 0 <= i < |reply.body.value| && IsAcceptable(reply.body.value[i]) ==> reply.body.value[i] in r.value
  {
    match ApiKey(config)
    case Failure(e) => Failure(e)
    case Success(_) =>
      match reply
      case Failed(reason) => Failure(ProviderFailure(reason))
      case Answered(None) => Failure(ProviderFailure(PlacesFieldMissing))
      case Answered(Some(places)) => Success(Filter(places, IsAcceptable))
  }

  /** The places returned keep the provider's order, and each is returned as
      often as the provider listed it when its category is acceptable and
      never otherwise. */
  lemma {:induction false} SearchGooglePlacesKeepsOrder(config: Config, places: seq<Place>, p: Place)
    requires ApiKey(config).Success?
    ensures SearchGooglePlaces(config, Answered(Some(places))).Success?
    ensures IsSubsequence(SearchGooglePlaces(config, Answered(Some(places))).value, places)
    ensures multiset(SearchGooglePlaces(config, Answered(Some(places))).value)[p]
         == if IsAcceptable(p) then multiset(places)[p] else 0
  {
    FilterIsSubsequence(places, IsAcceptable);
    FilterCounts(places, IsAcceptable, p);
  }

  /** A place tagged with none of bar, restaurant or food, such as one tagged
      only "museum", is never returned. */
  lemma UnacceptablePlaceNeverReturned(config: Config, reply: Reply<Option<seq<Place>>>, p: Place)
    requires forall t :: t in p.types ==> t != "bar" && t != "restaurant" && t != "food"
    requires SearchGooglePlaces(config, reply).Success?
    ensures p !in SearchGooglePlaces(config, reply).value
  {
  }

  /** Applying the category filter to its own output changes nothing. */
  lemma {:induction false} PlaceFilterIdempotent(places: seq<Place>)
    ensures Filter(Filter(places, IsAcceptable), IsAcceptable) == Filter(places, IsAcceptable)
  {
    FilterIdempotent(places, IsAcceptable);
  }

  /** Without a usable key the provider is never consulted: the outcome is
      the same configuration error whatever the provider would have said. */
  lemma MissingKeySkipsProvider(config: Config, reply1: Reply<Option<seq<Place>>>, reply2: Reply<Option<seq<Place>>>,
                                single1: Reply<Place>, single2: Reply<Place>)
    requires config.googleApiKey.None? || config.googleApiKey == Some("")
    ensures SearchGooglePlaces(config, reply1) == SearchGooglePlaces(config, reply2)
    ensures GetGooglePlaceById(config, single1) == GetGooglePlaceById(config, single2)
    ensures SearchGooglePlaces(config, reply1).Failure? && SearchGooglePlaces(config, reply1).error.ConfigurationError?
  {
  }

  /** getGooglePlaceById: the key guard, then the place the provider
      describes, field for field; a failed request is rethrown. */
  function GetGooglePlaceById(config: Config, reply: Reply<Place>): (r: Result<Place>)
    ensures ApiKey(config).Failure? ==> r == Failure(ApiKey(config).error)
    ensures ApiKey(config).Success? && reply.Failed? ==> r == Failure(ProviderFailure(reply.reason))
    ensures r.Success? <==> ApiKey(config).Success? && reply.Answered?
    ensures r.Success? ==> r.value == reply.body
  {
    match ApiKey(config)
    case Failure(e) => Failure(e)
    case Success(_) =>
      match reply
      case Failed(reason) => Failure(ProviderFailure(reason))
      case Answered(p) => Success(Place(p.id, p.displayName, p.googleMapsUri, p.shortFormattedAddress, p.types))
  }

  /** `query` occurs in `s` as a contiguous piece (Prisma `contains`). */
  predicate IsSubstring(query: string, s: string)
  {
    exists i :: 0 <= i <= |s| && query <= s[i..]
  }

  /** A nullable text column that contains `query`; a null column contains nothing. */
  predicate ColumnContains(column: Option<string>, query: string)
  {
    column.Some? && IsSubstring(query, column.value)
  }

  /** The `where` of searchProfiles: username or first name contains the
      query, the username is set, and the user is not soft-deleted. */
  predicate MatchesQuery(u: Users.User, query: string)
  {
    (ColumnContains(u.username, query) || ColumnContains(u.firstname, query))
    && u.username.Some? && u.deletedAt.None?
  }

  function QueryMatcher(query: string): Users.User -> bool
  {
    (u: Users.User) => MatchesQuery(u, query)
  }

  /** The profile of every user of the table, in table order. */
  function ProfilesOf(users: seq<Users.User>): (r: seq<Users.Profile>)
    ensures |r| == |users|
    ensures forall k :: 0 <= k < |r| ==> r[k] == Users.AsProfile(users[k])
  {
    seq(|users|, k requires 0 <= k < |users| => Users.AsProfile(users[k]))
  }

  /** Taking profiles keeps the order of a selection of users. */
  lemma {:induction false} ProfilesOfSubsequence(a: seq<Users.User>, b: seq<Users.User>)
    requires IsSubsequence(a, b)
    ensures IsSubsequence(ProfilesOf(a), ProfilesOf(b))
    decreases |b|
  {
    if a != [] {
      var pa, pb := ProfilesOf(a), ProfilesOf(b);
      assert pa[1..] == ProfilesOf(a[1..]) && pb[1..] == ProfilesOf(b[1..]);
      if a[0] == b[0] {
        ProfilesOfSubsequence(a[1..], b[1..]);
      } else {
        ProfilesOfSubsequence(a, b[1..]);
        if pa[0] == pb[0] {
          SubsequenceDropHead(pa, pb[1..]);
        }
      }
    }
  }

  /** searchProfiles: the users that match, in table order, as profiles. */
  function SearchProfiles(users: seq<Users.User>, query: string): (r: seq<Users.Profile>)
    ensures |r| <= |users|
    ensures forall k :: 0 <= k < |r| ==>
              exists j :: 0 <= j < |users| && MatchesQuery(users[j], query) && r[k] == Users.AsProfile(users[j])
    ensures forall j :: 0 <= j < |users| && MatchesQuery(users[j], query) ==> Users.AsProfile(users[j]) in r
  {
    var matching := Filter(users, QueryMatcher(query));
    var r := ProfilesOf(matching);
    forall k | 0 <= k < |r|
      ensures exists j :: 0 <= j < |users| && MatchesQuery(users[j], query) && r[k] == Users.AsProfile(users[j])
    {
      assert matching[k] in users && QueryMatcher(query)(matching[k]);
      var j :| 0 <= j < |users| && users[j] == matching[k];
      assert MatchesQuery(users[j], query) && r[k] == Users.AsProfile(users[j]);
    }
    forall j | 0 <= j < |users| && MatchesQuery(users[j], query)
      ensures Users.AsProfile(users[j]) in r
    {
      assert users[j] in matching;
      var k :| 0 <= k < |matching| && matching[k] == users[j];
      assert r[k] == Users.AsProfile(users[j]);
    }
    r
  }

  /** The profiles come out in table order: they are a subsequence of the
      profiles of the whole table. There is one per matching user, and each
      matching user is taken as often as it is stored, no other user at all. */
  lemma {:induction false} SearchProfilesKeepsOrder(users: seq<Users.User>, query: string, u: Users.User)
    ensures IsSubsequence(SearchProfiles(users, query), ProfilesOf(users))
    ensures |SearchProfiles(users, query)| == |Filter(users, QueryMatcher(query))|
    ensures multiset(Filter(users, QueryMatcher(query)))[u] == if MatchesQuery(u, query) then multiset(users)[u] else 0
  {
    FilterIsSubsequence(users, QueryMatcher(query));
    ProfilesOfSubsequence(Filter(users, QueryMatcher(query)), users);
    FilterCounts(users, QueryMatcher(query), u);
  }

  /** searchPlacesAndProfiles: the place search first; when it throws, that
      error is the answer and the profiles are not searched; otherwise both
      results in one record. */
  function SearchPlacesAndProfiles(config: Config, reply: Reply<Option<seq<Place>>>,
                                   users: seq<Users.User>, query: string): (r: Result<PlacesAndProfiles>)
    ensures r.Failure? <==> SearchGooglePlaces(config, reply).Failure?
    ensures r.Failure? ==> r.error == SearchGooglePlaces(config, reply).error
    ensures r.Success? ==> r.value.places == SearchGooglePlaces(config, reply).value
                           && r.value.profiles == SearchProfiles(users, query)
  {
    match SearchGooglePlaces(config, reply)
    case Failure(e) => Failure(e)
    case Success(places) => Success(PlacesAndProfiles(places, SearchProfiles(users, query)))
  }

  /** A failing place search decides the combined answer whatever the user
      table holds: the profile search has no effect on it. */
  lemma PlacesFailureShortCircuits(config: Config, reply: Reply<Option<seq<Place>>>,
                                   users1: seq<Users.User>, users2: seq<Users.User>, query: string)
    requires SearchGooglePlaces(config, reply).Failure?
    ensures SearchPlacesAndProfiles(config, reply, users1, query) == SearchPlacesAndProfiles(config, reply, users2, query)
  {
  }
}
