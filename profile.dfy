/** The user profile and the JSON boundary it crosses. */
module Profile {
  import opened Common

  /** The profile the authentication service returns from `/me`. */
  datatype User = User(
    id: string,
    name: string,
    email: string,
    imageUrl: Option<string>,
    roles: Option<seq<string>>)

  /** A response body or a parsed JSON value, as the session code tests it: either falsy
      (`null`, `false`, `0`, `""`) or a profile record. */
  datatype Body = Falsy | Profile(user: User)

  /** `JSON.parse` (None is the SyntaxError it throws) and `JSON.stringify`, taken as given. */
  datatype Json = Json(parse: string -> Option<Body>, stringify: User -> string)

  /** What the pair promises in practice: a stringified profile parses back to itself, and the
      stringified text is never empty. */
  ghost predicate RoundTrips(json: Json) {
    forall u :: json.parse(json.stringify(u)) == Some(Profile(u)) && json.stringify(u) != ""
  }

  /** `setUser(value)` with a parsed value: a falsy value leaves no one signed in. */
  function AsUser(b: Body): (r: Option<User>)
    ensures r.Some? <==> b.Profile?
    ensures b.Profile? ==> r.value == b.user
  {
    match b
    case Falsy => None
    case Profile(u) => Some(u)
  }
}
