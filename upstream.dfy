/** The upstream response as the fetch pipeline sees it: an HTTP status code and,
    when the body decodes as JSON, the parts of the `web_profile_info` document
    that the pipeline reads. Every member that the code reads with `.get(...)`
    is an `Option`, so an absent member is `None`. A `null` member reads as
    `None` too where the code gives no default; `null` counts and a `null`
    edge list, which the code reads with a default, are not modelled. */
module Upstream {
  import opened Wrappers

  /** One media node of the timeline: its `__typename` and `display_url`. */
  datatype Node = Node(typename: Option<string>, displayUrl: Option<string>)

  /** One timeline edge; `node` is absent when the edge has no `node` member. */
  datatype Edge = Edge(node: Option<Node>)

  /** `edge_followed_by` / `edge_follow`: an object with an optional `count`. */
  datatype Counter = Counter(count: Option<int>)

  /** `edge_owner_to_timeline_media`: an optional post `count` and optional `edges` list. */
  datatype Timeline = Timeline(count: Option<int>, edges: Option<seq<Edge>>)

  /** The `data.user` object. A member read without a default, absent or `null`,
      reads as `None` through `.get`, so the fields alone cannot tell `{}` from `{"username": null}`.
      `otherKeys` records whether the object has a member the other fields do not
      show: one the pipeline never reads, or a read one whose value is `null`. It
      matters only for Python truthiness (an empty dict is falsy). */
  datatype User = User(
    username: Option<string>,
    fullName: Option<string>,
    biography: Option<string>,
    isPrivate: Option<bool>,
    profilePicUrlHd: Option<string>,
    profilePicUrl: Option<string>,
    followedBy: Option<Counter>,
    follow: Option<Counter>,
    timeline: Option<Timeline>,
    otherKeys: bool)

  /** The `data` object of the document. */
  datatype Envelope = Envelope(user: Option<User>)

  /** The decoded top-level JSON document. */
  datatype Document = Document(data: Option<Envelope>)

  /** The response body: either it fails to decode as JSON or it decodes to a document. */
  datatype Body = Undecodable | Decoded(doc: Document)

  /** What one GET to the profile endpoint returns. */
  datatype Response = Response(status: int, body: Body)

  /** The empty object `{}`. */
  const EmptyUser: User := User(None, None, None, None, None, None, None, None, None, false)

  /** Python truthiness of the user dict: `not user` holds exactly for `{}`. */
  predicate Truthy(u: User)
    ensures Truthy(u) <==> u != EmptyUser
  {
    u.username.Some? || u.fullName.Some? || u.biography.Some? || u.isPrivate.Some?
    || u.profilePicUrlHd.Some? || u.profilePicUrl.Some? || u.followedBy.Some?
    || u.follow.Some? || u.timeline.Some? || u.otherKeys
  }

  /** `data.get("data", {}).get("user")`. */
  function UserOf(doc: Document): Option<User> {
    match doc.data
    case None => None
    case Some(env) => env.user
  }

  /** `user.get("edge_owner_to_timeline_media", {}).get("edges", [])`. */
  function EdgesOf(u: User): seq<Edge> {
    match u.timeline
    case None => []
    case Some(t) => t.edges.GetOr([])
  }
}
