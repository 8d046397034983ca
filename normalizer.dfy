/** The profile normaliser of `get_instagram_profile`: the bounded photo walk over
    the timeline edges and the construction of the profile record from the
    `data.user` object, with its fallback and default rules. */
module Normalizer {
  import opened Wrappers
  import opened Upstream

  /** Only this many timeline edges are looked at, and at most this many photos kept. */
  const PhotoWindow: nat := 5

  /** The `__typename` of a static image node. */
  const ImageType: string := "GraphImage"

  /** The record returned to the caller and stored in the cache. String members
      are `None` when the user object lacks them (JSON `null`), never invented. */
  datatype Profile = Profile(
    username: Option<string>,
    fullName: Option<string>,
    bio: Option<string>,
    profilePicUrl: Option<string>,
    followers: int,
    following: int,
    posts: int,
    latestPhotos: seq<Option<string>>)

  /** `edge.get("node", {})`: a missing node reads as an empty object. */
  function NodeOf(e: Edge): Node {
    e.node.GetOr(Node(None, None))
  }

  /** The edge's node is tagged as a static image. */
  predicate IsImage(e: Edge) {
    NodeOf(e).typename == Some(ImageType)
  }

  /** The photo an image edge contributes: its `display_url`, possibly `None`. */
  function UrlOf(e: Edge): Option<string> {
    NodeOf(e).displayUrl
  }

  /** The photos of an edge list, in edge order: the `display_url` of every image
      node and nothing for any other edge. Defined by peeling off the last edge,
      the order in which a left-to-right walk appends. */
  function ImagesOf(edges: seq<Edge>): (photos: seq<Option<string>>)
    ensures |photos| <= |edges|
  {
    if edges == [] then []
    else
      var last := edges[|edges| - 1];
      ImagesOf(edges[..|edges| - 1]) + (if IsImage(last) then [UrlOf(last)] else [])
  }

  /** `media_edges[:5]`: the edges the walk may look at. */
  function Window(edges: seq<Edge>): (w: seq<Edge>)
    ensures |w| == if |edges| <= PhotoWindow then |edges| else PhotoWindow
    ensures w == edges[..|w|]
    ensures |edges| <= PhotoWindow ==> w == edges
  {
    if |edges| <= PhotoWindow then edges else edges[..PhotoWindow]
  }

  /** What `latest_photos` ends up holding for the given timeline edges: the
      photos of the first five edges, so never more than five. */
  function LatestPhotos(edges: seq<Edge>): (photos: seq<Option<string>>)
    ensures |photos| <= PhotoWindow && |photos| <= |edges|
  {
    ImagesOf(Window(edges))
  }

  /** The photos of two consecutive runs of edges are the photos of the first
      run followed by those of the second: the walk keeps edge order. */
  lemma {:induction false} ImagesOfAppend(a: seq<Edge>, b: seq<Edge>)
    ensures ImagesOf(a + b) == ImagesOf(a) + ImagesOf(b)
  {
    if b == [] {
      assert a + b == a;
    } else {
      var last := b[|b| - 1];
      assert (a + b)[..|a + b| - 1] == a + b[..|b| - 1];
      ImagesOfAppend(a, b[..|b| - 1]);
    }
  }

  /** Every photo is the `display_url` of some image edge. */
  lemma {:induction false} ImagesOfSound(edges: seq<Edge>)
    ensures forall k {:trigger ImagesOf(edges)[k]} :: 0 <= k < |ImagesOf(edges)| ==>
      exists i :: 0 <= i < |edges| && IsImage(edges[i]) && ImagesOf(edges)[k] == UrlOf(edges[i])
  {
    if edges != [] {
      var init, last := edges[..|edges| - 1], edges[|edges| - 1];
      ImagesOfSound(init);
      assert ImagesOf(edges) == ImagesOf(init) + (if IsImage(last) then [UrlOf(last)] else []);
      forall k | 0 <= k < |ImagesOf(edges)|
        ensures exists i :: 0 <= i < |edges| && IsImage(edges[i]) && ImagesOf(edges)[k] == UrlOf(edges[i])
      {
        if k < |ImagesOf(init)| {
          assert ImagesOf(init)[k] == ImagesOf(edges)[k];
          var i :| 0 <= i < |init| && IsImage(init[i]) && ImagesOf(init)[k] == UrlOf(init[i]);
          assert edges[i] == init[i] && ImagesOf(edges)[k] == ImagesOf(init)[k];
        } else {
          assert IsImage(edges[|edges| - 1]) && ImagesOf(edges)[k] == UrlOf(edges[|edges| - 1]);
        }
      }
    } else {
      assert ImagesOf(edges) == [];
    }
  }

  /** An edge without a `node` member reads as an empty node and is skipped:
      it adds no photo wherever it stands. */
  lemma NodelessEdgeSkipped(before: seq<Edge>, after: seq<Edge>)
    ensures ImagesOf(before + [Edge(None)] + after) == ImagesOf(before) + ImagesOf(after)
  {
    var skipped := [Edge(None)];
    assert !IsImage(skipped[0]);
    assert skipped[..0] == [];
    assert ImagesOf(skipped) == [];
    ImagesOfAppend(before, skipped);
    ImagesOfAppend(before + skipped, after);
  }

  /** Every image edge contributes its `display_url`. */
  lemma {:induction false} ImagesOfComplete(edges: seq<Edge>)
    ensures forall i :: 0 <= i < |edges| && IsImage(edges[i]) ==> UrlOf(edges[i]) in ImagesOf(edges)
  {
    if edges != [] {
      var init := edges[..|edges| - 1];
      ImagesOfComplete(init);
      forall i | 0 <= i < |edges| && IsImage(edges[i])
        ensures UrlOf(edges[i]) in ImagesOf(edges)
      {
        if i < |init| {
          assert init[i] == edges[i];
        }
      }
    }
  }

  /** Only the first five edges are ever inspected: whatever follows them,
      the photos are the same. */
  lemma LatestPhotosIgnoresTail(edges: seq<Edge>, rest: seq<Edge>)
    requires |edges| >= PhotoWindow
    ensures LatestPhotos(edges + rest) == LatestPhotos(edges)
  {
    assert (edges + rest)[..PhotoWindow] == edges[..PhotoWindow];
  }

  /** Every photo is the `display_url` of an image edge among the first five,
      and every image edge among the first five contributes its photo. */
  lemma LatestPhotosFromWindow(edges: seq<Edge>)
    ensures PhotosFromWindow(edges, LatestPhotos(edges))
    ensures forall i :: 0 <= i < PhotoWindow && i < |edges| && IsImage(edges[i]) ==> UrlOf(edges[i]) in LatestPhotos(edges)
  {
    var w := Window(edges);
    assert LatestPhotos(edges) == ImagesOf(w);
    ImagesOfSound(w);
    ImagesOfComplete(w);
    forall k | 0 <= k < |LatestPhotos(edges)|
      ensures exists i :: 0 <= i < PhotoWindow && i < |edges| && IsImage(edges[i]) && LatestPhotos(edges)[k] == UrlOf(edges[i])
    {
      var photo := ImagesOf(w)[k];
      assert exists i :: 0 <= i < |w| && IsImage(w[i]) && photo == UrlOf(w[i]);
      var i :| 0 <= i < |w| && IsImage(w[i]) && photo == UrlOf(w[i]);
      assert w[i] == edges[i] && i < PhotoWindow && LatestPhotos(edges)[k] == photo;
    }
    assert forall k :: 0 <= k < |LatestPhotos(edges)| ==>
      exists i :: 0 <= i < PhotoWindow && i < |edges| && IsImage(edges[i]) && LatestPhotos(edges)[k] == UrlOf(edges[i]);
    forall i | 0 <= i < PhotoWindow && i < |edges| && IsImage(edges[i])
      ensures UrlOf(edges[i]) in LatestPhotos(edges)
    {
      assert w[i] == edges[i];
    }
  }

  /** A timeline edge holding a static image. */
  function ImageEdge(url: string): Edge {
    Edge(Some(Node(Some(ImageType), Some(url))))
  }

  /** A timeline edge holding a video. */
  function VideoEdge(url: string): Edge {
    Edge(Some(Node(Some("GraphVideo"), Some(url))))
  }

  /** Seven edges with images at positions 0, 1, 3, 4 and 6 (videos at 2 and 5)
      yield the four photos of positions 0, 1, 3 and 4: the image at position 6
      lies outside the window. */
  lemma LatestPhotosSevenEdges(d0: string, d1: string, d2: string, d3: string, d4: string, d5: string, d6: string)
    ensures LatestPhotos([ImageEdge(d0), ImageEdge(d1), VideoEdge(d2), ImageEdge(d3), ImageEdge(d4), VideoEdge(d5), ImageEdge(d6)])
      == [Some(d0), Some(d1), Some(d3), Some(d4)]
  {
    var w := [ImageEdge(d0), ImageEdge(d1), VideoEdge(d2), ImageEdge(d3), ImageEdge(d4)];
    assert Window([ImageEdge(d0), ImageEdge(d1), VideoEdge(d2), ImageEdge(d3), ImageEdge(d4), VideoEdge(d5), ImageEdge(d6)]) == w;
    assert !IsImage(VideoEdge(d2)) by { assert "GraphVideo"[5] != ImageType[5]; }
    assert w[..1] == [ImageEdge(d0)] && w[..2] == w[..1] + [ImageEdge(d1)];
    assert w[..3] == w[..2] + [VideoEdge(d2)] && w[..4] == w[..3] + [ImageEdge(d3)];
    assert w[..4][..3] == w[..3] && w[..3][..2] == w[..2] && w[..2][..1] == w[..1] && w[..1][..0] == [];
    assert ImagesOf(w[..1]) == [Some(d0)];
    assert ImagesOf(w[..2]) == [Some(d0), Some(d1)];
    assert ImagesOf(w[..3]) == [Some(d0), Some(d1)];
    assert ImagesOf(w[..4]) == [Some(d0), Some(d1), Some(d3)];
    assert w[..4] == w[..|w| - 1];
  }

  /** The photo walk as the code runs it: over `media_edges[:5]`, appending the
      `display_url` of each image node and leaving the loop once five photos are
      held, then keeping `latest_photos[:5]`. */
  method CollectPhotos(mediaEdges: seq<Edge>) returns (latestPhotos: seq<Option<string>>)
    ensures latestPhotos == LatestPhotos(mediaEdges)
    ensures |latestPhotos| <= PhotoWindow
  {
    var window := Window(mediaEdges);
    latestPhotos := [];
    var i := 0;
    while i < |window|
      invariant 0 <= i <= |window| <= PhotoWindow
      invariant latestPhotos == ImagesOf(window[..i])
    {
      var node := NodeOf(window[i]);
      assert window[..i + 1][..i] == window[..i];
      if node.typename == Some(ImageType) {
        latestPhotos := latestPhotos + [node.displayUrl];
      }
      if |latestPhotos| == PhotoWindow {
        assert i + 1 == |window| && window[..i + 1] == window;
        break;
      }
      i := i + 1;
    }
    assert window[..|window|] == window;
    var keep := if |latestPhotos| <= PhotoWindow then |latestPhotos| else PhotoWindow;
    latestPhotos := latestPhotos[..keep];
  }

  /** Python's `a or b` on two optional strings: `a` when it is a non-empty
      string, otherwise `b`. */
  function Or(a: Option<string>, b: Option<string>): (r: Option<string>)
    ensures a.Some? && a.value != "" ==> r == a
    ensures a.None? || a.value == "" ==> r == b
  {
    if a.Some? && a.value != "" then a else b
  }

  /** `obj.get(member, {}).get("count", 0)`. */
  function CountOf(c: Option<Counter>): int {
    match c
    case None => 0
    case Some(counter) => counter.count.GetOr(0)
  }

  /** `user.get("edge_owner_to_timeline_media", {}).get("count", 0)`. */
  function PostsOf(u: User): int {
    match u.timeline
    case None => 0
    case Some(t) => t.count.GetOr(0)
  }

  /** The fallback and default rules of the profile dict: names and biography
      copied as they are, the high-definition picture preferred when it is a
      non-empty string, and every absent counter object or count read as 0. */
  predicate FieldsFrom(u: User, p: Profile) {
    && p.username == u.username && p.fullName == u.fullName && p.bio == u.biography
    && (u.profilePicUrlHd.Some? && u.profilePicUrlHd.value != "" ==> p.profilePicUrl == u.profilePicUrlHd)
    && (u.profilePicUrlHd.None? || u.profilePicUrlHd.value == "" ==> p.profilePicUrl == u.profilePicUrl)
    && (u.followedBy.None? || u.followedBy.value.count.None? ==> p.followers == 0)
    && (u.followedBy.Some? && u.followedBy.value.count.Some? ==> p.followers == u.followedBy.value.count.value)
    && (u.follow.None? || u.follow.value.count.None? ==> p.following == 0)
    && (u.follow.Some? && u.follow.value.count.Some? ==> p.following == u.follow.value.count.value)
    && (u.timeline.None? || u.timeline.value.count.None? ==> p.posts == 0)
    && (u.timeline.Some? && u.timeline.value.count.Some? ==> p.posts == u.timeline.value.count.value)
  }

  /** The profile dict built from the user object and the photos the walk
      collected: every field follows the rules of `FieldsFrom`, and the photos
      are kept as given, in order. */
  function Assemble(u: User, photos: seq<Option<string>>): (p: Profile)
    ensures FieldsFrom(u, p)
    ensures p.latestPhotos == photos
  {
    Profile(
      username := u.username,
      fullName := u.fullName,
      bio := u.biography,
      profilePicUrl := Or(u.profilePicUrlHd, u.profilePicUrl),
      followers := CountOf(u.followedBy),
      following := CountOf(u.follow),
      posts := PostsOf(u),
      latestPhotos := photos)
  }

  /** The profile record the pipeline builds from a user object, field by field:
      names and biography copied as they are, the high-definition picture
      preferred when it is a non-empty string, every absent count read as 0,
      and the photos of the first five timeline edges. */
  function Normalize(u: User): (p: Profile)
    ensures FieldsFrom(u, p)
    ensures p.latestPhotos == LatestPhotos(EdgesOf(u))
  {
    Assemble(u, LatestPhotos(EdgesOf(u)))
  }

  /** Every photo is the `display_url` of an image node among the first five edges. */
  predicate PhotosFromWindow(edges: seq<Edge>, photos: seq<Option<string>>) {
    forall k :: 0 <= k < |photos| ==>
      exists i :: 0 <= i < PhotoWindow && i < |edges| && IsImage(edges[i]) && photos[k] == UrlOf(edges[i])
  }

  /** Nothing in the profile is invented: every string member is one the user
      object carries, and every photo is the `display_url` of an image node
      among the first five timeline edges, of which there are at most five. */
  lemma NormalizeInventsNothing(u: User)
    ensures Normalize(u).profilePicUrl in {u.profilePicUrlHd, u.profilePicUrl}
    ensures |Normalize(u).latestPhotos| <= PhotoWindow
    ensures PhotosFromWindow(EdgesOf(u), Normalize(u).latestPhotos)
  {
    LatestPhotosFromWindow(EdgesOf(u));
  }
}
