/**
 * The API-gateway resource tree that the serverless generator builds from `routing`
 * (scripts/generate-service-infra.py, lines 111-166).
 *
 * Every route path is walked segment by segment. A resource is declared the first time
 * its key is seen; the key is the service name and the cumulative path with `/` and `-`
 * turned into `_`, so distinct paths such as `a/b` and `a-b` share one resource.
 * Each route's method and integration are bound to the resource of its last segment.
 */
module ApiTree {
  import opened Wrappers
  import opened Strings
  import opened Config

  /** A `parent_id` / `resource_id`: the core stack's root resource, or `aws_api_gateway_resource.<key>.id`. */
  datatype Ref = CoreRoot | ResourceRef(key: string)

  /** The blocks this part of the generator emits. */
  datatype ApiBlock =
    | ApiResource(id: string, parent: Ref, pathPart: string)
    | ApiMethod(id: string, resource: Ref, httpMethod: string)
    | ApiIntegration(id: string, resource: Ref, methodId: string)

  /** A character of a resource key: `/` and `-` become `_`, every other character is kept. */
  function KeyChar(c: char): char {
    if c == '/' || c == '-' then '_' else c
  }

  /** `f"{name}_{path}".replace('/', '_').replace('-', '_')`. */
  function ResourceKey(name: string, path: string): (k: string)
    ensures |k| == |name| + 1 + |path|
    ensures forall i :: 0 <= i < |k| ==> k[i] == KeyChar((name + "_" + path)[i])
    ensures '/' !in k && '-' !in k
  {
    var s := name + "_" + path;
    var k := ReplaceChar(ReplaceChar(s, '/', '_'), '-', '_');
    assert forall i :: 0 <= i < |k| ==> k[i] == KeyChar(s[i]);
    k
  }

  /** Every character of `s` read as a key character. */
  function KeyText(s: string): (r: string)
    ensures |r| == |s| && forall i :: 0 <= i < |s| ==> r[i] == KeyChar(s[i])
  {
    seq(|s|, i requires 0 <= i < |s| => KeyChar(s[i]))
  }

  /** The key is the service name's key text, `_`, and the path's key text. */
  lemma ResourceKeyParts(name: string, path: string)
    ensures ResourceKey(name, path) == KeyText(name) + "_" + KeyText(path)
  {
    var s := name + "_" + path;
    assert ResourceKey(name, path) == KeyText(s);
    KeyTextConcat(name, "_");
    KeyTextConcat(name + "_", path);
    assert KeyText("_") == "_";
  }

  /** Key text is taken character by character. */
  lemma KeyTextConcat(a: string, b: string)
    ensures KeyText(a + b) == KeyText(a) + KeyText(b)
  {
    assert forall i :: 0 <= i < |a| ==> (a + b)[i] == a[i];
    assert forall i :: |a| <= i < |a + b| ==> (a + b)[i] == b[i - |a|];
  }

  /**
   * Two paths of one service share a resource key exactly when they have the same length and
   * agree at every position once `/` and `-` are both read as `_`.
   */
  lemma ResourceKeyCollision(name: string, p: string, q: string)
    ensures ResourceKey(name, p) == ResourceKey(name, q) <==>
      |p| == |q| && forall i :: 0 <= i < |p| ==> KeyChar(p[i]) == KeyChar(q[i])
  {
    ResourceKeyParts(name, p);
    ResourceKeyParts(name, q);
    var o := |name| + 1;
    var kp := KeyText(name) + "_" + KeyText(p);
    var kq := KeyText(name) + "_" + KeyText(q);
    assert kp[o..] == KeyText(p) && kq[o..] == KeyText(q);
    assert kp[..o] == kq[..o];
    if |p| == |q| && forall i :: 0 <= i < |p| ==> KeyChar(p[i]) == KeyChar(q[i]) {
      assert KeyText(p) == KeyText(q);
      assert kp == kp[..o] + kp[o..] && kq == kq[..o] + kq[o..];
    }
  }

  /** `route.get('path', '/').lstrip('/')`. */
  function RoutePath(route: Route): string {
    LStripChar(route.path.GetOr("/"), '/')
  }

  /** `route.get('method', 'GET')`. */
  function RouteMethod(route: Route): string {
    route.httpMethod.GetOr("GET")
  }

  /** `f"{final_resource_name}_{method.lower()}"`, the id of a route's method and integration. */
  function MethodId(name: string, route: Route): string {
    ResourceKey(name, RoutePath(route)) + "_" + AsciiLower(RouteMethod(route))
  }

  // ---------------------------------------------------------------------------
  // The builder's state and one step of each of its two loops

  /** The variables of the segment loop: `created_resources`, `parent_id`, `current_path` and the output so far. */
  datatype Walk = Walk(created: map<string, Ref>, parent: Ref, current: string, out: seq<ApiBlock>)

  /** One iteration of the segment loop (lines 127-142). */
  function SegmentStep(name: string, w: Walk, segment: string): Walk {
    var current := if w.current != "" then w.current + "/" + segment else segment;
    var key := ResourceKey(name, current);
    if key in w.created then
      Walk(w.created, w.created[key], current, w.out)
    else
      Walk(w.created[key := ResourceRef(key)], ResourceRef(key), current,
           w.out + [ApiResource(key, w.parent, segment)])
  }

  /** The segment loop run over `segments`. */
  function WalkSegments(name: string, w: Walk, segments: seq<string>): Walk
    decreases |segments|
  {
    if segments == [] then w
    else SegmentStep(name, WalkSegments(name, w, segments[..|segments| - 1]), segments[|segments| - 1])
  }

  /** `created_resources` and the output, between two routes. */
  datatype Tree = Tree(created: map<string, Ref>, out: seq<ApiBlock>)

  /** One iteration of the route loop (lines 115-166). */
  function RouteStep(name: string, t: Tree, route: Route): Tree {
    var path := RoutePath(route);
    if path == "" then t
    else
      var w := WalkSegments(name, Walk(t.created, CoreRoot, "", t.out), Split(path, '/'));
      var id := MethodId(name, route);
      Tree(w.created, w.out + [ApiMethod(id, w.parent, RouteMethod(route)), ApiIntegration(id, w.parent, id)])
  }

  /** The route loop run over `routes`, from an empty `created_resources`. */
  function BuildTree(name: string, routes: seq<Route>): Tree
    decreases |routes|
  {
    if routes == [] then Tree(map[], [])
    else RouteStep(name, BuildTree(name, routes[..|routes| - 1]), routes[|routes| - 1])
  }

  /** The segment loop of lines 126-142 for one route, starting at the core root. */
  method WalkRoute(name: string, segments: seq<string>, created0: map<string, Ref>, out0: seq<ApiBlock>)
    returns (created: map<string, Ref>, parent: Ref, out: seq<ApiBlock>)
    ensures WalkSegments(name, Walk(created0, CoreRoot, "", out0), segments)
         == Walk(created, parent, WalkSegments(name, Walk(created0, CoreRoot, "", out0), segments).current, out)
  {
    created, parent, out := created0, CoreRoot, out0;
    var current := "";
    var j := 0;
    while j < |segments|
      invariant 0 <= j <= |segments|
      invariant Walk(created, parent, current, out)
             == WalkSegments(name, Walk(created0, CoreRoot, "", out0), segments[..j])
    {
      created, parent, current, out := VisitSegment(name, segments[j], created, parent, current, out);
      assert segments[..j + 1][..j] == segments[..j];
      j := j + 1;
    }
    assert segments[..j] == segments;
  }

  /** The body of the segment loop (lines 127-142). */
  method VisitSegment(name: string, segment: string, created0: map<string, Ref>, parent0: Ref, current0: string, out0: seq<ApiBlock>)
    returns (created: map<string, Ref>, parent: Ref, current: string, out: seq<ApiBlock>)
    ensures Walk(created, parent, current, out) == SegmentStep(name, Walk(created0, parent0, current0, out0), segment)
  {
    created, out := created0, out0;
    current := if current0 != "" then current0 + "/" + segment else segment;
    var key := ResourceKey(name, current);
    if key !in created {
      out := out + [ApiResource(key, parent0, segment)];
      created := created[key := ResourceRef(key)];
    }
    parent := created[key];
  }

  /** The route loop of lines 112-166, emitting resources, methods and integrations in order. */
  method BuildApiResources(name: string, routes: seq<Route>) returns (out: seq<ApiBlock>)
    ensures out == BuildTree(name, routes).out
  {
    var created: map<string, Ref> := map[];
    out := [];
    var i := 0;
    while i < |routes|
      invariant 0 <= i <= |routes|
      invariant Tree(created, out) == BuildTree(name, routes[..i])
    {
      created, out := VisitRoute(name, routes[i], created, out);
      TakeSnoc(routes, i);
      BuildTreeSnoc(name, routes[..i], routes[i]);
      i := i + 1;
    }
    assert routes[..i] == routes;
  }

  /** The body of the route loop (lines 116-166): walk the path, then bind the method and integration. */
  method VisitRoute(name: string, route: Route, created0: map<string, Ref>, out0: seq<ApiBlock>)
    returns (created: map<string, Ref>, out: seq<ApiBlock>)
    ensures Tree(created, out) == RouteStep(name, Tree(created0, out0), route)
  {
    created, out := created0, out0;
    var httpMethod := route.httpMethod.GetOr("GET");
    var path := LStripChar(route.path.GetOr("/"), '/');
    if path != "" {
      var parent;
      created, parent, out := WalkRoute(name, Split(path, '/'), created, out);
      var finalResourceName := ResourceKey(name, path);
      var methodName := finalResourceName + "_" + AsciiLower(httpMethod);
      out := out + [ApiMethod(methodName, parent, httpMethod), ApiIntegration(methodName, parent, methodName)];
    }
  }

  // ---------------------------------------------------------------------------
  // An independent description of the result

  /** The parent a segment's resource gets: the root for the first segment, else the previous segment's resource. */
  function ParentAt(name: string, segments: seq<string>, k: nat): Ref
    requires k <= |segments|
  {
    if k == 0 then CoreRoot else ResourceRef(ResourceKey(name, Join(segments[..k], "/")))
  }

  /** The resources one route would declare if none of its keys had been seen before. */
  function RouteResources(name: string, path: string): (rs: seq<ApiBlock>)
    ensures |rs| == |Split(path, '/')|
  {
    var segments := Split(path, '/');
    seq(|segments|, k requires 0 <= k < |segments| =>
      ApiResource(ResourceKey(name, Join(segments[..k + 1], "/")), ParentAt(name, segments, k), segments[k]))
  }

  /** Every (key, parent, segment) the routes mention, in route order then segment order; skipped routes add nothing. */
  function AllResources(name: string, routes: seq<Route>): seq<ApiBlock>
    decreases |routes|
  {
    if routes == [] then []
    else
      var last := routes[|routes| - 1];
      AllResources(name, routes[..|routes| - 1])
        + (if RoutePath(last) == "" then [] else RouteResources(name, RoutePath(last)))
  }

  /** The method and integration each non-skipped route binds to the resource of its full path. */
  function Bindings(name: string, routes: seq<Route>): seq<ApiBlock>
    decreases |routes|
  {
    if routes == [] then []
    else
      var last := routes[|routes| - 1];
      var id := MethodId(name, last);
      var target := ResourceRef(ResourceKey(name, RoutePath(last)));
      Bindings(name, routes[..|routes| - 1])
        + (if RoutePath(last) == "" then [] else [ApiMethod(id, target, RouteMethod(last)), ApiIntegration(id, target, id)])
  }

  function Ids(bs: seq<ApiBlock>): set<string> {
    set i | 0 <= i < |bs| :: bs[i].id
  }

  /** Keeps, for every id, only its first block. */
  function FirstOccurrences(bs: seq<ApiBlock>): seq<ApiBlock>
    decreases |bs|
  {
    if bs == [] then []
    else
      var last := bs[|bs| - 1];
      var init := bs[..|bs| - 1];
      FirstOccurrences(init) + (if last.id in Ids(init) then [] else [last])
  }

  function Resources(bs: seq<ApiBlock>): (rs: seq<ApiBlock>)
    ensures forall i :: 0 <= i < |rs| ==> rs[i].ApiResource?
    decreases |bs|
  {
    if bs == [] then []
    else Resources(bs[..|bs| - 1]) + (if bs[|bs| - 1].ApiResource? then [bs[|bs| - 1]] else [])
  }

  function NonResources(bs: seq<ApiBlock>): seq<ApiBlock>
    decreases |bs|
  {
    if bs == [] then []
    else NonResources(bs[..|bs| - 1]) + (if bs[|bs| - 1].ApiResource? then [] else [bs[|bs| - 1]])
  }

  // ---------------------------------------------------------------------------
  // What FirstOccurrences keeps

  lemma IdsSnoc(bs: seq<ApiBlock>, b: ApiBlock)
    ensures Ids(bs + [b]) == Ids(bs) + {b.id}
  {
    var s := bs + [b];
    forall x | x in Ids(s) ensures x in Ids(bs) + {b.id} {
      var i :| 0 <= i < |s| && s[i].id == x;
      if i < |bs| { assert bs[i].id == x; }
    }
    forall x | x in Ids(bs) + {b.id} ensures x in Ids(s) {
      if x == b.id { assert s[|bs|].id == x; }
      else { var i :| 0 <= i < |bs| && bs[i].id == x; assert s[i].id == x; }
    }
  }

  /** No two blocks share an id. */
  ghost predicate DistinctIds(bs: seq<ApiBlock>) {
    forall i, j :: 0 <= i < j < |bs| ==> bs[i].id != bs[j].id
  }

  /** No block before `bs[i]` has its id. */
  ghost predicate FirstWithItsId(bs: seq<ApiBlock>, i: nat)
    requires i < |bs|
  {
    forall j :: 0 <= j < i ==> bs[j].id != bs[i].id
  }

  lemma {:induction false} FirstOccurrencesIds(bs: seq<ApiBlock>)
    ensures Ids(FirstOccurrences(bs)) == Ids(bs)
    decreases |bs|
  {
    if bs != [] {
      var init, last := bs[..|bs| - 1], bs[|bs| - 1];
      assert bs == init + [last];
      FirstOccurrencesIds(init);
      IdsSnoc(init, last);
      assert Ids(bs) == Ids(init) + {last.id};
      if last.id !in Ids(init) {
        IdsSnoc(FirstOccurrences(init), last);
      } else {
        assert FirstOccurrences(bs) == FirstOccurrences(init);
        assert Ids(bs) == Ids(init);
      }
    }
  }

  lemma {:induction false} FirstOccurrencesDistinct(bs: seq<ApiBlock>)
    ensures DistinctIds(FirstOccurrences(bs))
    decreases |bs|
  {
    if bs != [] {
      var init, last := bs[..|bs| - 1], bs[|bs| - 1];
      FirstOccurrencesDistinct(init);
      FirstOccurrencesIds(init);
      var f0 := FirstOccurrences(init);
      if last.id !in Ids(init) {
        forall i | 0 <= i < |f0| ensures f0[i].id != last.id {
          assert f0[i].id in Ids(f0);
        }
      }
    }
  }

  lemma {:induction false} FirstOccurrencesFromInput(bs: seq<ApiBlock>)
    ensures forall b :: b in FirstOccurrences(bs) ==> b in bs
    decreases |bs|
  {
    if bs != [] {
      var init := bs[..|bs| - 1];
      FirstOccurrencesFromInput(init);
      assert forall b :: b in init ==> b in bs;
    }
  }

  lemma {:induction false} FirstOccurrencesKeepFirst(bs: seq<ApiBlock>)
    ensures forall i :: 0 <= i < |bs| && FirstWithItsId(bs, i) ==> bs[i] in FirstOccurrences(bs)
    decreases |bs|
  {
    if bs != [] {
      var init, last := bs[..|bs| - 1], bs[|bs| - 1];
      FirstOccurrencesKeepFirst(init);
      var fo := FirstOccurrences(init);
      var tail := if last.id in Ids(init) then [] else [last];
      assert FirstOccurrences(bs) == fo + tail;
      forall i | 0 <= i < |bs| - 1 && FirstWithItsId(bs, i) ensures bs[i] in FirstOccurrences(bs) {
        FirstWithItsIdInPrefix(bs, i);
        assert init[i] in fo;
      }
      if FirstWithItsId(bs, |bs| - 1) {
        LastWithNewId(bs);
        assert tail == [last];
      }
    }
  }

  /** Being first with its id carries over to the prefix without the last block. */
  lemma FirstWithItsIdInPrefix(bs: seq<ApiBlock>, i: nat)
    requires i < |bs| - 1 && FirstWithItsId(bs, i)
    ensures bs[..|bs| - 1][i] == bs[i] && FirstWithItsId(bs[..|bs| - 1], i)
  {
  }

  /** A last block whose id is new is not among the ids before it. */
  lemma LastWithNewId(bs: seq<ApiBlock>)
    requires bs != [] && FirstWithItsId(bs, |bs| - 1)
    ensures bs[|bs| - 1].id !in Ids(bs[..|bs| - 1])
  {
    var init := bs[..|bs| - 1];
    forall j | 0 <= j < |init| ensures init[j].id != bs[|bs| - 1].id {
      assert bs[j] == init[j];
    }
  }

  /**
   * FirstOccurrences has one block per id, loses no id, invents no block,
   * and keeps every block whose id did not occur before it.
   */
  lemma FirstOccurrencesSpec(bs: seq<ApiBlock>)
    ensures Ids(FirstOccurrences(bs)) == Ids(bs)
    ensures DistinctIds(FirstOccurrences(bs))
    ensures forall b :: b in FirstOccurrences(bs) ==> b in bs
    ensures forall i :: 0 <= i < |bs| && FirstWithItsId(bs, i) ==> bs[i] in FirstOccurrences(bs)
  {
    FirstOccurrencesIds(bs);
    FirstOccurrencesDistinct(bs);
    FirstOccurrencesFromInput(bs);
    FirstOccurrencesKeepFirst(bs);
  }

  // ---------------------------------------------------------------------------
  // The builder computes the independent description

  /** What the builder keeps in step with the segments seen so far (`prior`). */
  ghost predicate Tracks(created: map<string, Ref>, out: seq<ApiBlock>, prior: seq<ApiBlock>) {
    && created.Keys == Ids(prior)
    && (forall k :: k in created ==> created[k] == ResourceRef(k))
    && Resources(out) == FirstOccurrences(prior)
  }

  lemma ResourcesSnoc(out: seq<ApiBlock>, b: ApiBlock)
    ensures Resources(out + [b]) == Resources(out) + (if b.ApiResource? then [b] else [])
    ensures NonResources(out + [b]) == NonResources(out) + (if b.ApiResource? then [] else [b])
  {
    assert (out + [b])[..|out|] == out;
  }

  /** A path with no leading `/` has a non-empty first segment. */
  lemma FirstSegmentNonEmpty(path: string)
    requires path != [] && path[0] != '/'
    ensures Split(path, '/')[0] != ""
  {
  }

  /** One more resource block seen: declared if its key is new, otherwise only tracked. */
  lemma TracksStep(created: map<string, Ref>, out: seq<ApiBlock>, prior: seq<ApiBlock>, r: ApiBlock)
    requires r.ApiResource?
    requires Tracks(created, out, prior)
    ensures r.id in created ==> Tracks(created, out, prior + [r])
    ensures r.id !in created ==> Tracks(created[r.id := ResourceRef(r.id)], out + [r], prior + [r])
  {
    IdsSnoc(prior, r);
    ResourcesSnoc(out, r);
    assert (prior + [r])[..|prior|] == prior;
  }

  /** `current_path` after one more segment is the join of the segments so far. */
  lemma CurrentPathStep(segments: seq<string>, current: string, k: nat)
    requires k < |segments| && segments[0] != ""
    requires current == (if k == 0 then "" else Join(segments[..k], "/"))
    ensures (if current != "" then current + "/" + segments[k] else segments[k]) == Join(segments[..k + 1], "/")
  {
    assert segments[..k + 1] == segments[..k] + [segments[k]];
    if k > 0 {
      JoinSnoc(segments[..k], segments[k], "/");
      JoinStartsWithFirst(segments[..k], "/");
    }
  }

  /** One segment step keeps the builder in step with the independent description. */
  lemma {:induction false} WalkStepSpec(name: string, path: string, w: Walk, prior: seq<ApiBlock>, k: nat)
    requires path != [] && path[0] != '/'
    requires k < |Split(path, '/')|
    requires Tracks(w.created, w.out, prior + RouteResources(name, path)[..k])
    requires w.current == (if k == 0 then "" else Join(Split(path, '/')[..k], "/"))
    requires w.parent == ParentAt(name, Split(path, '/'), k)
    ensures var segments := Split(path, '/');
            var w' := SegmentStep(name, w, segments[k]);
            && Tracks(w'.created, w'.out, prior + RouteResources(name, path)[..k + 1])
            && NonResources(w'.out) == NonResources(w.out)
            && w'.current == Join(segments[..k + 1], "/")
            && w'.parent == ParentAt(name, segments, k + 1)
  {
    var segments := Split(path, '/');
    var rr := RouteResources(name, path);
    FirstSegmentNonEmpty(path);
    CurrentPathStep(segments, w.current, k);
    var current := Join(segments[..k + 1], "/");
    var key := ResourceKey(name, current);
    assert rr[k] == ApiResource(key, w.parent, segments[k]);
    SliceSnoc(prior, rr, k);
    TracksStep(w.created, w.out, prior + rr[..k], rr[k]);
    var w' := SegmentStep(name, w, segments[k]);
    if key in w.created {
      assert w' == Walk(w.created, w.created[key], current, w.out);
      assert w.created[key] == ResourceRef(key);
    } else {
      assert w' == Walk(w.created[key := ResourceRef(key)], ResourceRef(key), current, w.out + [rr[k]]);
      ResourcesSnoc(w.out, rr[k]);
    }
    assert ParentAt(name, segments, k + 1) == ResourceRef(key);
  }

  lemma TakeSnoc<T>(s: seq<T>, k: nat)
    requires k < |s|
    ensures s[..k + 1] == s[..k] + [s[k]]
  {
  }

  lemma SliceSnoc<T>(prior: seq<T>, s: seq<T>, k: nat)
    requires k < |s|
    ensures prior + s[..k + 1] == (prior + s[..k]) + [s[k]]
  {
    assert s[..k + 1] == s[..k] + [s[k]];
  }

  /** The state after walking the first `j` segments of one route. */
  lemma {:induction false} WalkSpec(name: string, path: string, w0: Walk, prior: seq<ApiBlock>, j: nat)
    requires path != [] && path[0] != '/'
    requires j <= |Split(path, '/')|
    requires w0.parent == CoreRoot && w0.current == ""
    requires Tracks(w0.created, w0.out, prior)
    ensures var segments := Split(path, '/');
            var w := WalkSegments(name, w0, segments[..j]);
            && Tracks(w.created, w.out, prior + RouteResources(name, path)[..j])
            && NonResources(w.out) == NonResources(w0.out)
            && w.current == (if j == 0 then "" else Join(segments[..j], "/"))
            && w.parent == ParentAt(name, segments, j)
  {
    if j == 0 {
      WalkSpecStart(name, path, w0, prior);
    } else {
      WalkSpec(name, path, w0, prior, j - 1);
      WalkSpecStep(name, path, w0, prior, j - 1);
    }
  }

  lemma WalkSpecStart(name: string, path: string, w0: Walk, prior: seq<ApiBlock>)
    ensures WalkSegments(name, w0, Split(path, '/')[..0]) == w0
    ensures prior + RouteResources(name, path)[..0] == prior
  {
    assert Split(path, '/')[..0] == [];
    assert prior + RouteResources(name, path)[..0] == prior;
  }

  lemma WalkSpecStep(name: string, path: string, w0: Walk, prior: seq<ApiBlock>, k: nat)
    requires path != [] && path[0] != '/'
    requires k < |Split(path, '/')|
    requires var segments := Split(path, '/');
             var w := WalkSegments(name, w0, segments[..k]);
             && Tracks(w.created, w.out, prior + RouteResources(name, path)[..k])
             && w.current == (if k == 0 then "" else Join(segments[..k], "/"))
             && w.parent == ParentAt(name, segments, k)
    ensures var segments := Split(path, '/');
            var w := WalkSegments(name, w0, segments[..k]);
            var w' := WalkSegments(name, w0, segments[..k + 1]);
            && Tracks(w'.created, w'.out, prior + RouteResources(name, path)[..k + 1])
            && NonResources(w'.out) == NonResources(w.out)
            && w'.current == Join(segments[..k + 1], "/")
            && w'.parent == ParentAt(name, segments, k + 1)
  {
    var segments := Split(path, '/');
    assert segments[..k + 1][..k] == segments[..k];
    WalkStepSpec(name, path, WalkSegments(name, w0, segments[..k]), prior, k);
  }

  /** Walking all segments of a route ends at the resource of the whole path. */
  lemma WholeWalkSpec(name: string, path: string, created: map<string, Ref>, out: seq<ApiBlock>, prior: seq<ApiBlock>)
    requires path != [] && path[0] != '/'
    requires Tracks(created, out, prior)
    ensures var w := WalkSegments(name, Walk(created, CoreRoot, "", out), Split(path, '/'));
            && Tracks(w.created, w.out, prior + RouteResources(name, path))
            && NonResources(w.out) == NonResources(out)
            && w.parent == ResourceRef(ResourceKey(name, path))
  {
    var segments := Split(path, '/');
    WalkSpec(name, path, Walk(created, CoreRoot, "", out), prior, |segments|);
    WholePath(name, path);
  }

  lemma WholePath(name: string, path: string)
    ensures var segments := Split(path, '/');
            && segments[..|segments|] == segments
            && RouteResources(name, path)[..|segments|] == RouteResources(name, path)
            && ParentAt(name, segments, |segments|) == ResourceRef(ResourceKey(name, path))
  {
    var segments := Split(path, '/');
    assert segments[..|segments|] == segments;
    JoinSplit(path, '/');
  }

  /** Appending a method and its integration adds no resource. */
  lemma BindingsSnoc(out: seq<ApiBlock>, m: ApiBlock, g: ApiBlock)
    requires !m.ApiResource? && !g.ApiResource?
    ensures Resources(out + [m, g]) == Resources(out)
    ensures NonResources(out + [m, g]) == NonResources(out) + [m, g]
  {
    ResourcesSnoc(out, m);
    ResourcesSnoc(out + [m], g);
    assert out + [m, g] == out + [m] + [g];
  }

  /** One route step keeps the builder in step with the independent description. */
  lemma RouteStepSpec(name: string, t: Tree, prior: seq<ApiBlock>, route: Route)
    requires Tracks(t.created, t.out, prior)
    ensures var path := RoutePath(route);
            var t' := RouteStep(name, t, route);
            var id := MethodId(name, route);
            var target := ResourceRef(ResourceKey(name, path));
            && Tracks(t'.created, t'.out, prior + (if path == "" then [] else RouteResources(name, path)))
            && NonResources(t'.out) == NonResources(t.out)
                 + (if path == "" then [] else [ApiMethod(id, target, RouteMethod(route)), ApiIntegration(id, target, id)])
  {
    var path := RoutePath(route);
    if path == "" {
      assert prior + [] == prior;
      assert NonResources(t.out) + [] == NonResources(t.out);
    } else {
      WholeWalkSpec(name, path, t.created, t.out, prior);
      var w := WalkSegments(name, Walk(t.created, CoreRoot, "", t.out), Split(path, '/'));
      var id := MethodId(name, route);
      BindingsSnoc(w.out, ApiMethod(id, w.parent, RouteMethod(route)), ApiIntegration(id, w.parent, id));
    }
  }

  /** After each route, the builder's state is the independent description of the routes so far. */
  lemma {:induction false} BuildTreeSpec(name: string, routes: seq<Route>)
    ensures Tracks(BuildTree(name, routes).created, BuildTree(name, routes).out, AllResources(name, routes))
    ensures NonResources(BuildTree(name, routes).out) == Bindings(name, routes)
    decreases |routes|
  {
    if routes != [] {
      var init, last := routes[..|routes| - 1], routes[|routes| - 1];
      BuildTreeSpec(name, init);
      RouteStepSpec(name, BuildTree(name, init), AllResources(name, init), last);
    }
  }

  // ---------------------------------------------------------------------------
  // The properties of the emitted tree

  /**
   * Each resource key is declared at most once; every key of every segment of every
   * non-skipped route is declared; and each declared resource is the first one its key
   * names in route-then-segment order, with the parent that first occurrence gives it.
   */
  lemma ResourceTreeProperties(name: string, routes: seq<Route>)
    ensures var rs := Resources(BuildTree(name, routes).out);
            var all := AllResources(name, routes);
            && DistinctIds(rs)
            && Ids(rs) == Ids(all)
            && (forall b :: b in rs ==> b in all)
            && (forall i :: 0 <= i < |all| && FirstWithItsId(all, i) ==> all[i] in rs)
  {
    BuildTreeSpec(name, routes);
    FirstOccurrencesSpec(AllResources(name, routes));
  }

  /** The `k`-th segment of a route names its cumulative path and hangs under the previous segment's resource. */
  lemma RouteResourceAt(name: string, path: string, k: nat)
    requires k < |Split(path, '/')|
    ensures var segments := Split(path, '/');
            var r := RouteResources(name, path)[k];
            && r.id == ResourceKey(name, Join(segments[..k + 1], "/"))
            && r.pathPart == segments[k]
            && (k == 0 ==> r.parent == CoreRoot)
            && (k > 0 ==> r.parent == ResourceRef(RouteResources(name, path)[k - 1].id))
  {
    var segments := Split(path, '/');
    var rr := RouteResources(name, path);
    assert rr[k] == ApiResource(ResourceKey(name, Join(segments[..k + 1], "/")), ParentAt(name, segments, k), segments[k]);
    if k > 0 {
      assert rr[k - 1].id == ResourceKey(name, Join(segments[..k], "/"));
    }
  }

  /** The last segment's key is the key of the whole path, because joining the segments gives back the path. */
  lemma LastSegmentIsFinalResource(name: string, path: string)
    ensures var rr := RouteResources(name, path);
            rr[|rr| - 1].id == ResourceKey(name, path)
  {
    var segments := Split(path, '/');
    assert segments[..|segments|] == segments;
    JoinSplit(path, '/');
  }

  /** A route whose path is empty once leading slashes are stripped adds nothing at all. */
  lemma SkippedRouteAddsNothing(name: string, routes: seq<Route>, route: Route)
    requires RoutePath(route) == ""
    ensures BuildTree(name, routes + [route]) == BuildTree(name, routes)
    ensures AllResources(name, routes + [route]) == AllResources(name, routes)
    ensures Bindings(name, routes + [route]) == Bindings(name, routes)
  {
    assert (routes + [route])[..|routes|] == routes;
  }

  /** A route without `method` binds `GET`, under the id ending in `_get`, to the resource of its whole path. */
  lemma MissingMethodIsGet(name: string, routes: seq<Route>, route: Route)
    requires route.httpMethod.None? && RoutePath(route) != ""
    ensures MethodId(name, route) == ResourceKey(name, RoutePath(route)) + "_get"
    ensures var id := MethodId(name, route);
            var target := ResourceRef(ResourceKey(name, RoutePath(route)));
            Bindings(name, routes + [route]) == Bindings(name, routes) + [ApiMethod(id, target, "GET"), ApiIntegration(id, target, id)]
  {
    assert (routes + [route])[..|routes|] == routes;
    assert AsciiLower("GET") == "get";
  }

  lemma WalkSnoc(name: string, w: Walk, segments: seq<string>, segment: string)
    ensures WalkSegments(name, w, segments + [segment]) == SegmentStep(name, WalkSegments(name, w, segments), segment)
  {
    assert (segments + [segment])[..|segments|] == segments;
  }

  lemma BuildTreeSnoc(name: string, routes: seq<Route>, route: Route)
    ensures BuildTree(name, routes + [route]) == RouteStep(name, BuildTree(name, routes), route)
  {
    assert (routes + [route])[..|routes|] == routes;
  }

  // ---------------------------------------------------------------------------
  // A worked example of two paths whose keys collide

  lemma BuildTreeTwo(name: string, r0: Route, r1: Route)
    ensures BuildTree(name, [r0, r1]) == RouteStep(name, RouteStep(name, Tree(map[], []), r0), r1)
  {
    assert [r0, r1][..1] == [r0];
    assert [r0][..0] == [];
    assert BuildTree(name, [r0]) == RouteStep(name, BuildTree(name, []), r0);
    assert BuildTree(name, [r0, r1]) == RouteStep(name, BuildTree(name, [r0]), r1);
  }

  lemma CollidingKeys()
    ensures ResourceKey("s", "a") == "s_a"
    ensures ResourceKey("s", "a/b") == "s_a_b"
    ensures ResourceKey("s", "a-b") == "s_a_b"
    ensures AsciiLower("GET") == "get"
  {
  }

  lemma CollidingPaths()
    ensures RoutePath(Route(Some("GET"), Some("/a/b"))) == "a/b"
    ensures RoutePath(Route(None, Some("/a-b"))) == "a-b"
    ensures Split("a/b", '/') == ["a", "b"]
    ensures Split("a-b", '/') == ["a-b"]
  {
    SplitNoSep("a", '/');
    SplitNoSep("b", '/');
    SplitNoSep("a-b", '/');
    SplitAtSep("a", "b", '/');
    assert "a" + ['/'] + "b" == "a/b";
  }

  lemma CollidingMethodIds()
    ensures MethodId("s", Route(Some("GET"), Some("/a/b"))) == "s_a_b_get"
    ensures MethodId("s", Route(None, Some("/a-b"))) == "s_a_b_get"
  {
    CollidingKeys();
    CollidingPaths();
    assert "s_a_b" + "_" + "get" == "s_a_b_get";
  }

  /** Walking `a` then `b` from the core root declares `s_a` under the root and `s_a_b` under `s_a`. */
  lemma CollidingFirstWalk()
    ensures WalkSegments("s", Walk(map[], CoreRoot, "", []), ["a", "b"])
         == Walk(map["s_a" := ResourceRef("s_a"), "s_a_b" := ResourceRef("s_a_b")], ResourceRef("s_a_b"), "a/b",
                 [ApiResource("s_a", CoreRoot, "a"), ApiResource("s_a_b", ResourceRef("s_a"), "b")])
  {
    CollidingKeys();
    var w0 := Walk(map[], CoreRoot, "", []);
    WalkSnoc("s", w0, [], "a");
    WalkSnoc("s", w0, ["a"], "b");
    assert [] + ["a"] == ["a"];
    assert ["a"] + ["b"] == ["a", "b"];
    var w1 := Walk(map["s_a" := ResourceRef("s_a")], ResourceRef("s_a"), "a", [ApiResource("s_a", CoreRoot, "a")]);
    assert SegmentStep("s", w0, "a") == w1;
    assert w1.current + "/" + "b" == "a/b";
  }

  /** The first route `/a/b` declares `s_a` and `s_a_b` and binds GET to the latter. */
  lemma CollidingFirstRoute(route: Route)
    requires route == Route(Some("GET"), Some("/a/b"))
    ensures RouteStep("s", Tree(map[], []), route)
         == Tree(map["s_a" := ResourceRef("s_a"), "s_a_b" := ResourceRef("s_a_b")],
                 [ApiResource("s_a", CoreRoot, "a"),
                  ApiResource("s_a_b", ResourceRef("s_a"), "b"),
                  ApiMethod("s_a_b_get", ResourceRef("s_a_b"), "GET"),
                  ApiIntegration("s_a_b_get", ResourceRef("s_a_b"), "s_a_b_get")])
  {
    CollidingKeys();
    CollidingPaths();
    CollidingFirstWalk();
    CollidingMethodIds();
    RouteStepOnPath("s", Tree(map[], []), route, ["a", "b"]);
  }

  /** The second route `/a-b` finds `s_a_b` already declared and only adds its binding. */
  lemma CollidingSecondRoute(t: Tree)
    requires t.created == map["s_a" := ResourceRef("s_a"), "s_a_b" := ResourceRef("s_a_b")]
    ensures RouteStep("s", t, Route(None, Some("/a-b")))
         == Tree(t.created, t.out + [ApiMethod("s_a_b_get", ResourceRef("s_a_b"), "GET"),
                                     ApiIntegration("s_a_b_get", ResourceRef("s_a_b"), "s_a_b_get")])
  {
    CollidingKeys();
    CollidingPaths();
    var v0 := Walk(t.created, CoreRoot, "", t.out);
    WalkSnoc("s", v0, [], "a-b");
    assert [] + ["a-b"] == ["a-b"];
    assert WalkSegments("s", v0, []) == v0;
    assert "s_a_b" in t.created;
    assert SegmentStep("s", v0, "a-b") == Walk(t.created, ResourceRef("s_a_b"), "a-b", t.out);
    assert WalkSegments("s", v0, ["a-b"]) == Walk(t.created, ResourceRef("s_a_b"), "a-b", t.out);
    CollidingMethodIds();
    assert RouteMethod(Route(None, Some("/a-b"))) == "GET";
    RouteStepOnPath("s", t, Route(None, Some("/a-b")), ["a-b"]);
  }

  /** A route step whose path is known to split into `segments`. */
  lemma RouteStepOnPath(name: string, t: Tree, route: Route, segments: seq<string>)
    requires RoutePath(route) != "" && Split(RoutePath(route), '/') == segments
    ensures var w := WalkSegments(name, Walk(t.created, CoreRoot, "", t.out), segments);
            var id := MethodId(name, route);
            RouteStep(name, t, route) == Tree(w.created, w.out + [ApiMethod(id, w.parent, RouteMethod(route)), ApiIntegration(id, w.parent, id)])
  {
  }

  /** `/a/b` then `/a-b`: both keys normalize to `s_a_b`, so the second route reuses the first route's resource. */
  lemma CollidingPathsShareResource()
    ensures BuildTree("s", [Route(Some("GET"), Some("/a/b")), Route(None, Some("/a-b"))]).out == [
              ApiResource("s_a", CoreRoot, "a"),
              ApiResource("s_a_b", ResourceRef("s_a"), "b"),
              ApiMethod("s_a_b_get", ResourceRef("s_a_b"), "GET"),
              ApiIntegration("s_a_b_get", ResourceRef("s_a_b"), "s_a_b_get"),
              ApiMethod("s_a_b_get", ResourceRef("s_a_b"), "GET"),
              ApiIntegration("s_a_b_get", ResourceRef("s_a_b"), "s_a_b_get")]
  {
    var r0, r1 := Route(Some("GET"), Some("/a/b")), Route(None, Some("/a-b"));
    BuildTreeTwo("s", r0, r1);
    CollidingFirstRoute(r0);
    CollidingSecondRoute(RouteStep("s", Tree(map[], []), r0));
  }
}
