/**
 * The placeholder rewrite of route templates: `regexp.MustCompile(":([^/]*)")`
 * with `ReplaceAllString(path, repl)`, for the two replacements the adapters
 * use, `"{$1}"` (gorilla/mux) and `":$1"` (beego).
 *
 * The regular expression matches a ':' followed by the longest run of
 * characters other than '/'; matches are found left to right and never
 * overlap, so the rewrite is a single scan, modelled by ReplaceParams. The
 * reference description is per segment (the pieces between '/'), given by
 * SegmentTemplate, and RewriteBySegments connects the two.
 */
module PathRewrite {

  /** Index of the first occurrence of c in s, or |s| when c does not occur. */
  function IndexOf(s: string, c: char): (k: nat)
    ensures k <= |s|
    ensures k < |s| ==> s[k] == c
  {
    if s == [] then 0 else if s[0] == c then 0 else 1 + IndexOf(s[1..], c)
  }

  /** IndexOf finds the first occurrence: c does not occur before it. */
  lemma {:induction false} IndexOfFirst(s: string, c: char)
    ensures c !in s[..IndexOf(s, c)]
    ensures IndexOf(s, c) == |s| <==> c !in s
    decreases |s|
  {
    if s != [] && s[0] != c {
      IndexOfFirst(s[1..], c);
      assert s[..IndexOf(s, c)] == [s[0]] + s[1..][..IndexOf(s[1..], c)];
      assert s == [s[0]] + s[1..];
    }
  }

  /** Number of occurrences of c in s. */
  function Count(s: string, c: char): nat {
    if s == [] then 0 else (if s[0] == c then 1 else 0) + Count(s[1..], c)
  }

  /**
   * `ReplaceAllString(s, open + "$1" + close)` for the pattern `:([^/]*)`:
   * every ':' together with the run of non-'/' characters after it (the
   * capture group) becomes open + group + close; every other character is
   * copied.
   */
  function ReplaceParams(s: string, open: string, close: string): string
    decreases |s|
  {
    if s == [] then []
    else if s[0] == ':' then
      var n := IndexOf(s[1..], '/');
      open + s[1..1 + n] + close + ReplaceParams(s[1 + n..], open, close)
    else [s[0]] + ReplaceParams(s[1..], open, close)
  }

  /**
   * The gorilla/mux template: replacement `"{$1}"` (routers.go:229). It is
   * the path with each segment rewritten to its brace form.
   */
  function GorillaTemplate(path: string): (r: string)
    ensures r == Join(MapTemplate(Split(path), "{", "}"))
    ensures Split(r) == MapTemplate(Split(path), "{", "}")
  {
    RewriteBySegments(path, "{", "}");
    RewritePreservesSegments(path, "{", "}");
    ReplaceParams(path, "{", "}")
  }

  /** The beego template: replacement `":$1"` (routers.go:83). */
  function BeegoTemplate(path: string): (r: string)
    ensures r == path
  {
    BeegoRewriteIsIdentity(path);
    ReplaceParams(path, ":", "")
  }

  /** The pieces of s between '/' characters; "/a/b" has the segments "", "a", "b". */
  function Split(s: string): (segs: seq<string>)
    ensures |segs| >= 1
    decreases |s|
  {
    var k := IndexOf(s, '/');
    if k == |s| then [s] else [s[..k]] + Split(s[k + 1..])
  }

  /** The segments joined with '/' between them. */
  function Join(segs: seq<string>): string
    requires |segs| >= 1
  {
    if |segs| == 1 then segs[0] else segs[0] + "/" + Join(segs[1..])
  }

  predicate NoSlash(segs: seq<string>) {
    forall i :: 0 <= i < |segs| ==> '/' !in segs[i]
  }

  /**
   * The reference rewrite of one segment: a segment whose first ':' is at
   * index i becomes seg[..i] + open + seg[i+1..] + close; a segment without
   * ':' is left alone.
   */
  function SegmentTemplate(seg: string, open: string, close: string): string
  {
    var i := IndexOf(seg, ':');
    if i == |seg| then seg else seg[..i] + open + seg[i + 1..] + close
  }

  /** SegmentTemplate applied to every segment. */
  function MapTemplate(segs: seq<string>, open: string, close: string): (r: seq<string>)
    ensures |r| == |segs|
  {
    if segs == [] then [] else [SegmentTemplate(segs[0], open, close)] + MapTemplate(segs[1..], open, close)
  }

  /** True when every ':' of p opens a segment (so no segment holds two). */
  predicate ColonsLeadSegments(p: string) {
    forall i :: 0 <= i < |p| && p[i] == ':' ==> i == 0 || p[i - 1] == '/'
  }

  // ---------------------------------------------------------------------
  // Unfolding steps
  // ---------------------------------------------------------------------

  lemma JoinCons(a: string, tail: seq<string>)
    requires |tail| >= 1
    ensures Join([a] + tail) == a + "/" + Join(tail)
  {
    assert ([a] + tail)[1..] == tail;
  }

  /** In a + b, where c does not occur in a and b is empty or starts with c, c is first found at |a|. */
  lemma {:induction false} IndexOfAtBoundary(a: string, b: string, c: char)
    requires c !in a
    requires b == [] || b[0] == c
    ensures IndexOf(a + b, c) == |a|
    decreases |a|
  {
    if a == [] {
      assert a + b == b;
    } else {
      assert (a + b)[1..] == a[1..] + b;
      IndexOfAtBoundary(a[1..], b, c);
    }
  }

  /** A segment starting with a character other than ':' is rewritten after that character. */
  lemma SegmentTemplateCons(x: string, open: string, close: string)
    requires |x| > 0 && x[0] != ':'
    ensures SegmentTemplate(x, open, close) == [x[0]] + SegmentTemplate(x[1..], open, close)
  {
    var y := x[1..];
    var i' := IndexOf(y, ':');
    assert IndexOf(x, ':') == 1 + i';
    if i' < |y| {
      assert SegmentTemplate(y, open, close) == y[..i'] + open + y[i' + 1..] + close;
      assert SegmentTemplate(x, open, close) == x[..1 + i'] + open + x[1 + i' + 1..] + close;
      assert x[..1 + i'] == [x[0]] + y[..i'];
      assert x[1 + i' + 1..] == y[i' + 1..];
    } else {
      assert SegmentTemplate(y, open, close) == y;
      assert SegmentTemplate(x, open, close) == x;
      assert x == [x[0]] + y;
    }
  }

  // ---------------------------------------------------------------------
  // Lemmas about Split and Join
  // ---------------------------------------------------------------------

  /** No segment holds a '/'. */
  lemma {:induction false} SplitNoSlash(s: string)
    ensures NoSlash(Split(s))
    decreases |s|
  {
    var k := IndexOf(s, '/');
    IndexOfFirst(s, '/');
    if k < |s| {
      SplitNoSlash(s[k + 1..]);
      assert Split(s) == [s[..k]] + Split(s[k + 1..]);
    }
  }

  /** Joining the segments of a path gives the path back. */
  lemma {:induction false} JoinSplit(s: string)
    ensures Join(Split(s)) == s
    decreases |s|
  {
    var k := IndexOf(s, '/');
    if k < |s| {
      var head, rest := s[..k], s[k + 1..];
      assert Split(s) == [head] + Split(rest);
      JoinSplit(rest);
      JoinCons(head, Split(rest));
      SliceAround(s, k);
    }
  }

  lemma SliceAround(s: string, k: nat)
    requires k < |s| && s[k] == '/'
    ensures s == s[..k] + "/" + s[k + 1..]
  {
    assert s == s[..k] + [s[k]] + s[k + 1..];
  }

  /** A segment without '/' followed by "/" and more: the segment comes first in the split. */
  lemma SplitAtFirst(x: string, rest: string)
    requires '/' !in x
    ensures Split(x + "/" + rest) == [x] + Split(rest)
  {
    var s := x + "/" + rest;
    assert IndexOf(s, '/') == |x| by {
      assert s == x + ("/" + rest);
      IndexOfAtBoundary(x, "/" + rest, '/');
    }
    assert s[..|x|] == x;
    assert s[|x| + 1..] == rest;
  }

  /** Splitting segments that hold no '/' after joining them gives the segments back. */
  lemma {:induction false} SplitJoin(segs: seq<string>)
    requires |segs| >= 1 && NoSlash(segs)
    ensures Split(Join(segs)) == segs
    decreases |segs|
  {
    if |segs| > 1 {
      assert segs == [segs[0]] + segs[1..];
      JoinCons(segs[0], segs[1..]);
      SplitAtFirst(segs[0], Join(segs[1..]));
      SplitJoin(segs[1..]);
    }
  }

  lemma {:induction false} CountJoin(segs: seq<string>)
    requires |segs| >= 1 && NoSlash(segs)
    ensures Count(Join(segs), '/') == |segs| - 1
    decreases |segs|
  {
    CountAbsent(segs[0], '/');
    if |segs| > 1 {
      var rest := Join(segs[1..]);
      CountJoin(segs[1..]);
      assert Join(segs) == segs[0] + ("/" + rest) by {
        assert segs == [segs[0]] + segs[1..];
        JoinCons(segs[0], segs[1..]);
      }
      CountAppend(segs[0], "/" + rest, '/');
      assert ("/" + rest)[1..] == rest;
    }
  }

  lemma {:induction false} CountAbsent(s: string, c: char)
    requires c !in s
    ensures Count(s, c) == 0
    decreases |s|
  {
    if s != [] {
      CountAbsent(s[1..], c);
    }
  }

  lemma {:induction false} CountAppend(a: string, b: string, c: char)
    ensures Count(a + b, c) == Count(a, c) + Count(b, c)
    decreases |a|
  {
    if a == [] {
      assert a + b == b;
    } else {
      assert (a + b)[1..] == a[1..] + b;
      CountAppend(a[1..], b, c);
    }
  }

  /** The number of '/' in a path is one less than its number of segments. */
  lemma SlashesCountSegments(p: string)
    ensures Count(p, '/') == |Split(p)| - 1
  {
    JoinSplit(p);
    SplitNoSlash(p);
    CountJoin(Split(p));
  }

  // ---------------------------------------------------------------------
  // The scan equals the segment-wise rewrite
  // ---------------------------------------------------------------------

  /**
   * Scanning a segment x that is followed by r (empty or starting with '/')
   * rewrites exactly that segment and then continues with r.
   */
  lemma {:induction false} SegmentSplice(x: string, r: string, open: string, close: string)
    requires '/' !in x
    requires r == [] || r[0] == '/'
    ensures ReplaceParams(x + r, open, close) == SegmentTemplate(x, open, close) + ReplaceParams(r, open, close)
    decreases |x|
  {
    var s := x + r;
    if x == [] {
      assert s == r;
    } else if x[0] == ':' {
      SpliceParam(x, r, open, close);
    } else {
      ReplaceParamsCons(s, open, close);
      assert s[1..] == x[1..] + r;
      SegmentSplice(x[1..], r, open, close);
      SegmentTemplateCons(x, open, close);
    }
  }

  /** A character other than ':' is copied and the scan goes on after it. */
  lemma ReplaceParamsCons(s: string, open: string, close: string)
    requires |s| > 0 && s[0] != ':'
    ensures ReplaceParams(s, open, close) == [s[0]] + ReplaceParams(s[1..], open, close)
  {
  }

  /** SegmentSplice for a segment that starts with ':': the whole rest of the segment is the group. */
  lemma SpliceParam(x: string, r: string, open: string, close: string)
    requires '/' !in x && |x| > 0 && x[0] == ':'
    requires r == [] || r[0] == '/'
    ensures ReplaceParams(x + r, open, close) == SegmentTemplate(x, open, close) + ReplaceParams(r, open, close)
  {
    var s := x + r;
    var n := IndexOf(s[1..], '/');
    assert n == |x| - 1 by {
      assert s[1..] == x[1..] + r;
      IndexOfAtBoundary(x[1..], r, '/');
    }
    assert ReplaceParams(s, open, close) == open + x[1..] + close + ReplaceParams(r, open, close) by {
      assert s[0] == ':';
      assert s[1..1 + n] == x[1..];
      assert s[1 + n..] == r;
    }
    ParamSegmentTemplate(x, open, close);
  }

  /** The scan rewrites a path segment by segment. */
  lemma {:induction false} RewriteBySegments(p: string, open: string, close: string)
    ensures ReplaceParams(p, open, close) == Join(MapTemplate(Split(p), open, close))
    decreases |p|
  {
    var k := IndexOf(p, '/');
    IndexOfFirst(p, '/');
    if k == |p| {
      assert Split(p) == [p];
      assert p + [] == p;
      SegmentSplice(p, [], open, close);
      assert ReplaceParams(p, open, close) == SegmentTemplate(p, open, close);
    } else {
      var head, rest := p[..k], p[k + 1..];
      assert Split(p) == [head] + Split(rest);
      RewriteFirstSegment(p, k, open, close);
      RewriteBySegments(rest, open, close);
      MapTemplateCons(head, Split(rest), open, close);
      JoinCons(SegmentTemplate(head, open, close), MapTemplate(Split(rest), open, close));
    }
  }

  /** Before the first '/', the scan rewrites one segment and then copies the '/'. */
  lemma RewriteFirstSegment(p: string, k: nat, open: string, close: string)
    requires k == IndexOf(p, '/') && k < |p|
    ensures ReplaceParams(p, open, close)
         == SegmentTemplate(p[..k], open, close) + "/" + ReplaceParams(p[k + 1..], open, close)
  {
    var head, tail := p[..k], p[k..];
    assert '/' !in head by {
      IndexOfFirst(p, '/');
    }
    assert ReplaceParams(tail, open, close) == "/" + ReplaceParams(p[k + 1..], open, close) by {
      assert tail[0] == '/' && tail[1..] == p[k + 1..];
      ReplaceParamsCons(tail, open, close);
    }
    assert p == head + tail;
    SegmentSplice(head, tail, open, close);
  }

  lemma MapTemplateCons(a: string, tail: seq<string>, open: string, close: string)
    ensures MapTemplate([a] + tail, open, close) == [SegmentTemplate(a, open, close)] + MapTemplate(tail, open, close)
  {
    assert ([a] + tail)[1..] == tail;
  }

  lemma SegmentTemplateNoSlash(seg: string, open: string, close: string)
    requires '/' !in seg && '/' !in open && '/' !in close
    ensures '/' !in SegmentTemplate(seg, open, close)
  {
    var i := IndexOf(seg, ':');
    if i < |seg| {
      assert seg == seg[..i] + [seg[i]] + seg[i + 1..];
    }
  }

  /**
   * When the replacement adds no '/', the rewritten path consists of exactly
   * the rewritten segments of the original: the segment count and the number
   * of '/' are unchanged.
   */
  lemma RewritePreservesSegments(p: string, open: string, close: string)
    requires '/' !in open && '/' !in close
    ensures Split(ReplaceParams(p, open, close)) == MapTemplate(Split(p), open, close)
    ensures |Split(ReplaceParams(p, open, close))| == |Split(p)|
    ensures Count(ReplaceParams(p, open, close), '/') == Count(p, '/')
  {
    var segs := MapTemplate(Split(p), open, close);
    SplitNoSlash(p);
    forall i | 0 <= i < |segs| ensures '/' !in segs[i] {
      MapTemplateAt(Split(p), i, open, close);
      SegmentTemplateNoSlash(Split(p)[i], open, close);
    }
    RewriteBySegments(p, open, close);
    SplitJoin(segs);
    SlashesCountSegments(p);
    SlashesCountSegments(ReplaceParams(p, open, close));
  }

  /** A parameter segment is rewritten to its name between open and close. */
  lemma ParamSegmentTemplate(seg: string, open: string, close: string)
    requires |seg| > 0 && seg[0] == ':'
    ensures SegmentTemplate(seg, open, close) == open + seg[1..] + close
  {
    assert IndexOf(seg, ':') == 0;
    assert seg[..0] == [];
    assert seg[..0] + open + seg[1..] + close == open + seg[1..] + close;
  }

  /** A path without ':' is returned unchanged. */
  lemma {:induction false} NoParamsUnchanged(p: string, open: string, close: string)
    requires ':' !in p
    ensures ReplaceParams(p, open, close) == p
    decreases |p|
  {
    if p != [] {
      NoParamsUnchanged(p[1..], open, close);
      assert p == [p[0]] + p[1..];
    }
  }

  /** The beego replacement `":$1"` puts back exactly what it matched. */
  lemma {:induction false} BeegoRewriteIsIdentity(p: string)
    ensures ReplaceParams(p, ":", "") == p
    decreases |p|
  {
    if p != [] {
      if p[0] == ':' {
        var n := IndexOf(p[1..], '/');
        BeegoRewriteIsIdentity(p[1 + n..]);
        assert p == [':'] + p[1..1 + n] + p[1 + n..];
      } else {
        BeegoRewriteIsIdentity(p[1..]);
        assert p == [p[0]] + p[1..];
      }
    }
  }

  /** If every ':' opens a segment, the gorilla template is free of ':'. */
  lemma {:induction false} LeadingColonsAllReplaced(p: string)
    requires ColonsLeadSegments(p)
    ensures ':' !in GorillaTemplate(p)
    decreases |p|
  {
    if p != [] {
      if p[0] == ':' {
        var n := IndexOf(p[1..], '/');
        var group, rest := p[1..1 + n], p[1 + n..];
        IndexOfFirst(p[1..], '/');
        assert group == p[1..][..n];
        assert ':' !in group by {
          forall j | 0 <= j < |group| ensures group[j] != ':' {
            assert group[j] == p[1 + j];
            if j > 0 { assert p[j] == p[1..][j - 1]; }
          }
        }
        SuffixAtSlashLeads(p, 1 + n);
        LeadingColonsAllReplaced(rest);
        assert GorillaTemplate(p) == "{" + group + "}" + GorillaTemplate(rest);
      } else {
        assert ColonsLeadSegments(p[1..]) by {
          forall i | 0 <= i < |p[1..]| && p[1..][i] == ':' ensures i == 0 || p[1..][i - 1] == '/' {
            assert p[1 + i] == ':';
          }
        }
        LeadingColonsAllReplaced(p[1..]);
        assert GorillaTemplate(p) == [p[0]] + GorillaTemplate(p[1..]);
      }
    }
  }

  /** The part of p from a '/' (or from its end) on still has every ':' opening a segment. */
  lemma SuffixAtSlashLeads(p: string, k: nat)
    requires ColonsLeadSegments(p)
    requires k <= |p| && (k == |p| || p[k] == '/')
    ensures ColonsLeadSegments(p[k..])
  {
    forall i | 0 <= i < |p[k..]| && p[k..][i] == ':' ensures i == 0 || p[k..][i - 1] == '/' {
      assert p[k + i] == ':';
    }
  }

  // ---------------------------------------------------------------------
  // Paths written as a list of segments
  // ---------------------------------------------------------------------

  /** The absolute path "/" + segs[0] + "/" + segs[1] + ... (empty for no segments). */
  function Slashed(segs: seq<string>): string {
    if segs == [] then "" else "/" + segs[0] + Slashed(segs[1..])
  }

  lemma {:induction false} SlashedAppend(a: seq<string>, b: seq<string>)
    ensures Slashed(a + b) == Slashed(a) + Slashed(b)
    decreases |a|
  {
    if a == [] {
      assert a + b == b;
    } else {
      assert (a + b)[1..] == a[1..] + b;
      SlashedAppend(a[1..], b);
    }
  }

  lemma {:induction false} MapTemplateAppend(a: seq<string>, b: seq<string>, open: string, close: string)
    ensures MapTemplate(a + b, open, close) == MapTemplate(a, open, close) + MapTemplate(b, open, close)
    decreases |a|
  {
    if a == [] {
      assert a + b == b;
    } else {
      assert a + b == [a[0]] + (a[1..] + b);
      MapTemplateCons(a[0], a[1..] + b, open, close);
      MapTemplateAppend(a[1..], b, open, close);
      assert a == [a[0]] + a[1..];
      MapTemplateCons(a[0], a[1..], open, close);
    }
  }

  lemma {:induction false} MapTemplateAt(segs: seq<string>, i: nat, open: string, close: string)
    requires i < |segs|
    ensures MapTemplate(segs, open, close)[i] == SegmentTemplate(segs[i], open, close)
    decreases i
  {
    if i > 0 {
      MapTemplateAt(segs[1..], i - 1, open, close);
    }
  }

  /** Splitting a segment followed by slashed segments recovers all of them. */
  lemma {:induction false} SplitPrefixSlashed(x: string, ss: seq<string>)
    requires '/' !in x && NoSlash(ss)
    ensures Split(x + Slashed(ss)) == [x] + ss
    decreases |ss|
  {
    if ss == [] {
      assert x + Slashed(ss) == x;
      IndexOfFirst(x, '/');
    } else {
      var rest := ss[0] + Slashed(ss[1..]);
      assert x + Slashed(ss) == x + "/" + rest;
      SplitAtFirst(x, rest);
      SplitPrefixSlashed(ss[0], ss[1..]);
      assert ss == [ss[0]] + ss[1..];
    }
  }

  /** The segments of a slashed path: an empty one before the leading '/', then the given ones. */
  lemma SplitSlashed(segs: seq<string>)
    requires NoSlash(segs)
    ensures Split(Slashed(segs)) == [""] + segs
  {
    SplitPrefixSlashed("", segs);
    assert "" + Slashed(segs) == Slashed(segs);
  }

  /** One leading "/" followed by a slash-free segment and a slash-led rest. */
  lemma RewriteSlashedHead(head: string, tail: string, open: string, close: string)
    requires '/' !in head
    requires tail == [] || tail[0] == '/'
    ensures ReplaceParams("/" + (head + tail), open, close)
         == "/" + (SegmentTemplate(head, open, close) + ReplaceParams(tail, open, close))
  {
    var s := "/" + (head + tail);
    ReplaceParamsCons(s, open, close);
    assert s[1..] == head + tail;
    SegmentSplice(head, tail, open, close);
  }

  lemma SlashedCons(segs: seq<string>)
    requires segs != []
    ensures Slashed(segs) == "/" + (segs[0] + Slashed(segs[1..]))
    ensures Slashed(segs[1..]) == [] || Slashed(segs[1..])[0] == '/'
  {
  }

  lemma SlashedMapCons(segs: seq<string>, open: string, close: string)
    requires segs != []
    ensures Slashed(MapTemplate(segs, open, close))
         == "/" + (SegmentTemplate(segs[0], open, close) + Slashed(MapTemplate(segs[1..], open, close)))
  {
    var m := MapTemplate(segs, open, close);
    assert m[0] == SegmentTemplate(segs[0], open, close);
    assert m[1..] == MapTemplate(segs[1..], open, close);
    SlashedCons(m);
  }

  /** The scan rewrites a slashed path segment by segment. */
  lemma {:induction false} ReplaceSlashed(segs: seq<string>, open: string, close: string)
    requires NoSlash(segs)
    ensures ReplaceParams(Slashed(segs), open, close) == Slashed(MapTemplate(segs, open, close))
    decreases |segs|
  {
    if segs != [] {
      SlashedCons(segs);
      assert '/' !in segs[0];
      RewriteSlashedHead(segs[0], Slashed(segs[1..]), open, close);
      ReplaceSlashed(segs[1..], open, close);
      SlashedMapCons(segs, open, close);
    }
  }

  // ---------------------------------------------------------------------
  // Requests against templates
  // ---------------------------------------------------------------------

  /** A template segment that names a parameter. */
  predicate IsParam(seg: string) {
    |seg| > 0 && seg[0] == ':'
  }

  /** Number of parameter segments in a colon template. */
  function ParamCount(segs: seq<string>): nat {
    if segs == [] then 0 else (if IsParam(segs[0]) then 1 else 0) + ParamCount(segs[1..])
  }

  /**
   * A request path has the shape of a colon template: the same number of
   * segments, a non-empty segment where the template has a parameter, and
   * the template's own text everywhere else.
   */
  predicate Fits(request: string, template: string) {
    SegmentsFit(Split(request), Split(template))
  }

  /** Fits, segment by segment. */
  predicate SegmentsFit(rs: seq<string>, ts: seq<string>) {
    && |rs| == |ts|
    && forall i :: 0 <= i < |ts| ==>
         if IsParam(ts[i]) then rs[i] != "" else rs[i] == ts[i]
  }

  /** A request fits a template when, given as segment lists, it fits segment by segment. */
  lemma FitsOfSlashed(request: string, template: string, rs: seq<string>, ts: seq<string>)
    requires NoSlash(rs) && NoSlash(ts)
    requires request == Slashed(rs) && template == Slashed(ts)
    requires SegmentsFit([""] + rs, [""] + ts)
    ensures Fits(request, template)
  {
    SplitSlashed(rs);
    SplitSlashed(ts);
  }

  lemma NoSlashAppend(a: seq<string>, b: seq<string>)
    requires NoSlash(a) && NoSlash(b)
    ensures NoSlash(a + b)
  {
    forall i | 0 <= i < |a + b| ensures '/' !in (a + b)[i] {
      if i >= |a| {
        assert (a + b)[i] == b[i - |a|];
      }
    }
  }

  /** Segment lists that fit piecewise fit when put together. */
  lemma SegmentsFitAppend(r1: seq<string>, t1: seq<string>, r2: seq<string>, t2: seq<string>)
    requires SegmentsFit(r1, t1) && SegmentsFit(r2, t2)
    ensures SegmentsFit(r1 + r2, t1 + t2)
  {
    forall i | 0 <= i < |t1 + t2|
      ensures if IsParam((t1 + t2)[i]) then (r1 + r2)[i] != "" else (r1 + r2)[i] == (t1 + t2)[i]
    {
      if i >= |t1| {
        assert (t1 + t2)[i] == t2[i - |t1|];
        assert (r1 + r2)[i] == r2[i - |t1|];
      }
    }
  }

  lemma {:induction false} ParamCountAppend(a: seq<string>, b: seq<string>)
    ensures ParamCount(a + b) == ParamCount(a) + ParamCount(b)
    decreases |a|
  {
    if a == [] {
      assert a + b == b;
    } else {
      assert (a + b)[1..] == a[1..] + b;
      ParamCountAppend(a[1..], b);
    }
  }

  /** A list of parameter segments counts one parameter per segment. */
  lemma {:induction false} AllParamsCount(segs: seq<string>)
    requires forall i :: 0 <= i < |segs| ==> IsParam(segs[i])
    ensures ParamCount(segs) == |segs|
    decreases |segs|
  {
    if segs != [] {
      assert IsParam(segs[0]);
      AllParamsCount(segs[1..]);
    }
  }

  /** A segment without ':' is left alone by the segment rewrite. */
  lemma NoColonSegmentTemplate(seg: string, open: string, close: string)
    requires ':' !in seg
    ensures SegmentTemplate(seg, open, close) == seg
  {
    IndexOfFirst(seg, ':');
  }
}
