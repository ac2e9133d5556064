/**
 * Request-path matching as the router does it: a path is split into its
 * '/'-separated segments and matched segment by segment against a route's
 * template, in which a `{name}` segment matches any non-empty segment and
 * binds it to `name`. Only the outcome of gorilla/mux's matching is modelled.
 */
module Paths {
  import opened Wrappers

  /** The '/'-separated segments of a path: "/a/b" gives ["", "a", "b"]. */
  function Split(s: string): (r: seq<string>)
    ensures |r| >= 1
    ensures forall i :: 0 <= i < |r| ==> '/' !in r[i]
    decreases |s|
  {
    if s == [] then [""]
    else if s[0] == '/' then [""] + Split(s[1..])
    else
      var rest := Split(s[1..]);
      [[s[0]] + rest[0]] + rest[1..]
  }

  /** Segments put back together with '/' between them. */
  function Join(segs: seq<string>): string
    requires |segs| >= 1
  {
    if |segs| == 1 then segs[0] else segs[0] + "/" + Join(segs[1..])
  }

  /** A slash-free prefix extends the first segment. */
  lemma {:induction false} SplitPrefix(a: string, t: string)
    requires '/' !in a
    ensures Split(a + t) == [a + Split(t)[0]] + Split(t)[1..]
  {
    if a == [] {
      var st := Split(t);
      assert a + t == t && a + st[0] == st[0];
      assert st == [st[0]] + st[1..];
    } else {
      SplitPrefix(a[1..], t);
      assert (a + t)[1..] == a[1..] + t;
      assert [a[0]] + (a[1..] + Split(t)[0]) == a + Split(t)[0];
    }
  }

  /** Split undoes Join on slash-free segments. */
  lemma {:induction false} SplitJoin(segs: seq<string>)
    requires |segs| >= 1
    requires forall i :: 0 <= i < |segs| ==> '/' !in segs[i]
    ensures Split(Join(segs)) == segs
  {
    if |segs| == 1 {
      SplitPrefix(segs[0], "");
      assert segs[0] + "" == segs[0];
    } else {
      var rest := Join(segs[1..]);
      SplitJoin(segs[1..]);
      SplitPrefix(segs[0], "/" + rest);
      var slashRest := "/" + rest;
      assert slashRest[0] == '/' && slashRest[1..] == rest;
      assert Split(slashRest) == [""] + Split(rest);
      assert segs[0] + "/" + rest == segs[0] + slashRest;
      assert segs[0] + "" == segs[0];
      assert segs == [segs[0]] + segs[1..];
    }
  }

  datatype Segment = Literal(text: string) | Variable(name: string)

  /** A template segment: `{name}` is a variable, anything else is literal. */
  function SegmentOf(s: string): Segment
  {
    if |s| >= 2 && s[0] == '{' && s[|s| - 1] == '}' then Variable(s[1..|s| - 1]) else Literal(s)
  }

  /** The template a route's path stands for, given the path's segments. */
  function Segments(parts: seq<string>): (t: seq<Segment>)
    ensures |t| == |parts|
    ensures forall i :: 0 <= i < |parts| ==> t[i] == SegmentOf(parts[i])
  {
    if parts == [] then [] else [SegmentOf(parts[0])] + Segments(parts[1..])
  }

  /** A path's segments fit a template: as many segments, literals equal, variables non-empty. */
  predicate Fits(template: seq<Segment>, segs: seq<string>)
  {
    && |template| == |segs|
    && (forall i :: 0 <= i < |template| && template[i].Literal? ==> template[i].text == segs[i])
    && (forall i :: 0 <= i < |template| && template[i].Variable? ==> segs[i] != "")
  }

  /** No variable before position `i` has the same name as the one at `i`. */
  predicate FirstOfName(template: seq<Segment>, i: int)
    requires 0 <= i < |template| && template[i].Variable?
  {
    forall j :: 0 <= j < i && template[j].Variable? ==> template[j].name != template[i].name
  }

  /**
   * Matches a path's segments against a template. A match binds exactly the
   * template's variable names, each to the segment at its first position.
   */
  function Match(template: seq<Segment>, segs: seq<string>): (r: Option<map<string, string>>)
    ensures r.Some? ==> Fits(template, segs)
    ensures r.Some? ==> forall i :: 0 <= i < |template| && template[i].Variable? ==> template[i].name in r.value
    ensures r.Some? ==> forall i :: 0 <= i < |template| && template[i].Variable? && FirstOfName(template, i) ==>
                          r.value[template[i].name] == segs[i]
    ensures r.Some? ==> forall k :: k in r.value ==>
                          exists i :: 0 <= i < |template| && template[i] == Variable(k)
  {
    if |template| != |segs| then None
    else if template == [] then Some(map[])
    else
      var rest := Match(template[1..], segs[1..]);
      if rest.None? then None
      else match template[0]
        case Literal(text) => if text == segs[0] then rest else None
        case Variable(name) => if segs[0] != "" then Some(rest.value[name := segs[0]]) else None
  }

  /** Matching is complete: every path that fits a template matches it. */
  lemma {:induction false} MatchComplete(template: seq<Segment>, segs: seq<string>)
    requires Fits(template, segs)
    ensures Match(template, segs).Some?
  {
    if template != [] {
      assert Fits(template[1..], segs[1..]) by {
        forall i | 0 <= i < |template| - 1 && template[1..][i].Literal?
          ensures template[1..][i].text == segs[1..][i]
        {
          assert template[i + 1].Literal?;
        }
        forall i | 0 <= i < |template| - 1 && template[1..][i].Variable?
          ensures segs[1..][i] != ""
        {
          assert template[i + 1].Variable?;
        }
      }
      MatchComplete(template[1..], segs[1..]);
      assert template[0].Literal? ==> template[0].text == segs[0];
      assert template[0].Variable? ==> segs[0] != "";
    }
  }

  /** A template with a single variable binds just that variable, to its segment. */
  lemma MatchOneVariable(template: seq<Segment>, segs: seq<string>, p: int)
    requires 0 <= p < |template| && template[p].Variable?
    requires forall i :: 0 <= i < |template| && i != p ==> template[i].Literal?
    requires Match(template, segs).Some?
    ensures Match(template, segs).value == map[template[p].name := segs[p]]
  {
    var vars := Match(template, segs).value;
    var name := template[p].name;
    assert FirstOfName(template, p);
    forall k | k in vars
      ensures k == name
    {
      var i :| 0 <= i < |template| && template[i] == Variable(k);
      assert i == p;
    }
    assert vars.Keys == {name};
  }

  /** A template with a single variable matches exactly the segments that fit it, binding just that variable. */
  lemma MatchSingleVariable(template: seq<Segment>, segs: seq<string>, p: int)
    requires 0 <= p < |template| && template[p].Variable?
    requires forall i :: 0 <= i < |template| && i != p ==> template[i].Literal?
    ensures Match(template, segs) == if Fits(template, segs) then Some(map[template[p].name := segs[p]]) else None
  {
    if Fits(template, segs) {
      MatchComplete(template, segs);
      MatchOneVariable(template, segs, p);
    }
  }
}
