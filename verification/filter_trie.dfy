/**
 The filters of `http_conn.h`: a tree of heap nodes, one level for each segment of a path, that every
 registration extends and `match` walks down.  It is proved to be a flat table: for the first segment of
 a path, the last filter registered under it and the segments it asks for.
 */
module FilterTrie {
  import opened Wrappers

  type Filter = nat

  // What is registered under one first segment: all its segments, and the filter.
  datatype Chain = Chain(path: seq<string>, filter: Filter)

  // The filter of the root, and the rest by first segment.
  datatype Table = Table(root: Option<Filter>, chains: map<string, Chain>)

  datatype Registration = Registration(url: string, filter: Filter)

  // `url.find('/', from)`, with the length of the string when there is none.
  function Slash(s: string, from: nat): (p: nat)
    requires from <= |s|
    ensures from <= p <= |s| && (p < |s| ==> s[p] == '/')
    ensures forall i :: from <= i < p ==> s[i] != '/'
    decreases |s| - from
  {
    if from == |s| || s[from] == '/' then from else Slash(s, from + 1)
  }

  // The segments from there on.
  function Segments(s: string, from: nat): (segs: seq<string>)
    requires from <= |s|
    ensures |segs| > 0
    decreases |s| - from
  {
    var p := Slash(s, from);
    if p == |s| then [s[from..]] else [s[from..p]] + Segments(s, p + 1)
  }

  function Joined(segs: seq<string>): string
    requires |segs| > 0
  {
    if |segs| == 1 then segs[0] else segs[0] + "/" + Joined(segs[1..])
  }

  // Joined by slashes, the segments give the string back, and there is no slash left in them.
  lemma {:induction false} SegmentsJoin(s: string, from: nat)
    requires from <= |s|
    ensures Joined(Segments(s, from)) == s[from..]
    ensures forall i :: 0 <= i < |Segments(s, from)| ==> '/' !in Segments(s, from)[i]
    decreases |s| - from
  {
    hide Slash, Segments;
    var p := Slash(s, from);
    if p < |s| {
      var rest := Segments(s, p + 1);
      SegmentsStep(s, from);
      SegmentsJoin(s, p + 1);
      assert ([s[from..p]] + rest)[1..] == rest;
      assert s[from..p] + "/" + s[p + 1..] == s[from..];
      assert forall i :: 0 < i <= |rest| ==> ([s[from..p]] + rest)[i] == rest[i - 1];
    } else {
      LastSegment(s, from);
    }
  }

  predicate Registers(url: string) { |url| >= 2 && url[0] == '/' && url[|url| - 1] != '/' }

  predicate ForRoot(url: string) { Registers(url) && url[1] == '*' }

  predicate ForSegment(url: string) { Registers(url) && url[1] != '*' }

  // A star at the end is dropped.
  function Wanted(url: string): (path: seq<string>)
    requires ForSegment(url)
    ensures |path| > 0
  {
    var segs := Segments(url, 1);
    var last := |segs| - 1;
    if segs[last] == "*" && last > 0 then segs[..last] else segs
  }

  function Registered(t: Table, r: Registration): Table {
    if ForRoot(r.url) then t.(root := Some(r.filter))
    else if ForSegment(r.url) then
      var path := Wanted(r.url);
      t.(chains := t.chains[path[0] := Chain(path, r.filter)])
    else t
  }

  const EMPTY := Table(None, map[])

  function AllRegistered(history: seq<Registration>): Table {
    if history == [] then EMPTY
    else Registered(AllRegistered(history[..|history| - 1]), history[|history| - 1])
  }

  // The last filter whose first segment is that of the path, if the segments it asks for are the first of the
  // path; none if they are not; the filter of the root if there is no such filter.
  function Found(t: Table, path: seq<string>): Option<Filter>
    requires |path| > 0
  {
    if path[0] !in t.chains then t.root
    else if t.chains[path[0]].path <= path then Some(t.chains[path[0]].filter)
    else None
  }

  predicate Trailing(url: string) { |url| > 1 && url[|url| - 1] == '/' }

  function Body(url: string): string { if Trailing(url) then url[..|url| - 1] else url }

  // The segments `match` looks for.  Where the path ends with a slash the last of them loses its last
  // character, and an empty one turns into the slash.
  function Asked(url: string): (path: seq<string>)
    requires |url| > 0 && url[0] == '/'
    ensures |path| > 0
  {
    Tidied(Segments(Body(url), 1), Trailing(url))
  }

  function Tidied(segs: seq<string>, trailing: bool): (path: seq<string>)
    requires |segs| > 0
    ensures |path| == |segs|
  {
    if trailing then segs[..|segs| - 1] + [Clipped(segs[|segs| - 1])] else segs
  }

  function Clipped(seg: string): string { if seg == "" then "/" else seg[..|seg| - 1] }

  function Matched(t: Table, url: string): Option<Filter> {
    if url == "" || url[0] != '/' then None
    else if |url| > 1 && url[1] == '*' then t.root
    else Found(t, Asked(url))
  }

  // The registrations by which a first segment is entered.
  predicate Under(r: Registration, seg: string) { ForSegment(r.url) && Wanted(r.url)[0] == seg }

  // Position i of a history holds the last registration under a first segment, or for the root.
  ghost predicate LastUnder(history: seq<Registration>, i: nat, seg: string) {
    i < |history| && Under(history[i], seg) && forall j :: i < j < |history| ==> !Under(history[j], seg)
  }

  ghost predicate LastForRoot(history: seq<Registration>, i: nat) {
    i < |history| && ForRoot(history[i].url) && forall j :: i < j < |history| ==> !ForRoot(history[j].url)
  }

  // After any history an entry of the table is the last registration under its first segment.
  lemma {:induction false} EntryIsLast(history: seq<Registration>, seg: string, i: nat)
    ensures (forall r :: r in history ==> !Under(r, seg)) ==> seg !in AllRegistered(history).chains
    ensures LastUnder(history, i, seg) ==>
              && seg in AllRegistered(history).chains
              && AllRegistered(history).chains[seg] == Chain(Wanted(history[i].url), history[i].filter)
    decreases |history|
  {
    hide Wanted;
    if history != [] {
      var before, last := history[..|history| - 1], history[|history| - 1];
      assert history == before + [last];
      EntryIsLast(before, seg, i);
      assert LastUnder(history, i, seg) && i < |before| ==> LastUnder(before, i, seg) && !Under(last, seg);
      if forall r :: r in history ==> !Under(r, seg) {
        assert last in history && !Under(last, seg);
        assert seg !in AllRegistered(before).chains;
      }
    }
  }

  lemma {:induction false} RootIsLast(history: seq<Registration>, i: nat)
    ensures (forall r :: r in history ==> !ForRoot(r.url)) ==> AllRegistered(history).root == None
    ensures LastForRoot(history, i) ==> AllRegistered(history).root == Some(history[i].filter)
    decreases |history|
  {
    hide Wanted;
    if history != [] {
      var before, last := history[..|history| - 1], history[|history| - 1];
      assert history == before + [last];
      RootIsLast(before, i);
      assert LastForRoot(history, i) && i < |before| ==> LastForRoot(before, i) && !ForRoot(last.url);
    }
  }

  // What `match` gives for a path that does not start with a star, after any history: the last filter
  // registered under the first segment asked for decides alone, by whether its segments are the first of
  // those asked for; without one it is the last filter of the root.
  lemma MatchIsLast(history: seq<Registration>, url: string, i: nat)
    requires |url| > 0 && url[0] == '/' && !(|url| > 1 && url[1] == '*')
    ensures var path := Asked(url);
            var answer := Matched(AllRegistered(history), url);
            && (LastUnder(history, i, path[0]) ==>
                  answer == if Wanted(history[i].url) <= path then Some(history[i].filter) else None)
            && ((forall r :: r in history ==> !Under(r, path[0])) && LastForRoot(history, i) ==>
                  answer == Some(history[i].filter))
            && ((forall r :: r in history ==> !Under(r, path[0]) && !ForRoot(r.url)) ==> answer == None)
  {
    hide Wanted, Segments, AllRegistered;
    var path := Asked(url);
    EntryIsLast(history, path[0], i);
    RootIsLast(history, i);
  }

  // An entry of the table asks for its own first segment first.
  ghost predicate Rooted(t: Table) {
    forall seg :: seg in t.chains ==> t.chains[seg].path != [] && t.chains[seg].path[0] == seg
  }

  lemma {:induction false} HistoryIsRooted(history: seq<Registration>)
    ensures Rooted(AllRegistered(history))
    decreases |history|
  {
    hide Wanted;
    if history != [] { HistoryIsRooted(history[..|history| - 1]); }
  }

  // What an entry has for a path of a single segment.
  function Alone(c: Chain): Option<Filter> { if |c.path| == 1 then Some(c.filter) else None }

  // A slash at the end of a path makes no difference exactly if, for a path of several segments, the filter
  // registered under the first asks neither for all of them nor for all of them with the last one clipped.
  // For a single segment it depends on the entries of the segment and of the clipped segment: if there are
  // both, they have to ask for several segments, or for one each and have the same filter; if there is one of
  // them, the root has to have its filter, or none if that entry asks for several segments.
  lemma SlashIsHarmlessIff(history: seq<Registration>, url: string)
    requires |url| > 0 && url[0] == '/' && !Trailing(url)
    ensures var t := AllRegistered(history);
            var segs := Segments(url, 1);
            var same := Matched(t, url + "/") == Matched(t, url);
            if |url| > 1 && url[1] == '*' then same
            else if |segs| > 1 then
              same <==> (segs[0] in t.chains ==>
                           t.chains[segs[0]].path != segs && t.chains[segs[0]].path != Tidied(segs, true))
            else
              var a, b := segs[0], Clipped(segs[0]);
              && (a !in t.chains && b !in t.chains ==> same)
              && (a in t.chains && b in t.chains ==>
                    (same <==>
                       || (|t.chains[a].path| > 1 && |t.chains[b].path| > 1)
                       || (|t.chains[a].path| == |t.chains[b].path| == 1 && t.chains[a].filter == t.chains[b].filter)))
              && (a in t.chains && b !in t.chains ==> (same <==> t.root == Alone(t.chains[a])))
              && (a !in t.chains && b in t.chains ==> (same <==> t.root == Alone(t.chains[b])))
  {
    hide Segments, AllRegistered;
    var t, segs := AllRegistered(history), Segments(url, 1);
    HistoryIsRooted(history);
    assert Body(url + "/") == url && Asked(url + "/") == Tidied(segs, true) && Asked(url) == segs;
    if |segs| > 1 {
      if segs[0] in t.chains { OneOfTwo(t.chains[segs[0]].path, segs); }
    } else {
      Single(t, segs);
      Single(t, Tidied(segs, true));
    }
  }

  lemma Single(t: Table, path: seq<string>)
    requires Rooted(t) && |path| == 1
    ensures Found(t, path) == if path[0] in t.chains then Alone(t.chains[path[0]]) else t.root
    ensures path[0] in t.chains ==> t.chains[path[0]].path != []
  {
    if path[0] in t.chains && |t.chains[path[0]].path| == 1 {
      assert t.chains[path[0]].path == path;
    }
  }

  // Of a path and the same path with its last segment clipped, one goes on from p and the other does not
  // only if p is one of them.
  lemma OneOfTwo(p: seq<string>, segs: seq<string>)
    requires |segs| > 0
    ensures (p <= segs <==> p <= Tidied(segs, true)) <==> p != segs && p != Tidied(segs, true)
  {
    var n := |segs| - 1;
    var clipped := Tidied(segs, true);
    assert clipped[n] != segs[n];
    if |p| <= n {
      assert p <= segs <==> p == segs[..|p|];
      assert clipped[..|p|] == segs[..|p|];
    }
  }

  // The slash at the end is not ignored: it costs the last segment its last character.
  lemma TrailingSlash()
    ensures var t := AllRegistered([Registration("/ab", 1), Registration("/a", 2)]);
            Matched(t, "/ab") == Some(1) && Matched(t, "/ab/") == Some(2)
  {
    var h := [Registration("/ab", 1), Registration("/a", 2)];
    assert h[..1] == [h[0]] && h[..1][..0] == [];
    assert Segments("/ab", 1) == ["ab"] && Segments("/a", 1) == ["a"];
    assert Wanted("/ab") == ["ab"] && Wanted("/a") == ["a"];
    assert AllRegistered(h[..1][..0]) == EMPTY;
    assert AllRegistered(h[..1]) == Registered(EMPTY, h[0]) == Table(None, map["ab" := Chain(["ab"], 1)]);
    assert AllRegistered(h) == Registered(AllRegistered(h[..1]), h[1]);
    assert AllRegistered(h) == Table(None, map["ab" := Chain(["ab"], 1), "a" := Chain(["a"], 2)]);
    assert Body("/ab/") == "/ab" && Clipped("ab") == "a";
    assert Asked("/ab/") == ["a"];
  }

  // Strings that can be segments.
  predicate Plain(segs: seq<string>) { |segs| > 0 && forall i :: 0 <= i < |segs| ==> '/' !in segs[i] }

  function Path(segs: seq<string>): string
    requires |segs| > 0
  {
    "/" + Joined(segs)
  }

  // Segments that are joined are found again.
  lemma {:induction false} JoinedSegments(before: string, segs: seq<string>)
    requires Plain(segs)
    ensures Segments(before + Joined(segs), |before|) == segs
    decreases |segs|
  {
    hide Segments;
    var s := before + Joined(segs);
    FirstSlash(before, segs);
    if |segs| == 1 {
      LastSegment(s, |before|);
      assert s[|before|..] == segs[0];
    } else {
      SegmentsStep(s, |before|);
      var next := before + segs[0] + "/";
      assert s == next + Joined(segs[1..]);
      JoinedSegments(next, segs[1..]);
      assert s[|before|..|before| + |segs[0]|] == segs[0];
    }
  }

  lemma FirstSlash(before: string, segs: seq<string>)
    requires Plain(segs)
    ensures Slash(before + Joined(segs), |before|) == |before| + |segs[0]|
  {
    var s := before + Joined(segs);
    var p := Slash(s, |before|);
    assert forall i :: |before| <= i < |before| + |segs[0]| ==> s[i] == segs[0][i - |before|];
    if |segs| > 1 { assert s[|before| + |segs[0]|] == '/'; }
  }

  lemma PathSegments(segs: seq<string>)
    requires Plain(segs)
    ensures Segments(Path(segs), 1) == segs
  {
    JoinedSegments("/", segs);
  }

  // The end of a path is the end of its last segment.
  lemma {:induction false} JoinedEnd(segs: seq<string>)
    requires Plain(segs) && segs[|segs| - 1] != ""
    ensures Joined(segs) != [] && Joined(segs)[|Joined(segs)| - 1] != '/'
  {
    if |segs| > 1 { JoinedEnd(segs[1..]); }
  }

  // What a registration under these segments asks for: a star alone at the end stands for nothing.
  function Asks(segs: seq<string>): (path: seq<string>)
    requires |segs| > 0
  {
    if |segs| > 1 && segs[|segs| - 1] == "*" then segs[..|segs| - 1] else segs
  }

  lemma WantedIsAsked(segs: seq<string>)
    requires Plain(segs) && segs[0] != "" && segs[0][0] != '*' && segs[|segs| - 1] != ""
    ensures ForSegment(Path(segs)) && Wanted(Path(segs)) == Asks(segs)
  {
    PathSegments(segs);
    JoinedEnd(segs);
    var url := Path(segs);
    assert Joined(segs)[0] == segs[0][0];
    assert url[|url| - 1] == Joined(segs)[|Joined(segs)| - 1];
  }

  // What a registration does to every path that does not end with a slash: the new filter is what is found
  // under its first segment, for the paths that go on from its segments, and nothing for the others.
  lemma RegisteredMatches(t: Table, segs: seq<string>, filter: Filter, path: seq<string>)
    requires Plain(segs) && segs[0] != "" && segs[0][0] != '*' && segs[|segs| - 1] != ""
    requires Plain(path) && path[0] != "" && path[0][0] != '*' && path[|path| - 1] != ""
    ensures Matched(Registered(t, Registration(Path(segs), filter)), Path(path))
         == if path[0] != segs[0] then Matched(t, Path(path))
            else if Asks(segs) <= path then Some(filter)
            else None
  {
    hide Segments, Wanted, Joined;
    WantedIsAsked(segs);
    PathSegments(path);
    JoinedEnd(path);
    var url := Path(path);
    assert url[|url| - 1] == Joined(path)[|Joined(path)| - 1];
    assert url[1] == path[0][0] by { JoinedStart(path); }
    assert Asked(url) == path;
  }

  lemma JoinedStart(segs: seq<string>)
    requires Plain(segs) && segs[0] != ""
    ensures Joined(segs) != "" && Joined(segs)[0] == segs[0][0]
  {
  }

  // A registration with a star in front is for the root, and answers for every path that has no filter under
  // its first segment and for every path with a star in front.
  lemma RootRegistered(t: Table, url: string, filter: Filter)
    requires |url| >= 2 && url[0] == '/' && url[1] == '*' && url[|url| - 1] != '/'
    ensures Registered(t, Registration(url, filter)) == t.(root := Some(filter))
    ensures forall asked :: |asked| > 1 && asked[0] == '/' && asked[1] == '*' ==>
              Matched(Registered(t, Registration(url, filter)), asked) == Some(filter)
  {
  }

  // A url is ignored, whatever the table and the filter, exactly if it is shorter than two characters, does not
  // start with a slash or ends with one.
  lemma IgnoredIff(url: string)
    ensures (forall t, f :: Registered(t, Registration(url, f)) == t)
       <==> |url| < 2 || url[0] != '/' || url[|url| - 1] == '/'
  {
    hide Wanted;
    if !(|url| < 2 || url[0] != '/' || url[|url| - 1] == '/') {
      var t := Registered(EMPTY, Registration(url, 0));
      assert t.root != None || t.chains != map[] by {
        if url[1] != '*' { assert Wanted(url)[0] in t.chains; }
      }
    }
  }

  lemma NotTrailing(segs: seq<string>)
    requires Plain(segs) && segs[|segs| - 1] != ""
    ensures !Trailing(Path(segs)) && Body(Path(segs)) == Path(segs)
  {
    JoinedEnd(segs);
    var url := Path(segs);
    assert url[|url| - 1] == Joined(segs)[|Joined(segs)| - 1];
  }

  // What is looked for: the segments of the path; if it ends with a slash its last segment loses its last
  // character, or is the slash itself if it is empty.
  lemma AskedSegments(path: seq<string>)
    requires Plain(path)
    ensures path[|path| - 1] != "" ==> Asked(Path(path)) == path
    ensures var last := path[|path| - 1];
            Asked(Path(path) + "/") == path[..|path| - 1] + [if last == "" then "/" else last[..|last| - 1]]
  {
    hide Segments, Joined;
    PathSegments(path);
    if path[|path| - 1] != "" { NotTrailing(path); }
    var url := Path(path) + "/";
    assert Body(url) == Path(path) && Trailing(url);
  }

  // So for a path with a slash at its end what is found for the path without the last character of its last
  // segment is found, as long as that is not its only one.
  lemma TrailingMatches(t: Table, path: seq<string>)
    requires Plain(path) && path[0] != "" && path[0][0] != '*' && |path[|path| - 1]| > 1
    ensures var last := path[|path| - 1];
            var clipped := path[..|path| - 1] + [last[..|last| - 1]];
            Matched(t, Path(path) + "/") == Matched(t, Path(clipped))
  {
    hide Segments, Joined, Asked;
    var last := path[|path| - 1];
    var clipped := path[..|path| - 1] + [last[..|last| - 1]];
    assert Plain(clipped) && clipped[0] != "" && clipped[0][0] == path[0][0];
    AskedSegments(path);
    AskedSegments(clipped);
    JoinedStart(path);
    JoinedStart(clipped);
  }

  // What is not a path has no filter.
  lemma NoPath(t: Table, url: string)
    requires url == "" || url[0] != '/'
    ensures Matched(t, url) == None
  {
  }

  class Node {
    var children: map<string, Node>
    var filter: Option<Filter>

    constructor ()
      ensures children == map[] && filter == None
    {
      children, filter := map[], None;
    }
  }

  // The nodes of one chain, one for each segment: each has the next as its only child, and only the last
  // has a filter.
  ghost predicate Strung(nodes: seq<Node>, c: Chain)
    reads nodes
  {
    && 0 < |nodes| == |c.path|
    && (forall i, j :: 0 <= i < |c.path| - 1 && j == i + 1 ==>
          nodes[i].children == map[c.path[j] := nodes[j]] && nodes[i].filter == None)
    && nodes[|c.path| - 1].children == map[] && nodes[|c.path| - 1].filter == Some(c.filter)
  }

  // A chain under construction below the root, whose other children are those before: the nodes made so
  // far, for the segments seen so far.
  ghost predicate Building(root: Node, before: map<string, Node>, nodes: seq<Node>, path: seq<string>, cur: Node)
    reads root, nodes
  {
    && |nodes| == |path| && root !in nodes
    && (forall i, j :: 0 <= i < j < |nodes| ==> nodes[i] != nodes[j])
    && if path == [] then cur == root && root.children == before
       else
         && root.children == before[path[0] := nodes[0]]
         && (forall i, j :: 0 <= i < |path| - 1 && j == i + 1 ==>
               nodes[i].children == map[path[j] := nodes[j]] && nodes[i].filter == None)
         && cur == nodes[|path| - 1] && cur.children == map[] && cur.filter == None
  }

  lemma LastOfBuilding(root: Node, before: map<string, Node>, nodes: seq<Node>, path: seq<string>, cur: Node)
    requires Building(root, before, nodes, path, cur) && path != []
    ensures cur in nodes && cur != root && root !in nodes
  {
  }

  // The tree below a root that has, or is to have, these children.
  ghost predicate Chained(root: Node, children: map<string, Node>, table: Table, nodes: map<string, seq<Node>>,
                          repr: set<Node>)
    reads repr - {root}, root`filter
  {
    root in repr && root.filter == table.root && Hung(root, children, table.chains, nodes, repr)
  }

  ghost predicate Hung(root: Node, children: map<string, Node>, chains: map<string, Chain>,
                       nodes: map<string, seq<Node>>, repr: set<Node>)
    reads repr - {root}
  {
    && children.Keys == chains.Keys && nodes.Keys == chains.Keys
    && (forall seg, i :: seg in nodes && 0 <= i < |nodes[seg]| ==> nodes[seg][i] in repr - {root})
    && (forall seg :: seg in nodes ==> Strung(nodes[seg], chains[seg]))
    && (forall seg :: seg in nodes ==> children[seg] == nodes[seg][0] && chains[seg].path[0] == seg)
  }

  // A finished chain takes its place in the table.
  lemma ChainedOne(root: Node, before: map<string, Node>, table: Table, nodes: map<string, seq<Node>>,
                   repr: set<Node>, made: seq<Node>, c: Chain)
    requires Chained(root, before, table, nodes, repr) && Strung(made, c) && root !in made
    ensures Chained(root, before[c.path[0] := made[0]], table.(chains := table.chains[c.path[0] := c]),
                    nodes[c.path[0] := made], repr + set n | n in made)
  {
    hide Strung;
    assert 0 < |c.path| == |made| by { StrungLength(made, c); }
  }

  lemma StrungLength(made: seq<Node>, c: Chain)
    requires Strung(made, c)
    ensures 0 < |c.path| == |made|
  {
  }

  class Filters {
    const root: Node
    ghost var table: Table
    ghost var nodes: map<string, seq<Node>>
    ghost var Repr: set<Node>

    ghost predicate Valid()
      reads this, Repr, root
    {
      Chained(root, root.children, table, nodes, Repr)
    }

    constructor ()
      ensures Valid() && fresh(Repr) && table == EMPTY
    {
      root := new Node();
      table, nodes := EMPTY, map[];
      new;
      Repr := {root};
    }

    // A new node for a segment, below the one reached so far.
    method Hang(cur: Node, segment: string, ghost before: map<string, Node>, ghost made: seq<Node>,
                ghost path: seq<string>)
      returns (node: Node)
      requires Building(root, before, made, path, cur)
      modifies cur`children
      ensures fresh(node)
      ensures Building(root, before, made + [node], path + [segment], node)
    {
      node := new Node();
      cur.children := cur.children[segment := node];
    }

    method SetRoot(filter: Filter)
      requires Valid()
      modifies `table, root`filter
      ensures Valid() && table == old(table).(root := Some(filter))
    {
      hide Hung;
      root.filter := Some(filter);
      assert Hung(root, root.children, table.chains, nodes, Repr);
      table := table.(root := Some(filter));
    }

    lemma Starts()
      requires Valid()
      ensures Building(root, root.children, [], [], root) && Chained(root, root.children, table, nodes, Repr)
    {
    }

    method Register(url: string, filter: Filter)
      requires Valid()
      modifies this, root
      ensures Valid() && table == Registered(old(table), Registration(url, filter)) && fresh(Repr - old(Repr))
    {
      hide Building, Chained, Segments, Wanted, Slash;
      if |url| < 2 || url[0] != '/' || url[|url| - 1] == '/' {
        return;
      }
      var cur := root;
      if url[1] == '*' {
        SetRoot(filter);
        return;
      }
      Starts();
      var pre := 1;
      var pos := Slash(url, pre);
      ghost var before, made: seq<Node>, path: seq<string> := root.children, [], [];
      while pos < |url|
        invariant 1 <= pre <= |url| && pos == Slash(url, pre)
        invariant Building(root, before, made, path, cur) && Chained(root, before, table, nodes, Repr)
        invariant Segments(url, 1) == path + Segments(url, pre)
        invariant table == old(table) && nodes == old(nodes) && Repr == old(Repr)
        invariant (cur == root || fresh(cur)) && fresh(made)
        decreases |url| - pre
      {
        SegmentsStep(url, pre);
        var segment := url[pre..pos];
        var node := Hang(cur, segment, before, made, path);
        cur, made, path := node, made + [node], path + [segment];
        pre := pos + 1;
        pos := Slash(url, pre);
      }
      var segment := url[pre..];
      LastSegment(url, pre);
      WantedIs(url, path, segment);
      if segment != "*" {
        var node := Hang(cur, segment, before, made, path);
        cur, made, path := node, made + [node], path + [segment];
      }
      Complete(cur, filter, before, made, path);
    }

    // The last node gets the filter.
    method Finish(cur: Node, filter: Filter, ghost before: map<string, Node>, ghost made: seq<Node>,
                  ghost path: seq<string>)
      requires |path| > 0 && Building(root, before, made, path, cur)
      modifies cur`filter
      ensures Strung(made, Chain(path, filter)) && |made| == |path| && root !in made
      ensures root.children == before[path[0] := made[0]]
    {
      cur.filter := Some(filter);
      assert cur == made[|path| - 1];
      forall i, j | 0 <= i < |path| - 1 && j == i + 1
        ensures made[i].children == map[path[j] := made[j]] && made[i].filter == None
      {
        assert made[i] != cur;
      }
    }

    // The finished chain takes its place in the table.
    method Complete(cur: Node, filter: Filter, ghost before: map<string, Node>, ghost made: seq<Node>,
                    ghost path: seq<string>)
      requires |path| > 0 && Building(root, before, made, path, cur)
      requires Chained(root, before, table, nodes, Repr) && forall n :: n in made ==> n !in Repr
      modifies `table, `nodes, `Repr, cur`filter
      ensures table == old(table).(chains := old(table).chains[path[0] := Chain(path, filter)])
      ensures Valid() && Repr == old(Repr) + set n | n in made
    {
      hide Building, Chained, Strung;
      LastOfBuilding(root, before, made, path, cur);
      Finish(cur, filter, before, made, path);
      assert Chained(root, before, table, nodes, Repr);
      ghost var c := Chain(path, filter);
      ChainedOne(root, before, table, nodes, Repr, made, c);
      table, nodes := table.(chains := table.chains[path[0] := c]), nodes[path[0] := made];
      Repr := Repr + set n | n in made;
    }

    // The walk has come down the first k segments and is at `cur`.
    ghost predicate Walked(path: seq<string>, k: nat, cur: Node)
      reads this, Repr
      requires Valid()
    {
      && k <= |path|
      && if k == 0 then cur == root
         else
           && path[0] in nodes && k <= |table.chains[path[0]].path|
           && table.chains[path[0]].path[..k] == path[..k] && cur == nodes[path[0]][k - 1]
    }

    // A walk that cannot go on, or has come to its end, gives what the table gives.
    lemma WalkEnds(path: seq<string>, k: nat, cur: Node)
      requires Valid() && |path| > 0 && Walked(path, k, cur)
      requires k == |path| || (cur in Repr && path[k] !in cur.children)
      ensures cur.filter == Found(table, path)
    {
      if k > 0 {
        var c := table.chains[path[0]];
        assert Strung(nodes[path[0]], c);
        if k == |c.path| {
          assert c.path[..k] == c.path;
        } else {
          var j := k;
          assert nodes[path[0]][k - 1].children == map[c.path[j] := nodes[path[0]][j]];
          assert k < |path| ==> c.path[k] != path[k];
        }
      }
    }

    lemma WalkGoesOn(path: seq<string>, k: nat, cur: Node)
      requires Valid() && Walked(path, k, cur) && k < |path| && cur in Repr && path[k] in cur.children
      ensures Walked(path, k + 1, cur.children[path[k]]) && cur.children[path[k]] in Repr
    {
      if k == 0 {
        assert nodes[path[0]][0] in Repr;
      } else {
        var c := table.chains[path[0]];
        assert Strung(nodes[path[0]], c);
        assert k < |c.path|;
        var j := k;
        assert nodes[path[0]][k - 1].children == map[c.path[j] := nodes[path[0]][j]];
        assert nodes[path[0]][j] in Repr;
        assert c.path[..k + 1] == path[..k + 1];
      }
    }

    lemma WalkStops(path: seq<string>, k: nat, cur: Node)
      requires Valid() && Walked(path, k, cur) && k + 1 == |path| && cur in Repr
      ensures path[k] in cur.children ==>
                cur.children[path[k]] in Repr && cur.children[path[k]].filter == Found(table, path)
      ensures path[k] !in cur.children ==> cur.filter == Found(table, path)
    {
      if path[k] in cur.children {
        WalkGoesOn(path, k, cur);
        WalkEnds(path, k + 1, cur.children[path[k]]);
      } else {
        WalkEnds(path, k, cur);
      }
    }

    lemma WalkStarts(path: seq<string>)
      requires Valid()
      ensures root in Repr && root.filter == table.root && Walked(path, 0, root)
    {
    }

    method Match(url: string) returns (f: Option<Filter>)
      requires Valid()
      ensures f == Matched(table, url)
    {
      hide Valid, Walked, Segments, Found, Strung, Asked, Ending;
      WalkStarts([]);
      if url == "" || url[0] != '/' {
        return None;
      }
      if |url| > 1 && url[1] == '*' {
        return root.filter;
      }
      var cur := root;
      f := cur.filter;
      var pre := 1;
      var pos := Slash(url, pre);
      ghost var path, k := Asked(url), 0;
      EndingFirst(url);
      WalkStarts(path);
      while pos < |url| && pos < |url| - 1
        invariant 1 <= pre <= |Body(url)| && pos == Slash(url, pre) && cur in Repr && f == cur.filter
        invariant Walked(path, k, cur) && Ending(url, path, k, pre)
        decreases |url| - pre
      {
        EndingStep(url, path, k, pre);
        var segment := url[pre..pos];
        if segment !in cur.children {
          WalkEnds(path, k, cur);
          return;
        }
        WalkGoesOn(path, k, cur);
        cur := cur.children[segment];
        f := cur.filter;
        pre := pos + 1;
        pos := Slash(url, pre);
        k := k + 1;
      }
      EndingLast(url, path, k, pre);
      // substr takes a length of -1 for the rest of the string.
      var segment := if pos == |url| - 1 && pos > pre then url[pre..pos - 1] else url[pre..];
      WalkStops(path, k, cur);
      if segment !in cur.children {
        return;
      }
      cur := cur.children[segment];
      f := cur.filter;
    }
  }

  // From `pre` on, the segments still to be looked for are those from the k-th.
  ghost predicate Ending(url: string, path: seq<string>, k: nat, pre: nat)
    requires |url| > 0 && url[0] == '/' && pre <= |Body(url)|
  {
    k < |path| && path[k..] == Tidied(Segments(Body(url), pre), Trailing(url))
  }

  lemma {:induction false} BodySlash(url: string, pre: nat)
    requires |url| > 0 && url[0] == '/' && 1 <= pre <= |Body(url)|
    ensures Slash(Body(url), pre) == Slash(url, pre)
    decreases |url| - pre
  {
    if pre < |Body(url)| && url[pre] != '/' { BodySlash(url, pre + 1); }
  }

  lemma EndingFirst(url: string)
    requires |url| > 0 && url[0] == '/'
    ensures Ending(url, Asked(url), 0, 1)
  {
    assert Asked(url)[0..] == Asked(url);
  }

  lemma SegmentsStep(s: string, from: nat)
    requires from <= |s| && Slash(s, from) < |s|
    ensures Segments(s, from) == [s[from..Slash(s, from)]] + Segments(s, Slash(s, from) + 1)
  {
  }

  lemma LastSegment(s: string, from: nat)
    requires from <= |s| && Slash(s, from) == |s|
    ensures Segments(s, from) == [s[from..]]
  {
  }

  lemma WantedIs(url: string, path: seq<string>, last: string)
    requires ForSegment(url) && Segments(url, 1) == path + [last]
    ensures Wanted(url) == if last == "*" then path else path + [last]
  {
    assert (path + [last])[..|path|] == path;
    assert url[1..][0] == url[1];
  }

  lemma BodySlice(url: string, pre: nat, p: nat)
    requires pre <= p <= |Body(url)|
    ensures Body(url)[pre..p] == url[pre..p]
  {
  }

  lemma TidiedTail(first: string, rest: seq<string>, trailing: bool)
    requires |rest| > 0
    ensures Tidied([first] + rest, trailing)[0] == first
    ensures Tidied([first] + rest, trailing)[1..] == Tidied(rest, trailing)
  {
    var all := [first] + rest;
    assert all[..|all| - 1] == [first] + rest[..|rest| - 1];
  }

  lemma EndingStep(url: string, path: seq<string>, k: nat, pre: nat)
    requires |url| > 0 && url[0] == '/' && 1 <= pre <= |Body(url)| && Ending(url, path, k, pre)
    requires Slash(url, pre) < |url| - 1
    ensures Slash(url, pre) < |Body(url)| && k < |path| && path[k] == url[pre..Slash(url, pre)]
    ensures Ending(url, path, k + 1, Slash(url, pre) + 1)
  {
    hide Tidied, Slash, Segments;
    BodySlash(url, pre);
    var p := Slash(url, pre);
    var rest := Segments(Body(url), p + 1);
    SegmentsStep(Body(url), pre);
    BodySlice(url, pre, p);
    TidiedTail(url[pre..p], rest, Trailing(url));
    assert path[k + 1..] == path[k..][1..];
    assert path[k] == path[k..][0];
  }

  lemma EndingLast(url: string, path: seq<string>, k: nat, pre: nat)
    requires |url| > 0 && url[0] == '/' && 1 <= pre <= |Body(url)| && Ending(url, path, k, pre)
    requires Slash(url, pre) >= |url| - 1
    ensures |path| == k + 1
    ensures var p := Slash(url, pre);
            path[k] == if p == |url| - 1 && p > pre then url[pre..p - 1] else url[pre..]
  {
    BodySlash(url, pre);
    assert path[k] == path[k..][0];
  }
}
