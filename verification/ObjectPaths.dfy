/** Object paths: a flat set of registered paths presented as a tree, one level at a time. */
module ObjectPaths {

  // ----- from bus names to object paths -----

  predicate IsPathChar(c: char) {
    'A' <= c <= 'Z' || 'a' <= c <= 'z' || '0' <= c <= '9' || c == '_'
  }

  function PathChar(c: char): char {
    if c == '.' then '/' else if IsPathChar(c) then c else '_'
  }

  function Mapped(name: string): (r: string)
    ensures |r| == |name| && forall i :: 0 <= i < |name| ==> r[i] == PathChar(name[i])
  {
    if name == "" then "" else Mapped(name[..|name| - 1]) + [PathChar(name[|name| - 1])]
  }

  /** `busNameToObjPath`, for a name that is not a null pointer. */
  method BusNameToObjPath(busName: string) returns (result: string)
    ensures result == "/" + Mapped(busName)
    ensures |result| == |busName| + 1 && result[0] == '/'
    ensures forall i :: 0 <= i < |busName| ==>
              result[i + 1] ==
                var c := busName[i];
                if 'A' <= c <= 'Z' || 'a' <= c <= 'z' || '0' <= c <= '9' then c
                else if c == '.' then '/' else '_'
  {
    result := "/";
    var idx := 0;
    while idx < |busName|
      invariant 0 <= idx <= |busName|
      invariant result == "/" + Mapped(busName[..idx])
    {
      var val := busName[idx];
      if val == '.' {
        result := result + "/";
      } else if 'A' <= val <= 'Z' || 'a' <= val <= 'z' || '0' <= val <= '9' || val == '_' {
        result := result + [val];
      } else {
        result := result + "_";
      }
      idx := idx + 1;
      assert busName[..idx][..idx - 1] == busName[..idx - 1];
    }
    assert busName[..idx] == busName;
  }

  /** The D-Bus Specification, section "Valid Object Paths". */
  predicate ValidObjectPath(path: string) {
    && path != "" && path[0] == '/'
    && (forall i :: 0 <= i < |path| ==> IsPathChar(path[i]) || path[i] == '/')
    && (forall i :: 0 <= i < |path| - 1 && path[i] == '/' ==> path[i + 1] != '/')
    && (|path| > 1 ==> path[|path| - 1] != '/')
  }

  /** No element of the dotted name is empty, as section "Valid Names" of the D-Bus Specification
      demands of every bus name. */
  predicate NoEmptyElement(name: string) {
    && (name != "" ==> name[0] != '.' && name[|name| - 1] != '.')
    && (forall i :: 0 <= i < |name| - 1 && name[i] == '.' ==> name[i + 1] != '.')
  }

  lemma PathOfName(name: string)
    ensures var path := "/" + Mapped(name);
            forall i :: 1 <= i < |path| ==> (path[i] == '/' <==> name[i - 1] == '.') && (IsPathChar(path[i]) || path[i] == '/')
  {
  }

  /** The path made from a name is valid exactly when no element of the name is empty. */
  lemma ValidIffNoEmptyElement(name: string)
    ensures ValidObjectPath("/" + Mapped(name)) <==> NoEmptyElement(name)
  {
    PathOfName(name);
    hide IsPathChar, PathChar, Mapped;
    var path := "/" + Mapped(name);
    if ValidObjectPath(path) {
      forall i | 0 <= i < |name| - 1 && name[i] == '.' ensures name[i + 1] != '.' {
        assert path[i + 1] == '/' && path[i + 1 + 1] != '/';
      }
      if name != "" {
        assert path[0 + 1] != '/' && path[|path| - 1] != '/';
      }
    }
    if NoEmptyElement(name) {
      forall i | 0 <= i < |path| - 1 && path[i] == '/' ensures path[i + 1] != '/' {
        if i > 0 {
          assert name[i - 1] == '.' && name[i - 1 + 1] != '.';
        }
      }
    }
  }

  // ----- paths as sequences of segments -----

  predicate IsSegment(s: string) {
    s != "" && forall i :: 0 <= i < |s| ==> s[i] != '/'
  }

  predicate AreSegments(segs: seq<string>) {
    forall i :: 0 <= i < |segs| ==> IsSegment(segs[i])
  }

  /** The object path with these segments; the root path is a special case. */
  function Render(segs: seq<string>): string {
    if segs == [] then "/" else Joined(segs)
  }

  function Joined(segs: seq<string>): string {
    if segs == [] then "" else "/" + segs[0] + Joined(segs[1..])
  }

  /** The path of a node with a separator at its end. */
  function Slashed(segs: seq<string>): string {
    Joined(segs) + "/"
  }

  function FirstSlash(s: string): (n: nat)
    ensures n <= |s| && (n < |s| ==> s[n] == '/') && forall i :: 0 <= i < n ==> s[i] != '/'
  {
    if s == "" || s[0] == '/' then 0 else 1 + FirstSlash(s[1..])
  }

  /** What stands before the first separator, or everything: `substr(0, find("/"))`. */
  function UpToSlash(s: string): string {
    s[..FirstSlash(s)]
  }

  lemma {:induction false} UpToSlashOf(a: string, b: string)
    requires (forall i :: 0 <= i < |a| ==> a[i] != '/') && (b == "" || b[0] == '/')
    ensures UpToSlash(a + b) == a
  {
    if a == "" {
      assert a + b == b;
    } else {
      assert (a + b)[1..] == a[1..] + b;
      UpToSlashOf(a[1..], b);
    }
  }

  predicate StartsWith(s: string, prefix: string) {
    prefix <= s
  }

  lemma PrefixByHead(node: seq<string>, path: seq<string>)
    requires node != [] && path != []
    ensures node < path <==> node[0] == path[0] && node[1..] < path[1..]
  {
    assert node == [node[0]] + node[1..] && path == [path[0]] + path[1..];
    if node[0] == path[0] && node[1..] < path[1..] {
      assert path == [path[0]] + (node[1..] + path[1..][|node[1..]|..]);
      assert path == node + path[1..][|node[1..]|..];
    }
  }

  lemma LeadingSlash(a: string, b: string)
    ensures "/" + a <= "/" + b <==> a <= b
  {
    assert ("/" + a)[1..] == a && ("/" + b)[1..] == b;
    if a <= b {
      assert "/" + b == "/" + a + b[|a|..];
    }
  }

  /** A registered path starts with the slashed path of a node exactly when it is strictly below
      that node. */
  lemma {:induction false} BelowNode(node: seq<string>, path: seq<string>)
    requires AreSegments(node) && AreSegments(path)
    ensures Slashed(node) <= Joined(path) <==> node < path
  {
    if path != [] && node != [] {
      assert AreSegments(node[1..]) && AreSegments(path[1..]);
      BelowNode(node[1..], path[1..]);
      PrefixByHead(node, path);
      var x, y := Slashed(node[1..]), Joined(path[1..]);
      assert x != "" && x[0] == '/' by { JoinedStartsWithSlash(node[1..]); }
      FirstSegments(node[0], x, path[0], y, path[1..]);
      LeadingSlash(node[0] + x, path[0] + y);
      assert Slashed(node) == "/" + (node[0] + x) && Joined(path) == "/" + (path[0] + y);
    }
  }

  lemma DropHead(a: string, b: string, k: nat)
    requires k <= |b|
    ensures ("/" + a + b)[1 + |a| + k..] == b[k..]
  {
  }

  lemma FirstOf(path: seq<string>)
    requires AreSegments(path) && path != []
    ensures |Slashed([])| == 1 <= |Joined(path)| && UpToSlash(Joined(path)[1..]) == path[0]
  {
    JoinedStartsWithSlash(path[1..]);
    var rest := Joined(path[1..]);
    assert Joined(path) == "/" + path[0] + rest && Slashed([]) == "/";
    hide *;
    assert forall i :: 0 <= i < |path[0]| ==> path[0][i] != '/' by { SegmentHasNoSlash(path); }
    UpToSlashOf(path[0], rest);
    assert ("/" + path[0] + rest)[1..] == path[0] + rest;
  }

  lemma SegmentHasNoSlash(path: seq<string>)
    requires AreSegments(path) && path != []
    ensures forall i :: 0 <= i < |path[0]| ==> path[0][i] != '/'
  {
  }

  lemma SlashedByHead(node: seq<string>, path: seq<string>)
    requires node != [] && path != [] && node[0] == path[0] && |Slashed(node[1..])| <= |Joined(path[1..])|
    ensures |Slashed(node)| <= |Joined(path)|
    ensures Joined(path)[|Slashed(node)|..] == Joined(path[1..])[|Slashed(node[1..])|..]
  {
    assert Slashed(node) == "/" + node[0] + Slashed(node[1..]);
    assert Joined(path) == "/" + path[0] + Joined(path[1..]);
    hide Slashed, Joined;
    DropHead(path[0], Joined(path[1..]), |Slashed(node[1..])|);
  }

  /** What follows the slashed path of the node is the next segment. */
  lemma {:induction false} NextSegment(node: seq<string>, path: seq<string>)
    requires AreSegments(path) && node < path
    ensures |Slashed(node)| <= |Joined(path)|
    ensures UpToSlash(Joined(path)[|Slashed(node)|..]) == path[|node|]
  {
    hide UpToSlash, Slashed, Joined;
    if node == [] {
      FirstOf(path);
    } else {
      assert AreSegments(path[1..]);
      PrefixByHead(node, path);
      NextSegment(node[1..], path[1..]);
      SlashedByHead(node, path);
    }
  }

  lemma JoinedStartsWithSlash(segs: seq<string>)
    ensures segs != [] ==> Joined(segs) != "" && Joined(segs)[0] == '/'
  {
  }

  /** Two strings that begin with a segment each can only be prefixes if the segments agree. */
  lemma FirstSegments(a: string, x: string, b: string, y: string, rest: seq<string>)
    requires IsSegment(a) && IsSegment(b) && x != "" && x[0] == '/' && y == Joined(rest)
    ensures a + x <= b + y <==> a == b && x <= y
  {
    JoinedStartsWithSlash(rest);
    if a + x <= b + y {
      assert b + y == (a + x) + (b + y)[|a + x|..];
      UpToSlashOf(a, x + (b + y)[|a + x|..]);
      assert a + (x + (b + y)[|a + x|..]) == b + y;
      UpToSlashOf(b, y);
      assert (b + y)[|b|..] == y && (a + x)[|a|..] == x;
    }
    if a == b && x <= y {
      assert b + y == a + x + y[|x|..];
    }
  }

  /** Every valid path but the root is the rendering of well-formed segments. */
  function Segments(path: string): seq<string>
    decreases |path|
  {
    if path == "" then []
    else
      var rest := path[1..];
      [UpToSlash(rest)] + Segments(rest[FirstSlash(rest)..])
  }

  lemma TailIsValid(path: string, k: nat)
    requires ValidObjectPath(path) && 0 < k < |path| && path[k] == '/'
    ensures ValidObjectPath(path[k..]) && |path[k..]| > 1
  {
    var tail := path[k..];
    assert forall i :: 0 <= i < |tail| ==> tail[i] == path[k + i];
    forall i | 0 <= i < |tail| - 1 && tail[i] == '/' ensures tail[i + 1] != '/' {
      assert path[k + i] == '/' && path[k + i + 1] != '/';
    }
  }

  lemma FirstIsSegment(path: string)
    requires ValidObjectPath(path) && |path| > 1
    ensures path[0] == '/' && IsSegment(UpToSlash(path[1..]))
    ensures path[1..][FirstSlash(path[1..])..] == path[FirstSlash(path[1..]) + 1..]
    ensures path == "/" + UpToSlash(path[1..]) + path[1..][FirstSlash(path[1..])..]
  {
    assert path[1..][0] == path[0 + 1];
  }

  lemma JoinedCons(first: string, rest: seq<string>)
    requires IsSegment(first) && AreSegments(rest)
    ensures AreSegments([first] + rest) && Joined([first] + rest) == "/" + first + Joined(rest)
  {
    assert ([first] + rest)[1..] == rest;
  }

  lemma {:induction false} SegmentsRender(path: string)
    requires path != "" ==> ValidObjectPath(path) && |path| > 1
    ensures AreSegments(Segments(path)) && Joined(Segments(path)) == path
    decreases |path|
  {
    if path != "" {
      var rest := path[1..];
      var n := FirstSlash(rest);
      var next := rest[n..];
      FirstIsSegment(path);
      if next != "" {
        TailIsValid(path, n + 1);
      }
      hide ValidObjectPath, FirstSlash, Joined, IsSegment, AreSegments;
      SegmentsRender(next);
      JoinedCons(rest[..n], Segments(next));
    }
  }

  // ----- sorting and removing duplicates -----

  predicate Less(a: string, b: string) {
    b != "" && (a == "" || a[0] < b[0] || (a[0] == b[0] && Less(a[1..], b[1..])))
  }

  /** `a` and `b` agree before place `k`, and there `a` has ended or has the smaller character. */
  predicate SmallerAt(a: string, b: string, k: nat) {
    k <= |a| && k < |b| && a[..k] == b[..k] && (k == |a| || a[k] < b[k])
  }

  lemma SmallerLater(a: string, b: string, k: nat)
    requires a != "" && b != "" && a[0] == b[0]
    ensures SmallerAt(a, b, k + 1) <==> SmallerAt(a[1..], b[1..], k)
    ensures !SmallerAt(a, b, 0)
  {
    if k < |a| && k < |b| {
      assert a[..k + 1] == [a[0]] + a[1..][..k];
      assert b[..k + 1] == [b[0]] + b[1..][..k];
    }
  }

  lemma SmallerFirst(a: string, b: string, k: nat)
    requires a == "" || b == "" || a[0] != b[0]
    ensures SmallerAt(a, b, k) <==> k == 0 && b != "" && (a == "" || a[0] < b[0])
  {
    if 0 < k <= |a| && k < |b| {
      assert a[..k][0] != b[..k][0];
    }
  }

  /** The order is that of a dictionary. */
  lemma {:induction false} LessIsLexicographic(a: string, b: string)
    ensures Less(a, b) <==> exists k: nat :: SmallerAt(a, b, k)
    decreases |a|
  {
    hide SmallerAt;
    if a == "" || b == "" || a[0] != b[0] {
      SmallerFirst(a, b, 0);
      if k: nat :| SmallerAt(a, b, k) {
        SmallerFirst(a, b, k);
      }
    } else {
      LessIsLexicographic(a[1..], b[1..]);
      if k: nat :| SmallerAt(a, b, k) {
        SmallerLater(a, b, if k > 0 then k - 1 else 0);
      }
      if k: nat :| SmallerAt(a[1..], b[1..], k) {
        SmallerLater(a, b, k);
      }
    }
  }

  lemma {:induction false} LessIsTotal(a: string, b: string)
    ensures Less(a, b) || Less(b, a) || a == b
    ensures !(Less(a, b) && Less(b, a)) && !Less(a, a)
    decreases |a|
  {
    if a != "" {
      LessIsTotal(a[1..], a[1..]);
      if b != "" {
        LessIsTotal(a[1..], b[1..]);
        if a[0] == b[0] && a[1..] == b[1..] {
          assert a == [a[0]] + a[1..] && b == [b[0]] + b[1..];
        }
      }
    }
  }

  lemma {:induction false} LessIsTransitive(a: string, b: string, c: string)
    requires Less(a, b) && Less(b, c)
    ensures Less(a, c)
  {
    if a != "" && a[0] == b[0] == c[0] {
      LessIsTransitive(a[1..], b[1..], c[1..]);
    }
  }

  predicate Ascending(list: seq<string>) {
    forall i, j :: 0 <= i < j < |list| ==> Less(list[i], list[j])
  }

  /** Put `x` where it belongs in a sorted list without duplicates. */
  function Insert(list: seq<string>, x: string): seq<string> {
    if list == [] then [x]
    else if x == list[0] then list
    else if Less(x, list[0]) then [x] + list
    else [list[0]] + Insert(list[1..], x)
  }

  lemma {:induction false} InsertKeepsOrder(list: seq<string>, x: string)
    requires Ascending(list)
    ensures Ascending(Insert(list, x))
    ensures forall y :: y in Insert(list, x) <==> y in list || y == x
  {
    if list != [] && x != list[0] {
      LessIsTotal(x, list[0]);
      if Less(x, list[0]) {
        forall j | 0 <= j < |list| ensures Less(x, list[j]) {
          if j > 0 {
            LessIsTransitive(x, list[0], list[j]);
          }
        }
      } else {
        assert forall i :: 0 <= i < |list[1..]| ==> list[1..][i] == list[i + 1];
        InsertKeepsOrder(list[1..], x);
        var rest := Insert(list[1..], x);
        forall j | 0 <= j < |rest| ensures Less(list[0], rest[j]) {
          assert rest[j] in rest;
        }
        assert list == [list[0]] + list[1..];
      }
    }
  }

  /** `sort` followed by `unique`. */
  function SortUnique(list: seq<string>): seq<string> {
    if list == [] then [] else Insert(SortUnique(list[..|list| - 1]), list[|list| - 1])
  }

  lemma {:induction false} SortUniqueSorts(list: seq<string>)
    ensures Ascending(SortUnique(list))
    ensures forall y :: y in SortUnique(list) <==> y in list
  {
    if list != [] {
      SortUniqueSorts(list[..|list| - 1]);
      InsertKeepsOrder(SortUnique(list[..|list| - 1]), list[|list| - 1]);
      assert list == list[..|list| - 1] + [list[|list| - 1]];
    }
  }

  // ----- the children of a node -----

  /** The path asked for, made to end in a separator. */
  function WithSeparator(path: string): string {
    if path == "" || path[|path| - 1] != '/' then path + "/" else path
  }

  function ChildrenOf(prefix: string, registered: seq<string>): seq<string> {
    if registered == [] then []
    else
      var last := registered[|registered| - 1];
      ChildrenOf(prefix, registered[..|registered| - 1])
      + if StartsWith(last, prefix) then [UpToSlash(last[|prefix|..])] else []
  }

  /** The part of `introspect` that lists the child nodes of an object path. */
  method ListChildren(objPath: string, registered: seq<string>) returns (children: seq<string>)
    ensures children == SortUnique(ChildrenOf(WithSeparator(objPath), registered))
  {
    var prefix := objPath;
    if |prefix| == 0 {
      prefix := prefix + "/";
    } else if prefix[|prefix| - 1] != '/' {
      prefix := prefix + "/";
    }
    var pathList := [];
    for i := 0 to |registered|
      invariant pathList == ChildrenOf(prefix, registered[..i])
    {
      if StartsWith(registered[i], prefix) {
        var child := registered[i][|prefix|..];
        child := child[..FirstSlash(child)];
        pathList := pathList + [child];
      }
      assert registered[..i + 1][..i] == registered[..i];
    }
    assert registered[..|registered|] == registered;
    children := SortUnique(pathList);
  }

  // ----- the tree -----

  /** What a client sees listed at a node when `services` are the segments of the registered paths. */
  function Listed(services: seq<seq<string>>, node: seq<string>): seq<string> {
    SortUnique(ChildrenOf(WithSeparator(Render(node)), Rendered(services)))
  }

  function Rendered(services: seq<seq<string>>): (r: seq<string>)
    ensures |r| == |services| && forall i :: 0 <= i < |services| ==> r[i] == Render(services[i])
  {
    if services == [] then [] else Rendered(services[..|services| - 1]) + [Render(services[|services| - 1])]
  }

  /** Registered paths that are well formed; the root is the one without segments. */
  predicate WellFormed(services: seq<seq<string>>) {
    forall i :: 0 <= i < |services| ==> AreSegments(services[i])
  }

  lemma {:induction false} JoinedEnd(segs: seq<string>)
    requires AreSegments(segs) && segs != []
    ensures Joined(segs) != "" && Joined(segs)[|Joined(segs)| - 1] != '/'
  {
    if |segs| > 1 {
      assert AreSegments(segs[1..]);
      JoinedEnd(segs[1..]);
    }
  }

  lemma SeparatorMakesSlashed(node: seq<string>)
    requires AreSegments(node)
    ensures WithSeparator(Render(node)) == Slashed(node)
  {
    if node != [] {
      JoinedEnd(node);
    }
  }

  /** Some registered path below the node has the child as its next segment. */
  predicate IsNextSegment(services: seq<seq<string>>, node: seq<string>, child: string) {
    exists i :: 0 <= i < |services| && node < services[i] && services[i][|node|] == child
  }

  lemma LastService(services: seq<seq<string>>, node: seq<string>, child: string)
    requires services != []
    ensures var n := |services| - 1;
            IsNextSegment(services, node, child) <==>
              IsNextSegment(services[..n], node, child) || (node < services[n] && services[n][|node|] == child)
  {
    var n := |services| - 1;
    if i :| 0 <= i < |services[..n]| && node < services[..n][i] && services[..n][i][|node|] == child {
      assert node < services[i] && services[i][|node|] == child;
    }
    if i :| 0 <= i < |services| && node < services[i] && services[i][|node|] == child {
      assert i < n ==> services[..n][i] == services[i];
    }
  }

  /** A service registered at the root itself is listed there, under an empty name. */
  predicate IsRootItself(services: seq<seq<string>>, node: seq<string>, child: string) {
    node == [] && child == "" && [] in services
  }

  lemma LastChild(prefix: string, registered: seq<string>, child: string)
    requires registered != []
    ensures var last := registered[|registered| - 1];
            child in ChildrenOf(prefix, registered) <==>
              child in ChildrenOf(prefix, registered[..|registered| - 1]) || (prefix <= last && child == UpToSlash(last[|prefix|..]))
  {
  }

  /** What one registered path contributes to the children of a node. */
  lemma OneService(node: seq<string>, path: seq<string>, child: string)
    requires AreSegments(node) && AreSegments(path)
    ensures Slashed(node) <= Render(path) && child == UpToSlash(Render(path)[|Slashed(node)|..]) <==>
              (node < path && path[|node|] == child) || (node == path == [] && child == "")
  {
    if path == [] {
      RootHasNoPrefix(node);
    } else {
      BelowNode(node, path);
      if node < path {
        NextSegment(node, path);
      }
    }
  }

  lemma RootHasNoPrefix(node: seq<string>)
    ensures Slashed(node) <= "/" <==> node == []
    ensures UpToSlash("/"[|Slashed([])|..]) == ""
  {
    assert Slashed([]) == "/" && "/"[1..] == "";
    if node != [] {
      assert |Slashed(node)| >= 2;
    }
  }

  lemma {:induction false} ChildIffBelow(services: seq<seq<string>>, node: seq<string>, child: string)
    requires WellFormed(services) && AreSegments(node)
    ensures child in ChildrenOf(Slashed(node), Rendered(services)) <==>
              IsNextSegment(services, node, child) || IsRootItself(services, node, child)
  {
    hide Slashed, UpToSlash, Joined, Render, IsSegment;
    if services != [] {
      hide IsNextSegment, ChildrenOf;
      var n := |services| - 1;
      ChildIffBelow(services[..n], node, child);
      OneService(node, services[n], child);
      assert Rendered(services)[..n] == Rendered(services[..n]);
      assert services == services[..n] + [services[n]];
      LastService(services, node, child);
      LastChild(Slashed(node), Rendered(services), child);
    }
  }

  /** The children listed at a node are sorted, free of duplicates, and exactly the next segments of the
      registered paths below the node; besides, an empty name is listed at "/", if and only if a service
      is registered at the root itself. */
  lemma ListedChildren(services: seq<seq<string>>, node: seq<string>)
    requires WellFormed(services) && AreSegments(node)
    ensures Ascending(Listed(services, node))
    ensures forall child :: child != "" ==> (child in Listed(services, node) <==> IsNextSegment(services, node, child))
    ensures "" in Listed(services, node) <==> node == [] && [] in services
  {
    SeparatorMakesSlashed(node);
    var all := ChildrenOf(Slashed(node), Rendered(services));
    SortUniqueSorts(all);
    forall child ensures child in all <==> IsNextSegment(services, node, child) || IsRootItself(services, node, child) {
      ChildIffBelow(services, node, child);
    }
    SegmentsAreNotEmpty(services, node);
  }

  lemma SegmentsAreNotEmpty(services: seq<seq<string>>, node: seq<string>)
    requires WellFormed(services)
    ensures !IsNextSegment(services, node, "")
  {
    forall i | 0 <= i < |services| && node < services[i] ensures services[i][|node|] != "" {
      assert IsSegment(services[i][|node|]);
    }
  }

  /** `node` can be reached from the root by following listed children. */
  predicate Reachable(services: seq<seq<string>>, node: seq<string>) {
    node == [] ||
    (Reachable(services, node[..|node| - 1]) && node[|node| - 1] in Listed(services, node[..|node| - 1]))
  }

  lemma PrefixByLast(node: seq<string>, path: seq<string>)
    requires node != []
    ensures node <= path <==> node[..|node| - 1] < path && path[|node| - 1] == node[|node| - 1]
  {
    assert node == node[..|node| - 1] + [node[|node| - 1]];
  }

  /** Introspection is faithful: the nodes reached from "/" by following listed children are the root
      and the prefixes of registered paths, and so every registered path is reached. */
  lemma {:induction false} TreeIsFaithful(services: seq<seq<string>>, node: seq<string>)
    requires WellFormed(services) && AreSegments(node)
    ensures Reachable(services, node) <==>
              node == [] || exists i :: 0 <= i < |services| && node <= services[i]
  {
    if node != [] {
      var parent := node[..|node| - 1];
      TreeIsFaithful(services, parent);
      ListedChildren(services, parent);
      hide Listed;
      forall i | 0 <= i < |services|
        ensures node <= services[i] <==> parent < services[i] && services[i][|parent|] == node[|parent|]
      {
        PrefixByLast(node, services[i]);
      }
    }
  }
}
