/** path.Clean, path.Join and path.Split-like decomposition on slash-separated
    paths (pkg/cluster/util.go), following the documented rules of Go's path
    package: collapse "/", drop ".", resolve "..", keep the root. */
module GoPath {
  import opened Wrappers
  import opened Text

  const SLASH := '/'

  /** Pushes one component onto a cleaned stack. */
  function Push(stack: seq<string>, comp: string, rooted: bool): seq<string> {
    if comp == "" || comp == "." then stack
    else if comp == ".." then
      if stack != [] && stack[|stack| - 1] != ".." then stack[..|stack| - 1]
      else if rooted then stack
      else stack + [comp]
    else stack + [comp]
  }

  function Resolve(stack: seq<string>, comps: seq<string>, rooted: bool): seq<string>
    decreases |comps|
  {
    if comps == [] then stack else Resolve(Push(stack, comps[0], rooted), comps[1..], rooted)
  }

  function Rooted(p: string): bool {
    p != "" && p[0] == SLASH
  }

  function Components(p: string): seq<string> {
    Resolve([], Split(p, SLASH), Rooted(p))
  }

  function Render(rooted: bool, comps: seq<string>): string {
    if rooted then [SLASH] + Text.Join(comps, SLASH)
    else if comps == [] then "." else Text.Join(comps, SLASH)
  }

  function Clean(p: string): string {
    if p == "" then "." else Render(Rooted(p), Components(p))
  }

  /** path.Join of two elements: empty elements are skipped. */
  function Join2(a: string, b: string): string {
    if a == "" && b == "" then ""
    else if a == "" then Clean(b)
    else if b == "" then Clean(a)
    else Clean(a + [SLASH] + b)
  }

  /** A name that is one path component, as every Kubernetes name is. */
  predicate IsComponent(c: string) {
    c != "" && c != "." && c != ".." && SLASH !in c
  }

  /** Cleaned components: no empty ones, no ".", and ".." only in front. */
  ghost predicate Normal(comps: seq<string>, rooted: bool) {
    && (forall c | c in comps :: c != "" && c != "." && SLASH !in c)
    && (forall i | 0 <= i < |comps| && comps[i] == ".." :: !rooted && forall j | 0 <= j < i :: comps[j] == "..")
  }

  lemma {:induction false} SplitAppend(a: string, name: string)
    requires SLASH !in name
    ensures Split(a + [SLASH] + name, SLASH) == Split(a, SLASH) + [name]
  {
    var whole := a + [SLASH] + name;
    if a == "" {
      assert whole == [] + [SLASH] + name;
      SplitAtFirst("", name, SLASH);
      SplitWithout(name, SLASH);
    } else {
      assert whole[1..] == a[1..] + [SLASH] + name;
      SplitAppend(a[1..], name);
    }
  }

  lemma {:induction false} ResolveAppend(stack: seq<string>, comps: seq<string>, last: string, rooted: bool)
    ensures Resolve(stack, comps + [last], rooted) == Push(Resolve(stack, comps, rooted), last, rooted)
    decreases |comps|
  {
    if comps == [] {
      assert Resolve(Push(stack, last, rooted), [], rooted) == Push(stack, last, rooted);
    } else {
      assert (comps + [last])[1..] == comps[1..] + [last];
      ResolveAppend(Push(stack, comps[0], rooted), comps[1..], last, rooted);
    }
  }

  lemma {:induction false} ResolveIsNormal(stack: seq<string>, comps: seq<string>, rooted: bool)
    requires Normal(stack, rooted) && Free(comps, SLASH)
    ensures Normal(Resolve(stack, comps, rooted), rooted)
    decreases |comps|
  {
    if comps != [] {
      assert comps[0] in comps;
      forall c | c in comps[1..] ensures SLASH !in c {
        assert c in comps;
      }
      ResolveIsNormal(Push(stack, comps[0], rooted), comps[1..], rooted);
    }
  }

  /** Resolving what is already resolved changes nothing. */
  lemma {:induction false} ResolveNormal(stack: seq<string>, comps: seq<string>, rooted: bool)
    requires Normal(stack + comps, rooted)
    ensures Resolve(stack, comps, rooted) == stack + comps
    decreases |comps|
  {
    if comps != [] {
      assert (stack + comps)[|stack|] == comps[0] && comps[0] in stack + comps;
      if comps[0] == ".." && stack != [] {
        assert (stack + comps)[|stack| - 1] == stack[|stack| - 1] == "..";
      }
      assert Push(stack, comps[0], rooted) == stack + [comps[0]];
      assert stack + [comps[0]] + comps[1..] == stack + comps;
      ResolveNormal(stack + [comps[0]], comps[1..], rooted);
    }
  }

  lemma ComponentsAreNormal(p: string)
    ensures Normal(Components(p), Rooted(p))
  {
    SplitIsFree(p, SLASH);
    ResolveIsNormal([], Split(p, SLASH), Rooted(p));
  }

  lemma RenderSplitsText(comps: seq<string>, rooted: bool)
    requires Normal(comps, rooted) && comps != []
    ensures Split(Render(rooted, comps), SLASH) == (if rooted then [""] else []) + comps
    ensures Rooted(Render(rooted, comps)) == rooted
  {
    SplitOfJoin(comps, SLASH);
    var text := Text.Join(comps, SLASH);
    assert comps[0] in comps;
    if rooted {
      SplitAtFirst("", text, SLASH);
      assert "" + [SLASH] + text == [SLASH] + text;
    } else {
      assert text[0] == comps[0][0] && comps[0][0] in comps[0];
      assert [] + comps == comps;
    }
  }

  lemma RenderSplits(comps: seq<string>, rooted: bool)
    requires Normal(comps, rooted) && comps != []
    ensures Split(Render(rooted, comps), SLASH) == (if rooted then [""] else []) + comps
    ensures Rooted(Render(rooted, comps)) == rooted
    ensures Components(Render(rooted, comps)) == comps
  {
    RenderSplitsText(comps, rooted);
    ResolveNormal([], comps, rooted);
    hide Render, Split, Rooted, Normal;
    assert [] + comps == comps;
    if rooted {
      assert ([""] + comps)[1..] == comps;
    }
  }

  /** Joining a component onto a base, in terms of the base's components. */
  lemma JoinComponent(base: string, name: string)
    requires IsComponent(name)
    ensures var comps := Components(base) + [name];
            Normal(comps, Rooted(base)) && Join2(base, name) == Render(Rooted(base), comps)
  {
    var comps := Components(base) + [name];
    ComponentsAreNormal(base);
    if base == "" {
      SplitWithout(name, SLASH);
      assert Resolve([], [name], false) == Resolve([name], [], false) == [name];
      assert Resolve([], [""], false) == Resolve([], [], false) == [];
      assert name[0] in name;
      assert comps == [name];
    } else {
      SplitAppend(base, name);
      ResolveAppend([], Split(base, SLASH), name, Rooted(base));
    }
  }

  /** Joining and plain concatenation lead to the same place below the root of
      a file system, for every base: they may differ in spelling only. */
  lemma SamePlace(base: string, name: string)
    requires IsComponent(name)
    ensures Components(base + [SLASH] + name) == Components(base) + [name]
    ensures Components(Join2(base, name)) == Components(base) + [name]
  {
    JoinComponent(base, name);
    RenderSplits(Components(base) + [name], Rooted(base));
    SplitAppend(base, name);
    if base == "" {
      assert Resolve([], [""], false) == Resolve([], [], false) == [];
      assert Resolve([], ["", name], true) == Resolve([], [name], true) == Resolve([name], [], true) by {
        assert ["", name][1..] == [name];
      }
      assert Split("", SLASH) + [name] == ["", name];
    } else {
      ResolveAppend([], Split(base, SLASH), name, Rooted(base));
    }
  }

  lemma RenderAppend(rooted: bool, comps: seq<string>, name: string)
    ensures Render(rooted, comps + [name])
         == if comps != [] then Render(rooted, comps) + [SLASH] + name
            else if rooted then [SLASH] + name else name
  {
    JoinAppend(comps, name, SLASH);
  }

  /** path.Join and plain concatenation give the same path exactly for clean
      bases other than "", "." and "/". */
  lemma JoinAgrees(base: string, name: string)
    requires IsComponent(name)
    ensures Join2(base, name) == base + [SLASH] + name
       <==> base != "" && base != "." && base != "/" && Clean(base) == base
  {
    JoinComponent(base, name);
    RenderAppend(Rooted(base), Components(base), name);
    SplitWithout(".", SLASH);
    assert Resolve([], ["."], false) == Resolve([], [], false);
    assert Split("/", SLASH) == ["", ""]
            && Resolve([], ["", ""], true) == Resolve([], [""], true) == Resolve([], [], true);
    var clean := Render(Rooted(base), Components(base));
    if Components(base) != [] {
      if clean + [SLASH] + name == base + [SLASH] + name {
        assert |clean| == |base|;
        assert clean == (clean + [SLASH] + name)[..|clean|] == (base + [SLASH] + name)[..|base|] == base;
      }
    } else {
      assert |Join2(base, name)| <= 1 + |name|;
    }
  }

  lemma CleanThree(a: string, b: string, c: string)
    requires SLASH !in a && SLASH !in b && SLASH !in c
    ensures var rooted := a == "";
            Clean(a + [SLASH] + b + [SLASH] + c)
            == Render(rooted, Push(Push(Push([], a, rooted), b, rooted), c, rooted))
  {
    var p := a + [SLASH] + b + [SLASH] + c;
    SplitThree(a, b, c);
    ResolveThree([], a, b, c, a == "");
    assert a != "" ==> p[0] == a[0] && a[0] in a;
    hide Split, Resolve, Render, Push;
  }

  lemma RenderTwo(x: string, y: string)
    ensures Render(false, [x, y]) == x + [SLASH] + y && Render(false, [x]) == x && Render(true, [x]) == [SLASH] + x
    ensures Render(false, ["..", "..", x]) == ".." + [SLASH] + (".." + [SLASH] + x)
  {
    JoinTwo(x, y);
    JoinTwo("..", x);
    assert ["..", "..", x][1..] == ["..", x];
    assert Text.Join(["..", "..", x], SLASH) == ".." + [SLASH] + Text.Join(["..", x], SLASH);
  }

  lemma JoinTwo(x: string, y: string)
    ensures Text.Join([x, y], SLASH) == x + [SLASH] + y
  {
    assert [x, y][1..] == [y];
    assert Text.Join([y], SLASH) == y;
    assert Text.Join([x, y], SLASH) == x + [SLASH] + Text.Join([y], SLASH);
  }

  /** The rules of path.Clean: a doubled slash and a "." component collapse, and
      ".." undoes the component before it. */
  lemma CleanInside(x: string, y: string)
    requires IsComponent(x) && IsComponent(y)
    ensures Clean(x + [SLASH] + [SLASH] + y) == x + [SLASH] + y
    ensures Clean(x + [SLASH] + "." + [SLASH] + y) == x + [SLASH] + y
    ensures Clean(x + [SLASH] + ".." + [SLASH] + y) == y
  {
    CleanThree(x, "", y);
    CleanThree(x, ".", y);
    CleanThree(x, "..", y);
    RenderTwo(x, y);
    RenderTwo(y, y);
    assert Push(Push([], x, false), "..", false) == [];
    hide Clean, Render;
    assert x + [SLASH] + "" + [SLASH] + y == x + [SLASH] + [SLASH] + y;
  }

  /** In front of a relative path ".." stays; at the root it goes. */
  lemma CleanInFront(x: string)
    requires IsComponent(x)
    ensures Clean(".." + [SLASH] + ".." + [SLASH] + x) == ".." + [SLASH] + (".." + [SLASH] + x)
    ensures Clean([SLASH] + ".." + [SLASH] + x) == [SLASH] + x
  {
    CleanThree("..", "..", x);
    CleanThree("", "..", x);
    RenderTwo(x, x);
    hide Clean, Render;
    assert Push(Push(Push([], "..", false), "..", false), x, false) == ["..", "..", x];
    assert "" + [SLASH] + ".." + [SLASH] + x == [SLASH] + ".." + [SLASH] + x;
  }

  lemma {:induction false} SplitThree(a: string, b: string, c: string)
    requires SLASH !in a && SLASH !in b && SLASH !in c
    ensures Split(a + [SLASH] + b + [SLASH] + c, SLASH) == [a, b, c]
  {
    SplitAppend(a + [SLASH] + b, c);
    SplitAppend(a, b);
    SplitWithout(a, SLASH);
  }

  lemma {:induction false} ResolveThree(stack: seq<string>, a: string, b: string, c: string, rooted: bool)
    ensures Resolve(stack, [a, b, c], rooted) == Push(Push(Push(stack, a, rooted), b, rooted), c, rooted)
  {
    var one := Push(stack, a, rooted);
    var two := Push(one, b, rooted);
    assert [a, b, c][1..] == [b, c] && [b, c][1..] == [c] && [c][1..] == [];
    assert Resolve(one, [b, c], rooted) == Resolve(two, [c], rooted) == Resolve(Push(two, c, rooted), [], rooted);
  }

  // ------------------------------------------------- pkg/cluster/util.go

  function ClusterPathFromBasePath(basePath: string, clusterName: string): string {
    Join2(basePath, clusterName)
  }

  function MgmtPathFromBasePath(basePath: string, clusterName: string): string {
    Join2(ClusterPathFromBasePath(basePath, clusterName), "mgmt")
  }

  /** For clean bases that are no root, the paths in full. */
  lemma PathsInFull(base: string, name: string)
    requires IsComponent(name) && base != "" && base != "." && base != "/" && Clean(base) == base
    ensures ClusterPathFromBasePath(base, name) == base + "/" + name
    ensures MgmtPathFromBasePath(base, name) == base + "/" + name + "/mgmt"
    ensures DecomposePath(base + "/" + name + "/mgmt") == Success((base, name))
  {
    JoinAgrees(base, name);
    JoinComponent(base, name);
    ComponentsAreNormal(base);
    RenderSplits(Components(base) + [name], Rooted(base));
    MgmtPathRendered(base, name);
    RenderAppend(Rooted(base), Components(base) + [name], "mgmt");
    assert Components(base) + [name] + ["mgmt"] == Components(base) + [name, "mgmt"];
    assert [SLASH] + "mgmt" == "/mgmt";
    DecomposeInverts(base, name);
  }

  function DecomposePath(mgmtPath: string): Result<(string, string), string> {
    var comps := Split(mgmtPath, SLASH);
    var l := |comps|;
    if l < 3 then Failure("malformed repo path")
    else if comps[l - 1] != "mgmt" then Failure("malformed repo path: unexpected last component")
    else Success((Text.Join(comps[..l - 2], SLASH), comps[l - 2]))
  }

  lemma MgmtPathRendered(base: string, name: string)
    requires IsComponent(name)
    ensures var comps := Components(base) + [name, "mgmt"];
            Normal(comps, Rooted(base)) && MgmtPathFromBasePath(base, name) == Render(Rooted(base), comps)
  {
    JoinComponent(base, name);
    var inner := Components(base) + [name];
    RenderSplits(inner, Rooted(base));
    JoinComponent(Join2(base, name), "mgmt");
    assert inner + ["mgmt"] == Components(base) + [name, "mgmt"];
  }

  lemma CleanRendered(base: string)
    ensures Clean(base) == Render(Rooted(base), Components(base))
    ensures Clean(base) != "." && Clean(base) != "/" <==> Components(base) != []
  {
    ComponentsAreNormal(base);
    if base == "" {
      assert Resolve([], [""], false) == Resolve([], [], false) == [];
    }
    if Components(base) != [] {
      RootIsNotRendered(Rooted(base), Components(base));
    }
  }

  lemma RootIsNotRendered(rooted: bool, comps: seq<string>)
    requires Normal(comps, rooted) && comps != []
    ensures Render(rooted, comps) != "." && Render(rooted, comps) != "/"
  {
    RenderSplits(comps, rooted);
    SplitWithout(".", SLASH);
    assert Split("/", SLASH) == ["", ""];
    assert comps[0] in comps;
    assert ((if rooted then [""] else []) + comps)[if rooted then 1 else 0] == comps[0];
  }

  /** What decomposePath finds in a management path, for every base. */
  lemma DecomposeRendered(base: string, name: string)
    requires IsComponent(name)
    ensures var front := (if Rooted(base) then [""] else []) + Components(base);
            DecomposePath(MgmtPathFromBasePath(base, name))
            == if front == [] then Failure("malformed repo path") else Success((Text.Join(front, SLASH), name))
  {
    MgmtPathRendered(base, name);
    var comps := Components(base) + [name, "mgmt"];
    RenderSplits(comps, Rooted(base));
    var front := (if Rooted(base) then [""] else []) + Components(base);
    var parts := (if Rooted(base) then [""] else []) + comps;
    assert parts == front + [name, "mgmt"];
    assert parts[..|parts| - 2] == front && parts[|parts| - 1] == "mgmt" && parts[|parts| - 2] == name;
  }

  lemma {:induction false} FrontIsClean(rooted: bool, comps: seq<string>)
    requires comps != []
    ensures Text.Join((if rooted then [""] else []) + comps, SLASH) == Render(rooted, comps)
  {
    if rooted {
      assert ([""] + comps)[1..] == comps;
      assert "" + [SLASH] + Text.Join(comps, SLASH) == [SLASH] + Text.Join(comps, SLASH);
    } else {
      assert [] + comps == comps;
    }
  }

  /** decomposePath inverts mgmtPathFromBasePath exactly for the bases that do
      not clean to "." or "/", and then returns the cleaned base. */
  lemma DecomposeInverts(base: string, name: string)
    requires IsComponent(name)
    ensures DecomposePath(MgmtPathFromBasePath(base, name)) == Success((Clean(base), name))
       <==> Clean(base) != "." && Clean(base) != "/"
  {
    CleanRendered(base);
    DecomposeRendered(base, name);
    if Components(base) != [] {
      FrontIsClean(Rooted(base), Components(base));
    }
  }

  /** Regenerating from the recovered base lands on the same paths. */
  lemma CleaningKeepsPaths(base: string, name: string)
    requires IsComponent(name) && Clean(base) != "." && Clean(base) != "/"
    ensures MgmtPathFromBasePath(Clean(base), name) == MgmtPathFromBasePath(base, name)
    ensures ClusterPathFromBasePath(Clean(base), name) == ClusterPathFromBasePath(base, name)
  {
    CleanRendered(base);
    ComponentsAreNormal(base);
    RenderSplits(Components(base), Rooted(base));
    MgmtPathRendered(base, name);
    MgmtPathRendered(Clean(base), name);
    JoinComponent(base, name);
    JoinComponent(Clean(base), name);
  }
}
