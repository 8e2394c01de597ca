/** Lexical confinement of file requests to the working directory. */
module Confine {
  import opened Records

  datatype Component = RootDir | CurDir | ParentDir | Normal(name: string)

  /** A path buffer: absolute or not, and its names. */
  datatype Path = Path(absolute: bool, names: seq<string>)

  datatype Confined = Ok(path: Path) | PermissionDenied | NoRoot

  predicate PlainName(name: string) { name != "" && name != "." && name != ".." }

  predicate PlainNames(names: seq<string>) { forall i :: 0 <= i < |names| ==> PlainName(names[i]) }

  /** What path parsing yields: names are never empty, `.` or `..`. */
  predicate Parsed(cs: seq<Component>) {
    forall i :: 0 <= i < |cs| ==> cs[i].Normal? ==> PlainName(cs[i].name)
  }

  predicate IsAbsolute(cs: seq<Component>) { cs != [] && cs[0].RootDir? }

  function ComponentsOf(p: Path): seq<Component> {
    (if p.absolute then [RootDir] else []) + seq(|p.names|, i requires 0 <= i < |p.names| => Normal(p.names[i]))
  }

  function Joined(root: seq<string>, cs: seq<Component>): seq<Component> {
    if IsAbsolute(cs) then cs else ComponentsOf(Path(true, root)) + cs
  }

  predicate StartsWith(p: Path, root: Path) { p.absolute == root.absolute && root.names <= p.names }

  // ---------------------------------------------------------------- the loop

  function Push(out: Path, c: Component): Path {
    match c
    case RootDir => Path(true, [])
    case CurDir => out
    case ParentDir => if out.names == [] then out else out.(names := out.names[..|out.names| - 1])
    case Normal(name) => out.(names := out.names + [name])
  }

  /** The buffer after pushing components one by one. */
  function Walk(cs: seq<Component>): Path {
    if cs == [] then Path(false, []) else Push(Walk(cs[..|cs| - 1]), cs[|cs| - 1])
  }

  /** `root` is None when the working directory cannot be resolved. Succeeds exactly when the right-to-left
      reading of the joined path lies inside the root, and then returns that reading. */
  method ConfinedPath(root: Option<seq<string>>, cs: seq<Component>) returns (r: Confined)
    requires Parsed(cs) && (root.Some? ==> PlainNames(root.value))
    ensures r.NoRoot? <==> root.None?
    ensures root.Some? ==>
              (r.Ok? <==> StartsWith(Resolve(Joined(root.value, cs), 0), Path(true, root.value)))
    ensures r.Ok? ==> r.path == Resolve(Joined(root.value, cs), 0)
    ensures r.Ok? ==> r.path.absolute && PlainNames(r.path.names) && root.value <= r.path.names
  {
    if root.None? { return NoRoot; }
    var joined := Joined(root.value, cs);
    var out := Path(false, []);
    for i := 0 to |joined|
      invariant out == Walk(joined[..i])
    {
      assert joined[..i + 1][..i] == joined[..i];
      match joined[i] {
        case RootDir => out := Path(true, []);
        case CurDir =>
        case ParentDir =>
          if out.names != [] { out := out.(names := out.names[..|out.names| - 1]); }
        case Normal(name) => out := out.(names := out.names + [name]);
      }
    }
    assert joined[..|joined|] == joined;
    WalkIsResolve(joined);
    JoinedParsed(root.value, cs);
    WalkPlain(joined);
    if !StartsWith(out, Path(true, root.value)) { return PermissionDenied; }
    r := Ok(out);
  }

  // ---------------------------------------------------------------- an independent reading, from the right

  /** Reads components from the last to the first: a `..` cancels the next name met, a root ends the reading. */
  function Resolve(cs: seq<Component>, cancel: nat): Path {
    if cs == [] then Path(false, [])
    else
      var before := cs[..|cs| - 1];
      match cs[|cs| - 1]
      case RootDir => Path(true, [])
      case CurDir => Resolve(before, cancel)
      case ParentDir => Resolve(before, cancel + 1)
      case Normal(name) =>
        if cancel > 0 then Resolve(before, cancel - 1)
        else var p := Resolve(before, 0); p.(names := p.names + [name])
  }

  function Shortened(p: Path, k: nat): Path {
    if k >= |p.names| then p.(names := []) else p.(names := p.names[..|p.names| - k])
  }

  lemma ShortenedParent(p: Path, k: nat)
    ensures Shortened(Push(p, ParentDir), k) == Shortened(p, k + 1)
  {
  }

  lemma ShortenedNormal(p: Path, name: string, k: nat)
    ensures k > 0 ==> Shortened(Push(p, Normal(name)), k) == Shortened(p, k - 1)
    ensures k == 0 ==> Shortened(Push(p, Normal(name)), 0) == Push(Shortened(p, 0), Normal(name))
  {
  }

  lemma {:induction false} ResolveShortens(cs: seq<Component>, k: nat)
    ensures Resolve(cs, k) == Shortened(Walk(cs), k)
    decreases |cs|
  {
    if cs != [] {
      var before, last := cs[..|cs| - 1], cs[|cs| - 1];
      match last
      case RootDir =>
      case CurDir => ResolveShortens(before, k);
      case ParentDir =>
        ResolveShortens(before, k + 1);
        ShortenedParent(Walk(before), k);
      case Normal(name) =>
        ResolveShortens(before, if k > 0 then k - 1 else 0);
        ShortenedNormal(Walk(before), name, k);
    }
  }

  /** The stack loop and the right-to-left reading agree on every component sequence. */
  lemma WalkIsResolve(cs: seq<Component>)
    ensures Walk(cs) == Resolve(cs, 0)
  {
    ResolveShortens(cs, 0);
  }

  // ---------------------------------------------------------------- what comes out

  lemma JoinedParsed(root: seq<string>, cs: seq<Component>)
    requires PlainNames(root) && Parsed(cs)
    ensures Parsed(Joined(root, cs))
  {
    var r := ComponentsOf(Path(true, root));
    forall i | 0 <= i < |r| && r[i].Normal? ensures PlainName(r[i].name) {
      assert r[i] == Normal(root[i - 1]);
    }
  }

  lemma {:induction false} WalkPlain(cs: seq<Component>)
    requires Parsed(cs)
    ensures PlainNames(Walk(cs).names)
  {
    if cs != [] { WalkPlain(cs[..|cs| - 1]); }
  }

  lemma {:induction false} WalkNames(p: Path)
    ensures Walk(ComponentsOf(p)) == p
    decreases |p.names|
  {
    var cs := ComponentsOf(p);
    if p.names == [] {
      if p.absolute { assert cs == [RootDir] && cs[..0] == []; }
    } else {
      var q := p.(names := p.names[..|p.names| - 1]);
      WalkNames(q);
      assert cs[..|cs| - 1] == ComponentsOf(q);
      assert p.names == q.names + [p.names[|p.names| - 1]];
    }
  }

  /** The outcome as a function of the root and the components. */
  function Outcome(root: seq<string>, cs: seq<Component>): Confined {
    var p := Resolve(Joined(root, cs), 0);
    if StartsWith(p, Path(true, root)) then Ok(p) else PermissionDenied
  }

  /** Asking again for a confined path changes nothing. */
  lemma ConfinedIsFixedPoint(root: seq<string>, cs: seq<Component>)
    requires Outcome(root, cs).Ok?
    ensures Outcome(root, ComponentsOf(Outcome(root, cs).path)) == Outcome(root, cs)
  {
    var p := Outcome(root, cs).path;
    WalkNames(p);
    WalkIsResolve(ComponentsOf(p));
  }

  /** Every path inside the root can be asked for: the confined paths are exactly the paths under the root. */
  lemma EveryInsidePathIsReached(root: seq<string>, names: seq<string>)
    ensures Outcome(root, ComponentsOf(Path(true, names))).Ok? <==> root <= names
  {
    WalkNames(Path(true, names));
    WalkIsResolve(ComponentsOf(Path(true, names)));
  }

  lemma {:induction false} WalkAppend(a: seq<Component>, b: seq<Component>, k: nat)
    requires forall i :: 0 <= i < |b| ==> b[i].ParentDir?
    requires k == |b|
    ensures Walk(a + b) == Shortened(Walk(a), k)
  {
    if b == [] {
      assert a + b == a;
    } else {
      var c := a + b;
      assert c[..|c| - 1] == a + b[..k - 1];
      WalkAppend(a, b[..k - 1], k - 1);
    }
  }

  /** Climbing is never confined: any positive number of `..` from a non-empty root is refused. */
  lemma ClimbingIsRefused(root: seq<string>, ups: seq<Component>)
    requires root != [] && ups != [] && forall i :: 0 <= i < |ups| ==> ups[i].ParentDir?
    ensures Outcome(root, ups) == PermissionDenied
  {
    var r := ComponentsOf(Path(true, root));
    WalkNames(Path(true, root));
    WalkAppend(r, ups, |ups|);
    WalkIsResolve(r + ups);
  }

  lemma {:induction false} WalkNormals(a: seq<Component>, names: seq<string>)
    ensures Walk(a + ComponentsOf(Path(false, names))) == Walk(a).(names := Walk(a).names + names)
    decreases |names|
  {
    var b := ComponentsOf(Path(false, names));
    if names == [] {
      assert a + b == a;
    } else {
      var n := |names| - 1;
      WalkNormals(a, names[..n]);
      assert (a + b)[..|a + b| - 1] == a + ComponentsOf(Path(false, names[..n]));
      assert names == names[..n] + [names[n]];
    }
  }

  /** A relative path of names is what stands under the root. */
  lemma RelativeNamesGoUnderRoot(root: seq<string>, names: seq<string>)
    ensures Outcome(root, ComponentsOf(Path(false, names))) == Ok(Path(true, root + names))
  {
    var cs := ComponentsOf(Path(false, names));
    var r := ComponentsOf(Path(true, root));
    WalkNames(Path(true, root));
    WalkNormals(r, names);
    WalkIsResolve(r + cs);
    assert root <= root + names;
  }

  /** A dot changes nothing, a name and then two dots cancel, and a root starts over, wherever they stand. */
  lemma WalkMeaning(a: seq<Component>, name: string)
    ensures Walk(a + [CurDir]) == Walk(a)
    ensures Walk(a + [Normal(name), ParentDir]) == Walk(a)
    ensures Walk(a + [RootDir]) == Path(true, [])
  {
    assert (a + [CurDir])[..|a|] == a && (a + [RootDir])[..|a|] == a;
    var b := a + [Normal(name), ParentDir];
    assert b[..|b| - 1] == a + [Normal(name)] && (a + [Normal(name)])[..|a|] == a;
  }
}
