/** The session workspace's path mapping (runtime/src/workspace.ts): user-facing paths to disk
    and back, with `.claude` and `.venv` redirected to per-agent directories. */
module Workspace {
  import opened Common
  import opened Paths

  datatype PathError = EscapesBase | AgentRequired

  /** Disk directories of one session and agent, as segments. */
  datatype Bases = Bases(shared: seq<string>, claude: seq<string>, venv: seq<string>)

  /** The part of the virtual layout a path belongs to. */
  datatype Mount = SharedMount | ClaudeMount | VenvMount

  datatype ResolvedPath = ResolvedPath(diskBase: seq<string>, mount: Mount, abs: seq<string>)

  /** The first segment that selects a mount; any other selects the shared directory. */
  function DirName(m: Mount): string {
    match m
    case SharedMount => ""
    case ClaudeMount => ".claude"
    case VenvMount => ".venv"
  }

  /** The prefix of a mount's paths in the virtual layout. */
  function VirtualBase(m: Mount): string {
    "/" + DirName(m)
  }

  function MountOf(head: string): Mount {
    if head == ".claude" then ClaudeMount else if head == ".venv" then VenvMount else SharedMount
  }

  function DiskBase(b: Bases, m: Mount): seq<string> {
    match m
    case SharedMount => b.shared
    case ClaudeMount => b.claude
    case VenvMount => b.venv
  }

  ghost predicate BasesOk(b: Bases) {
    && AllPlain(b.shared) && AllPlain(b.claude) && AllPlain(b.venv)
    && b.shared != [] && b.claude != [] && b.venv != []
  }

  /** The path without its leading slashes. */
  function StripSlashes(s: string): (t: string)
    ensures t == "" || t[0] != '/'
  {
    if s != "" && s[0] == '/' then StripSlashes(s[1..]) else s
  }

  /** resolveInsideBase: the check compares path strings, as the source does. */
  function ResolveInsideBase(base: seq<string>, rel: string): Result<seq<string>, PathError> {
    var joined := Walk(base, Split(StripSlashes(rel)));
    if Render(joined) != Render(base) && !(Render(base) + "/" <= Render(joined)) then Failure(EscapesBase)
    else Success(joined)
  }

  /** The part of a path before its first slash, and the part after it. */
  function Head(s: string): string {
    Split(s)[0]
  }

  function Tail(s: string): string {
    if s == "" then "" else if s[0] == '/' then s[1..] else Tail(s[1..])
  }

  function ResolvePath(b: Bases, agentGiven: bool, rel: string): Result<ResolvedPath, PathError> {
    var stripped := StripSlashes(rel);
    var mount, tail := MountOf(Head(stripped)), Tail(stripped);
    if mount != SharedMount && !agentGiven then Failure(AgentRequired)
    else
      var diskBase := DiskBase(b, mount);
      match
        if mount == SharedMount then ResolveInsideBase(diskBase, stripped)
        else if tail != "" then ResolveInsideBase(diskBase, tail)
        else Success(diskBase)
      case Success(abs) => Success(ResolvedPath(diskBase, mount, abs))
      case Failure(e) => Failure(e)
  }

  function NonEmpty(parts: seq<string>): seq<string> {
    if parts == [] then []
    else (if parts[0] == "" then [] else [parts[0]]) + NonEmpty(parts[1..])
  }

  /** path.relative for a path at or below its base. */
  function Relative(base: seq<string>, abs: seq<string>): string
    requires base <= abs
  {
    Join(abs[|base|..])
  }

  function ToVirtualPath(r: ResolvedPath): string
    requires r.diskBase <= r.abs
  {
    var segments := NonEmpty(Split(Relative(r.diskBase, r.abs)));
    if r.mount == SharedMount then
      if segments == [] then "/" else "/" + Join(segments)
    else if segments == [] then VirtualBase(r.mount)
    else VirtualBase(r.mount) + "/" + Join(segments)
  }

  // ---------- containment ----------

  /** The check accepts exactly the paths that normalise to the base or below it, counted in
      whole segments. */
  lemma InsideBaseExactly(base: seq<string>, rel: string)
    requires AllPlain(base) && base != []
    ensures var path := Walk(base, Split(StripSlashes(rel)));
            ResolveInsideBase(base, rel) == if base <= path then Success(path) else Failure(EscapesBase)
  {
    WalkPlain(base, Split(StripSlashes(rel)));
    InsideIffPrefix(base, Walk(base, Split(StripSlashes(rel))));
  }

  ghost predicate ResolvedOk(b: Bases, r: ResolvedPath) {
    r.diskBase == DiskBase(b, r.mount) && r.diskBase <= r.abs && AllPlain(r.abs)
  }

  /** Every accepted path is its base directory or a descendant of it. */
  lemma AcceptedStaysInside(b: Bases, agentGiven: bool, rel: string)
    requires BasesOk(b) && ResolvePath(b, agentGiven, rel).Success?
    ensures ResolvedOk(b, ResolvePath(b, agentGiven, rel).value)
  {
    var stripped := StripSlashes(rel);
    var mount := MountOf(Head(stripped));
    var below := if mount == SharedMount then stripped else Tail(stripped);
    InsideBaseExactly(DiskBase(b, mount), below);
    WalkPlain(DiskBase(b, mount), Split(StripSlashes(below)));
  }

  // ---------- where a request lands ----------

  function Slashes(n: nat): string {
    seq(n, _ => '/')
  }

  /** The parts of a request: its leading slashes, and the segments after them. */
  ghost predicate Request(rel: string, leading: nat, parts: seq<string>) {
    && rel == Slashes(leading) + Join(parts) && parts != [] && SlashFree(parts)
    && (parts[0] == "" ==> |parts| == 1)
  }

  lemma {:induction false} SlashesStripped(s: string) returns (n: nat)
    ensures s == Slashes(n) + StripSlashes(s)
  {
    if s != "" && s[0] == '/' {
      n := SlashesStripped(s[1..]);
      n := n + 1;
      assert s == "/" + s[1..] && Slashes(n) == "/" + Slashes(n - 1);
    } else {
      n := 0;
    }
  }

  /** Every string is a request. */
  lemma EveryRequest(rel: string) returns (leading: nat, parts: seq<string>)
    ensures Request(rel, leading, parts)
  {
    leading := SlashesStripped(rel);
    parts := Split(StripSlashes(rel));
    JoinSplit(StripSlashes(rel));
    if |parts| > 1 {
      assert Join(parts)[|parts[0]|] == '/';
    }
  }

  lemma {:induction false} StripsLeading(n: nat, s: string)
    requires s == "" || s[0] != '/'
    ensures StripSlashes(Slashes(n) + s) == s
  {
    var all := Slashes(n) + s;
    if n == 0 {
      assert all == s;
    } else {
      assert all[1..] == Slashes(n - 1) + s;
      StripsLeading(n - 1, s);
    }
  }

  lemma {:induction false} WalkStripped(at: seq<string>, s: string)
    ensures Walk(at, Split(StripSlashes(s))) == Walk(at, Split(s))
  {
    if s != "" && s[0] == '/' {
      WalkStripped(at, s[1..]);
      WalkRules(at, "", Split(s[1..]));
    }
  }

  /** Below a base, or refused for leaving it. */
  ghost predicate Lands(r: Result<ResolvedPath, PathError>, base: seq<string>, mount: Mount, parts: seq<string>) {
    var path := Walk(base, parts);
    r == if base <= path then Success(ResolvedPath(base, mount, path)) else Failure(EscapesBase)
  }

  lemma HeadAndTail(parts: seq<string>)
    requires parts != [] && SlashFree(parts)
    ensures Head(Join(parts)) == parts[0] && Tail(Join(parts)) == Join(parts[1..])
  {
    if |parts| > 1 {
      HeadTailOf(parts[0], Join(parts[1..]));
    } else {
      HeadTailOf(parts[0], "");
    }
  }

  lemma LandsBelow(b: Bases, agentGiven: bool, parts: seq<string>, mount: Mount)
    requires BasesOk(b) && parts != [] && SlashFree(parts) && agentGiven
    requires mount == MountOf(parts[0]) && mount != SharedMount && StripSlashes(Join(parts)) == Join(parts)
    ensures Lands(ResolvePath(b, agentGiven, Join(parts)), DiskBase(b, mount), mount, parts[1..])
  {
    var base, rest := DiskBase(b, mount), parts[1..];
    HeadAndTail(parts);
    if rest != [] {
      SplitJoin(rest);
      InsideBaseExactly(base, Join(rest));
      WalkStripped(base, Join(rest));
      if Join(rest) == "" {
        assert Walk(base, [""]) == base;
      }
    }
  }

  /** Where a request lands: one whose first segment is ".claude" or ".venv" needs an agent, and its
      other segments are walked in that agent's directory of that name; any other is walked, with all
      its segments, in the shared directory. A walk that ends outside is refused. */
  lemma RequestLands(b: Bases, agentGiven: bool, rel: string, leading: nat, parts: seq<string>)
    requires BasesOk(b) && Request(rel, leading, parts)
    ensures var r := ResolvePath(b, agentGiven, rel);
      if parts[0] != ".claude" && parts[0] != ".venv" then Lands(r, b.shared, SharedMount, parts)
      else if !agentGiven then r == Failure(AgentRequired)
      else if parts[0] == ".claude" then Lands(r, b.claude, ClaudeMount, parts[1..])
      else Lands(r, b.venv, VenvMount, parts[1..])
  {
    var joined := Join(parts);
    assert joined == "" || joined[0] != '/' by {
      if parts[0] != "" { assert joined[0] == parts[0][0] && parts[0][0] in parts[0]; }
    }
    StripsLeading(leading, joined);
    StripsLeading(0, joined);
    assert Slashes(0) + joined == joined;
    assert ResolvePath(b, agentGiven, rel) == ResolvePath(b, agentGiven, joined);
    HeadAndTail(parts);
    SplitJoin(parts);
    if MountOf(parts[0]) == SharedMount {
      InsideBaseExactly(b.shared, joined);
    } else if agentGiven {
      LandsBelow(b, agentGiven, parts, MountOf(parts[0]));
    }
  }

  // ---------- there and back ----------

  /** The virtual path of an accepted one: "/" and the segments below its base, after the name of the
      directory it was redirected to. */
  lemma VirtualPathIs(b: Bases, r: ResolvedPath)
    requires ResolvedOk(b, r)
    ensures var below := r.abs[|r.diskBase|..];
      ToVirtualPath(r) == "/" + match r.mount
                                case SharedMount => Join(below)
                                case ClaudeMount => Join([".claude"] + below)
                                case VenvMount => Join([".venv"] + below)
  {
    var below := r.abs[|r.diskBase|..];
    VirtualSegments(r);
    assert ([DirName(r.mount)] + below)[1..] == below;
    assert below == [] ==> Join(below) == "" && "/" + "" == "/";
  }

  lemma {:induction false} NonEmptyPlain(parts: seq<string>)
    requires AllPlain(parts)
    ensures NonEmpty(parts) == parts
  {
    if parts != [] {
      assert Plain(parts[0]);
      NonEmptyPlain(parts[1..]);
    }
  }

  /** The virtual path spells out the segments below the base. */
  lemma VirtualSegments(r: ResolvedPath)
    requires r.diskBase <= r.abs && AllPlain(r.abs)
    ensures var below := r.abs[|r.diskBase|..];
            && AllPlain(below)
            && NonEmpty(Split(Relative(r.diskBase, r.abs))) == below
  {
    var below := r.abs[|r.diskBase|..];
    assert forall k :: 0 <= k < |below| ==> below[k] == r.abs[|r.diskBase| + k];
    if below == [] {
      assert Split("") == [""];
      assert NonEmpty([""]) == [];
    } else {
      PlainSlashFree(below);
      SplitJoin(below);
      NonEmptyPlain(below);
    }
  }

  /** Head and tail of a joined path are its first segment and the rest. */
  lemma {:induction false} HeadTailOf(first: string, rest: string)
    requires !HasSlash(first)
    ensures Head(first) == first && Tail(first) == ""
    ensures Head(first + "/" + rest) == first && Tail(first + "/" + rest) == rest
  {
    SplitWhole(first);
    SplitFirst(first, rest);
    TailOf(first, rest);
  }

  lemma {:induction false} TailOf(first: string, rest: string)
    requires !HasSlash(first)
    ensures Tail(first) == "" && Tail(first + "/" + rest) == rest
  {
    if first == "" {
      assert (first + "/" + rest)[1..] == rest;
    } else {
      assert first[0] in first;
      TailOf(first[1..], rest);
      assert (first + "/" + rest)[1..] == first[1..] + "/" + rest;
    }
  }

  /** Resolving joined plain segments inside a base appends them. */
  lemma ResolvesBack(base: seq<string>, below: seq<string>)
    requires AllPlain(base) && base != [] && AllPlain(below) && below != []
    ensures ResolveInsideBase(base, Join(below)) == Success(base + below)
  {
    JoinNonEmpty(below);
    InsideBaseExactly(base, Join(below));
    PlainSlashFree(below);
    SplitJoin(below);
    WalkAppends(base, below);
  }

  /** A path of the shared directory that lies under an entry named like a redirected prefix. */
  ghost predicate Shadowed(r: ResolvedPath)
    requires r.diskBase <= r.abs
  {
    r.mount == SharedMount && |r.abs| > |r.diskBase| && r.abs[|r.diskBase|] in {".claude", ".venv"}
  }

  lemma {:induction false} StripSlashesOnce(s: string)
    requires s == "" || s[0] != '/'
    ensures StripSlashes(s) == s && StripSlashes("/" + s) == s
  {
    assert ("/" + s)[1..] == s;
  }

  lemma SharedRoundTrip(b: Bases, agentGiven: bool, r: ResolvedPath)
    requires BasesOk(b) && ResolvedOk(b, r) && r.mount == SharedMount
    ensures ResolvePath(b, agentGiven, ToVirtualPath(r)) == Success(r) <==> !Shadowed(r)
  {
    var below := r.abs[|r.diskBase|..];
    VirtualSegments(r);
    assert r.abs == r.diskBase + below;
    if below == [] {
      StripSlashesOnce("");
      assert "/" + "" == "/";
      InsideBaseExactly(b.shared, "");
      assert Split("") == [""];
      assert Walk(b.shared, [""]) == b.shared;
    } else {
      JoinNonEmpty(below);
      StripSlashesOnce(Join(below));
      PlainSlashFree(below);
      SplitJoin(below);
      ResolvesBack(b.shared, below);
      assert Head(Join(below)) == r.abs[|r.diskBase|];
    }
    if !Shadowed(r) {
      var back := ResolvePath(b, agentGiven, ToVirtualPath(r));
      assert back.Success? && back.value.abs == r.abs;
      assert back.value == r;
    }
  }

  /** What a path written under a mount's own name resolves to. */
  lemma ResolveUnderMount(b: Bases, m: Mount, name: string, below: seq<string>)
    requires BasesOk(b) && m != SharedMount && MountOf(name) == m
    requires !HasSlash(name) && name != "" && AllPlain(below)
    ensures below == [] ==> ResolvePath(b, true, "/" + name) == Success(ResolvedPath(DiskBase(b, m), m, DiskBase(b, m)))
    ensures below != [] ==> ResolvePath(b, true, "/" + name + "/" + Join(below))
                            == Success(ResolvedPath(DiskBase(b, m), m, DiskBase(b, m) + below))
  {
    assert name[0] in name;
    HeadTailOf(name, Join(below));
    if below == [] {
      StripSlashesOnce(name);
    } else {
      var v := name + "/" + Join(below);
      assert "/" + name + "/" + Join(below) == "/" + v;
      StripSlashesOnce(v);
      JoinNonEmpty(below);
      ResolvesBack(DiskBase(b, m), below);
    }
  }

  lemma RedirectedRoundTrip(b: Bases, r: ResolvedPath)
    requires BasesOk(b) && ResolvedOk(b, r) && r.mount != SharedMount
    ensures ResolvePath(b, true, ToVirtualPath(r)) == Success(r)
  {
    var below := r.abs[|r.diskBase|..];
    VirtualSegments(r);
    assert r.abs == r.diskBase + below;
    var name := DirName(r.mount);
    ResolveUnderMount(b, r.mount, name, below);
    assert ToVirtualPath(r) == if below == [] then "/" + name else "/" + name + "/" + Join(below);
    var back := ResolvePath(b, true, ToVirtualPath(r));
    assert back.Success? && back.value.abs == r.abs;
    assert back.value == r;
  }

  /** Mapping an accepted path to its virtual form and back gives the same base and disk path,
      except exactly when a path not written under a redirected prefix normalised into one. */
  lemma RoundTripExactly(b: Bases, agentGiven: bool, rel: string)
    requires BasesOk(b) && ResolvePath(b, agentGiven, rel).Success?
    ensures ResolvedOk(b, ResolvePath(b, agentGiven, rel).value)
    ensures var r := ResolvePath(b, agentGiven, rel).value;
            ResolvePath(b, agentGiven, ToVirtualPath(r)) == Success(r) <==> !Shadowed(r)
  {
    var r := ResolvePath(b, agentGiven, rel).value;
    AcceptedStaysInside(b, agentGiven, rel);
    if r.mount == SharedMount {
      SharedRoundTrip(b, agentGiven, r);
    } else {
      RedirectedRoundTrip(b, r);
    }
  }

  /** The exception occurs: "x/../.claude" stays in the shared directory, but its virtual path
      leads to the agent's own. */
  lemma ShadowedPathExists(b: Bases, name: string)
    requires BasesOk(b) && name == DirName(ClaudeMount)
    ensures var r := ResolvePath(b, true, "x/../" + name);
            r.Success? && r.value == ResolvedPath(b.shared, SharedMount, b.shared + [name]) && Shadowed(r.value)
  {
    var rest := ".." + "/" + name;
    var rel := "x" + "/" + rest;
    assert rel == "x/../" + name;
    PopThenPush(b.shared, name, rel, rest);
    StripSlashesOnce(rel);
    InsideBaseExactly(b.shared, rel);
  }

  lemma PopThenPush(at: seq<string>, name: string, rel: string, rest: string)
    requires Plain(name) && rest == ".." + "/" + name && rel == "x" + "/" + rest
    ensures Head(rel) == "x" && Walk(at, Split(rel)) == at + [name]
  {
    SplitFirst("x", rest);
    SplitFirst("..", name);
    SplitWhole(name);
    var parts := ["x"] + ([".."] + [name]);
    assert Split(rel) == parts;
    assert parts[1..] == [".."] + [name] && ([".."] + [name])[1..] == [name];
    assert (at + ["x"])[..|at + ["x"]| - 1] == at;
    WalkAppends(at, [name]);
  }
}
