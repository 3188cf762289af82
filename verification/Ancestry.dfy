/** The trusted-ancestry walk: corvex resolves the directory of a file itself,
    judging every directory and symbolic link it passes (src/config.rs). */
module Ancestry {
  import opened Text
  import opened AclText
  import opened FileSystem

  /** What the judgement reads besides the file system: the effective uid and
      the supplementary members each known group lists. */
  datatype System = System(euid: nat, members: map<nat, set<nat>>)

  datatype Refusal = Missing | NotDirectory | ForeignOwner | SharedWrite | BadAcl(acl: AclError) | ForeignLink
    | LinkLimit

  const MAX_ANCESTRY_SYMLINKS: nat := 32

  /** The write bit of the group grants nothing: a group numbered after the
      account, with no listed member, on a directory with no POSIX ACL. */
  predicate GroupWriteIsPrivate(sys: System, group: nat, posixAcl: bool) {
    group == sys.euid && !posixAcl && group in sys.members && sys.members[group] == {}
  }

  /** `untrusted_ancestor_rejection` past its test for a directory. */
  function AncestorRejection(sys: System, owner: nat, mode: Mode, groupTrusted: bool): Option<Refusal> {
    if owner != sys.euid && owner != 0 then Some(ForeignOwner)
    else if !mode.sticky && (mode.worldWrite || (mode.groupWrite && !groupTrusted)) then Some(SharedWrite)
    else None
  }

  function LinkRejection(sys: System, owner: nat): Option<Refusal> {
    if owner == sys.euid || owner == 0 then None else Some(ForeignLink)
  }

  function DirectoryRejection(sys: System, node: Node): Option<Refusal>
    requires !node.Link?
  {
    if node.File? then Some(NotDirectory)
    else
      var groupTrusted := node.mode.groupWrite && GroupWriteIsPrivate(sys, node.group, node.posixAcl);
      var numbers := AncestorRejection(sys, node.owner, node.mode, groupTrusted);
      if numbers.Some? then numbers
      else if node.acl.None? then None
      else match AclRejection(RenderAcl(node.acl.value), sys.euid)
        case Some(e) => Some(BadAcl(e))
        case None => None
  }

  function NodeRejection(sys: System, node: Node): Option<Refusal> {
    if node.Link? then LinkRejection(sys, node.owner) else DirectoryRejection(sys, node)
  }

  predicate Trusted(fs: Fs, sys: System, i: Ino) {
    i in fs.nodes && NodeRejection(sys, fs.nodes[i]).None?
  }

  datatype Verdict = Accept(ino: Ino, linksLeft: nat) | Refuse(why: Refusal)

  /** Pathname resolution that stops at the first node it does not trust. */
  function Judge(fs: Fs, sys: System, cur: Ino, path: Path, links: nat): Verdict
    decreases links, |path|
  {
    if path == [] then Accept(cur, links)
    else if path[0] == RootDir then Judge(fs, sys, fs.root, path[1..], links)
    else if !IsDir(fs, cur) then Refuse(NotDirectory)
    else match path[0]
      case CurDir => Judge(fs, sys, cur, path[1..], links)
      case ParentDir => Judge(fs, sys, fs.nodes[cur].parent, path[1..], links)
      case Normal(n) =>
        if !HasEntry(fs, cur, n) || Entry(fs, cur, n) !in fs.nodes then Refuse(Missing)
        else
          var node := fs.nodes[Entry(fs, cur, n)];
          if NodeRejection(sys, node).Some? then Refuse(NodeRejection(sys, node).value)
          else match node
            case Link(_, target, _) =>
              if links == 0 then Refuse(LinkLimit) else Judge(fs, sys, cur, target + path[1..], links - 1)
            case _ => Judge(fs, sys, Entry(fs, cur, n), path[1..], links)
  }

  /** Accepting is resolving within the link budget through trusted nodes only. */
  lemma {:induction false} AcceptIsTrustedResolution(fs: Fs, sys: System, cur: Ino, path: Path, links: nat, i: Ino,
      left: nat)
    ensures Judge(fs, sys, cur, path, links) == Accept(i, left)
            <==> Resolve(fs, cur, path, links) == Reached(i, left)
                 && forall x :: x in Passed(fs, cur, path, links) ==> Trusted(fs, sys, x)
    decreases links, |path|
  {
    hide AclRejection;
    if path != [] {
      if path[0] == RootDir {
        AcceptIsTrustedResolution(fs, sys, fs.root, path[1..], links, i, left);
      } else if IsDir(fs, cur) {
        match path[0]
        case CurDir => AcceptIsTrustedResolution(fs, sys, cur, path[1..], links, i, left);
        case ParentDir => AcceptIsTrustedResolution(fs, sys, fs.nodes[cur].parent, path[1..], links, i, left);
        case Normal(n) =>
          if HasEntry(fs, cur, n) && Entry(fs, cur, n) in fs.nodes {
            var x := Entry(fs, cur, n);
            assert x in Passed(fs, cur, path, links);
            if fs.nodes[x].Link? {
              if links > 0 {
                var onward := fs.nodes[x].target + path[1..];
                AcceptIsTrustedResolution(fs, sys, cur, onward, links - 1, i, left);
                assert Passed(fs, cur, path, links) == {x} + Passed(fs, cur, onward, links - 1);
                assert Resolve(fs, cur, path, links) == Resolve(fs, cur, onward, links - 1);
                assert Judge(fs, sys, cur, path, links)
                       == if Trusted(fs, sys, x) then Judge(fs, sys, cur, onward, links - 1)
                          else Refuse(NodeRejection(sys, fs.nodes[x]).value);
              } else {
                assert Resolve(fs, cur, path, links) == TooManyLinks;
              }
            } else {
              AcceptIsTrustedResolution(fs, sys, x, path[1..], links, i, left);
              assert Passed(fs, cur, path, links) == {x} + Passed(fs, x, path[1..], links);
              assert Resolve(fs, cur, path, links) == Resolve(fs, x, path[1..], links);
              assert Judge(fs, sys, cur, path, links)
                     == if Trusted(fs, sys, x) then Judge(fs, sys, x, path[1..], links)
                        else Refuse(NodeRejection(sys, fs.nodes[x]).value);
            }
          }
      }
    }
  }

  /** Judging a longer path is judging its first part, then the rest from there. */
  lemma {:induction false} JudgeComposes(fs: Fs, sys: System, cur: Ino, first: Path, rest: Path, links: nat)
    ensures Judge(fs, sys, cur, first + rest, links)
            == match Judge(fs, sys, cur, first, links)
               case Accept(i, left) => Judge(fs, sys, i, rest, left)
               case Refuse(e) => Refuse(e)
    decreases links, |first|
  {
    hide AclRejection;
    if first == [] {
      assert first + rest == rest;
    } else {
      assert (first + rest)[1..] == first[1..] + rest;
      if first[0] == RootDir {
        JudgeComposes(fs, sys, fs.root, first[1..], rest, links);
      } else if IsDir(fs, cur) {
        match first[0]
        case CurDir => JudgeComposes(fs, sys, cur, first[1..], rest, links);
        case ParentDir => JudgeComposes(fs, sys, fs.nodes[cur].parent, first[1..], rest, links);
        case Normal(n) =>
          if HasEntry(fs, cur, n) && Entry(fs, cur, n) in fs.nodes {
            match fs.nodes[Entry(fs, cur, n)]
            case Link(_, target, _) =>
              if links > 0 {
                assert target + (first[1..] + rest) == (target + first[1..]) + rest;
                JudgeComposes(fs, sys, cur, target + first[1..], rest, links - 1);
              }
            case _ => JudgeComposes(fs, sys, Entry(fs, cur, n), first[1..], rest, links);
          }
      }
    }
  }

  /** `names` leads from the root to directory `c` through trusted directories,
      with no link and no `..` on the way. */
  ghost predicate TrustedChain(fs: Fs, sys: System, names: seq<string>, c: Ino)
    decreases |names|
  {
    IsDir(fs, c) && Trusted(fs, sys, c)
    && if names == [] then c == fs.root
       else
         var d := fs.nodes[c].parent;
         TrustedChain(fs, sys, names[..|names| - 1], d)
         && HasEntry(fs, d, names[|names| - 1]) && Entry(fs, d, names[|names| - 1]) == c
  }

  lemma ToPathStep(names: seq<string>, rest: Path)
    requires names != []
    ensures ToPath(names) + rest == ToPath(names[..|names| - 1]) + ([Normal(names[|names| - 1])] + rest)
  {
  }

  /** Walking a link-free trusted path again is the identity: it costs no link
      and ends where it ended before. */
  lemma {:induction false} RewalkIsIdentity(fs: Fs, sys: System, names: seq<string>, c: Ino, rest: Path, links: nat)
    requires TrustedChain(fs, sys, names, c)
    ensures Judge(fs, sys, fs.root, ToPath(names) + rest, links) == Judge(fs, sys, c, rest, links)
    ensures Resolve(fs, fs.root, ToPath(names) + rest, links) == Resolve(fs, c, rest, links)
    decreases |names|
  {
    hide AclRejection;
    if names == [] {
      assert (ToPath(names) + rest)[1..] == rest;
    } else {
      var last := names[|names| - 1];
      var more := [Normal(last)] + rest;
      RewalkIsIdentity(fs, sys, names[..|names| - 1], fs.nodes[c].parent, more, links);
      ToPathStep(names, rest);
      assert more[1..] == rest;
    }
  }

  datatype WalkResult = Walked(names: seq<string>) | Rejected(why: Refusal)

  predicate IsAbsolute(p: Path) { p != [] && p[0] == RootDir }

  function Pop(names: seq<string>): seq<string> {
    if names == [] then [] else names[..|names| - 1]
  }

  /** A link's target, absolute or taken from the link's directory, is judged
      from the root exactly as the kernel resolves it from that directory. */
  lemma LinkStep(fs: Fs, sys: System, current: seq<string>, at: Ino, name: string, rest: Path, links: nat)
    requires TrustedChain(fs, sys, current, at) && HasEntry(fs, at, name) && Entry(fs, at, name) in fs.nodes
    requires fs.nodes[Entry(fs, at, name)].Link? && Trusted(fs, sys, Entry(fs, at, name))
    ensures var target := fs.nodes[Entry(fs, at, name)].target;
            var walked := if IsAbsolute(target) then target else ToPath(current) + target;
            Judge(fs, sys, at, [Normal(name)] + rest, links + 1)
            == match Judge(fs, sys, fs.root, walked, links)
               case Accept(i, left) => Judge(fs, sys, i, rest, left)
               case Refuse(e) => Refuse(e)
  {
    hide AclRejection;
    var target := fs.nodes[Entry(fs, at, name)].target;
    JudgeComposes(fs, sys, at, target, rest, links);
    if !IsAbsolute(target) {
      RewalkIsIdentity(fs, sys, current, at, target, links);
    }
    assert ([Normal(name)] + rest)[1..] == rest;
  }

  lemma RootChain(fs: Fs, sys: System)
    requires Tree(fs)
    ensures IsDir(fs, fs.root)
    ensures TrustedChain(fs, sys, [], fs.root) <==> Trusted(fs, sys, fs.root)
  {
    hide AclRejection;
  }

  lemma ChainIsDir(fs: Fs, sys: System, names: seq<string>, c: Ino)
    requires TrustedChain(fs, sys, names, c)
    ensures IsDir(fs, c)
  {
  }

  lemma JudgeEnd(fs: Fs, sys: System, cur: Ino, links: nat)
    ensures Judge(fs, sys, cur, [], links) == Accept(cur, links)
  {
  }

  /** A step that looks no name up. */
  lemma PlainStep(fs: Fs, sys: System, current: seq<string>, at: Ino, c: Component, rest: Path, links: nat)
    requires Tree(fs) && Trusted(fs, sys, fs.root) && TrustedChain(fs, sys, current, at) && !c.Normal?
    ensures Judge(fs, sys, at, [c] + rest, links)
            == var next := if c == RootDir then fs.root else if c == CurDir then at else fs.nodes[at].parent;
               Judge(fs, sys, next, rest, links)
    ensures TrustedChain(fs, sys, [], fs.root)
    ensures TrustedChain(fs, sys, Pop(current), fs.nodes[at].parent)
  {
    hide AclRejection;
    assert ([c] + rest)[1..] == rest;
  }

  /** A step that looks a name up and stops there, or goes on to a directory. */
  lemma NamedStep(fs: Fs, sys: System, current: seq<string>, at: Ino, name: string, rest: Path, links: nat)
    requires Tree(fs) && TrustedChain(fs, sys, current, at)
    ensures Lstat(fs, current, name) == if HasEntry(fs, at, name) then Some(Entry(fs, at, name)) else None
    ensures !HasEntry(fs, at, name) ==> Judge(fs, sys, at, [Normal(name)] + rest, links) == Refuse(Missing)
    ensures HasEntry(fs, at, name) ==>
              var x := Entry(fs, at, name);
              && x in fs.nodes
              && (NodeRejection(sys, fs.nodes[x]).Some? ==>
                    Judge(fs, sys, at, [Normal(name)] + rest, links) == Refuse(NodeRejection(sys, fs.nodes[x]).value))
              && (NodeRejection(sys, fs.nodes[x]).None? && fs.nodes[x].Link? && links == 0 ==>
                    Judge(fs, sys, at, [Normal(name)] + rest, links) == Refuse(LinkLimit))
              && (NodeRejection(sys, fs.nodes[x]).None? && !fs.nodes[x].Link? ==>
                    TrustedChain(fs, sys, current + [name], x)
                    && Judge(fs, sys, at, [Normal(name)] + rest, links) == Judge(fs, sys, x, rest, links))
  {
    hide AclRejection;
    assert ([Normal(name)] + rest)[1..] == rest;
    RewalkIsIdentity(fs, sys, current, at, [], KERNEL_LINKS);
    assert ToPath(current) + [] == ToPath(current);
    assert (current + [name])[..|current|] == current;
  }

  /** `walk_trusted_ancestry`. The counter the source shares by reference goes
      in as `hops` and out as `hopsAfter`. */
  method WalkTrustedAncestry(fs: Fs, sys: System, dir: Path, hops: nat)
      returns (r: WalkResult, hopsAfter: nat, ghost at: Ino)
    requires Tree(fs) && Trusted(fs, sys, fs.root)
    requires hops <= MAX_ANCESTRY_SYMLINKS
    ensures hops <= hopsAfter
    ensures r.Walked? ==>
              hopsAfter <= MAX_ANCESTRY_SYMLINKS
              && Judge(fs, sys, fs.root, dir, MAX_ANCESTRY_SYMLINKS - hops)
                 == Accept(at, MAX_ANCESTRY_SYMLINKS - hopsAfter)
              && TrustedChain(fs, sys, r.names, at)
    ensures r.Rejected? ==> Judge(fs, sys, fs.root, dir, MAX_ANCESTRY_SYMLINKS - hops) == Refuse(r.why)
    decreases MAX_ANCESTRY_SYMLINKS - hops
  {
    hide AclRejection, Judge, TrustedChain, Resolve, DirectoryRejection, LinkRejection, Tree;
    var current: seq<string> := [];
    RootChain(fs, sys);
    assert dir[0..] == dir;
    hopsAfter, at := hops, fs.root;
    var i := 0;
    while i < |dir|
      invariant 0 <= i <= |dir|
      invariant hops <= hopsAfter <= MAX_ANCESTRY_SYMLINKS
      invariant TrustedChain(fs, sys, current, at)
      invariant Judge(fs, sys, fs.root, dir, MAX_ANCESTRY_SYMLINKS - hops)
                == Judge(fs, sys, at, dir[i..], MAX_ANCESTRY_SYMLINKS - hopsAfter)
    {
      ghost var rest := dir[i + 1..];
      ChainIsDir(fs, sys, current, at);
      assert dir[i..] == [dir[i]] + rest;
      match dir[i] {
        case RootDir =>
          PlainStep(fs, sys, current, at, dir[i], rest, MAX_ANCESTRY_SYMLINKS - hopsAfter);
          current, at := [], fs.root;
        case CurDir =>
          PlainStep(fs, sys, current, at, dir[i], rest, MAX_ANCESTRY_SYMLINKS - hopsAfter);
        case ParentDir =>
          PlainStep(fs, sys, current, at, dir[i], rest, MAX_ANCESTRY_SYMLINKS - hopsAfter);
          current, at := Pop(current), fs.nodes[at].parent;
        case Normal(name) =>
          NamedStep(fs, sys, current, at, name, rest, MAX_ANCESTRY_SYMLINKS - hopsAfter);
          var found := Lstat(fs, current, name);
          if found.None? {
            return Rejected(Missing), hopsAfter, at;
          }
          var node := fs.nodes[found.value];
          if node.Link? {
            var refused := LinkRejection(sys, node.owner);
            if refused.Some? {
              return Rejected(refused.value), hopsAfter, at;
            }
            hopsAfter := hopsAfter + 1;
            if hopsAfter > MAX_ANCESTRY_SYMLINKS {
              return Rejected(LinkLimit), hopsAfter, at;
            }
            var target := if IsAbsolute(node.target) then node.target else ToPath(current) + node.target;
            LinkStep(fs, sys, current, at, name, rest, MAX_ANCESTRY_SYMLINKS - hopsAfter);
            var below;
            below, hopsAfter, at := WalkTrustedAncestry(fs, sys, target, hopsAfter);
            if below.Rejected? {
              return below, hopsAfter, at;
            }
            current := below.names;
          } else {
            var refused := DirectoryRejection(sys, node);
            if refused.Some? {
              return Rejected(refused.value), hopsAfter, at;
            }
            current, at := current + [name], found.value;
          }
      }
      i := i + 1;
    }
    assert dir[i..] == [];
    JudgeEnd(fs, sys, at, MAX_ANCESTRY_SYMLINKS - hopsAfter);
    return Walked(current), hopsAfter, at;
  }

  /** `staging_parent`: the path without its last component. */
  function StagingParent(path: Path): Path {
    if |path| > 1 then path[..|path| - 1] else [CurDir]
  }

  function Absolute(path: Path, cwd: seq<string>): Path {
    var parent := StagingParent(path);
    if IsAbsolute(parent) then parent else ToPath(cwd) + parent
  }

  /** Resolution going on from where it has got. */
  function Onward(fs: Fs, so: Resolution, rest: Path): Resolution {
    if so.Reached? then Resolve(fs, so.ino, rest, so.linksLeft) else so
  }

  lemma {:induction false} ResolveComposes(fs: Fs, cur: Ino, first: Path, rest: Path, links: nat)
    ensures Resolve(fs, cur, first + rest, links) == Onward(fs, Resolve(fs, cur, first, links), rest)
    decreases links, |first|
  {
    if first == [] {
      assert first + rest == rest;
    } else {
      assert (first + rest)[1..] == first[1..] + rest;
      match first[0]
      case RootDir => ResolveComposes(fs, fs.root, first[1..], rest, links);
      case CurDir => ResolveComposes(fs, cur, first[1..], rest, links);
      case ParentDir =>
        if IsDir(fs, cur) { ResolveComposes(fs, fs.nodes[cur].parent, first[1..], rest, links); }
      case Normal(n) =>
        if HasEntry(fs, cur, n) && Entry(fs, cur, n) in fs.nodes {
          match fs.nodes[Entry(fs, cur, n)]
          case Link(_, target, _) =>
            if links > 0 {
              assert target + (first[1..] + rest) == (target + first[1..]) + rest;
              ResolveComposes(fs, cur, target + first[1..], rest, links - 1);
            }
          case _ => ResolveComposes(fs, Entry(fs, cur, n), first[1..], rest, links);
        }
    }
  }

  /** The directory that is judged is the one in which the file's own name is looked
      up, from whatever directory `at` the process works in. */
  lemma FileIsLookedUpThere(fs: Fs, at: Ino, cwd: seq<string>, parent: Path, name: string, links: nat)
    requires Resolve(fs, fs.root, ToPath(cwd), links) == Reached(at, links) && IsDir(fs, at)
    ensures var path := parent + [Normal(name)];
            Resolve(fs, at, path, links)
            == Onward(fs, Resolve(fs, fs.root, Absolute(path, cwd), links), [Normal(name)])
  {
    var path := parent + [Normal(name)];
    ResolveComposes(fs, at, parent, [Normal(name)], links);
    if parent == [] {
      assert StagingParent(path) == [CurDir];
      ResolveComposes(fs, fs.root, ToPath(cwd), [CurDir], links);
      assert [CurDir][1..] == [];
    } else {
      assert path[..|path| - 1] == parent;
      ResolveComposes(fs, fs.root, ToPath(cwd), parent, links);
    }
  }

  /** A larger link budget reaches the same place: where the walk gets, the kernel does. */
  lemma {:induction false} MoreLinksReachTheSame(fs: Fs, cur: Ino, path: Path, links: nat, more: nat)
    requires Resolve(fs, cur, path, links).Reached?
    ensures var r := Resolve(fs, cur, path, links);
            Resolve(fs, cur, path, links + more) == Reached(r.ino, r.linksLeft + more)
    decreases links, |path|
  {
    if path != [] {
      match path[0]
      case RootDir => MoreLinksReachTheSame(fs, fs.root, path[1..], links, more);
      case CurDir => MoreLinksReachTheSame(fs, cur, path[1..], links, more);
      case ParentDir => MoreLinksReachTheSame(fs, fs.nodes[cur].parent, path[1..], links, more);
      case Normal(n) =>
        match fs.nodes[Entry(fs, cur, n)]
        case Link(_, target, _) => MoreLinksReachTheSame(fs, cur, target + path[1..], links - 1, more);
        case _ => MoreLinksReachTheSame(fs, Entry(fs, cur, n), path[1..], links, more);
    }
  }

  /** What acceptance means: the directory holding `path` resolves with at most
      32 links, and the root and every node passed on the way are trusted. */
  ghost predicate Accepted(fs: Fs, sys: System, dir: Path, i: Ino) {
    && Resolve(fs, fs.root, dir, MAX_ANCESTRY_SYMLINKS).Reached?
    && Resolve(fs, fs.root, dir, MAX_ANCESTRY_SYMLINKS).ino == i
    && Trusted(fs, sys, fs.root)
    && forall x :: x in Passed(fs, fs.root, dir, MAX_ANCESTRY_SYMLINKS) ==> Trusted(fs, sys, x)
  }

  /** `ensure_trusted_ancestry`: accepts exactly when the resolution is trusted
      throughout; what it accepts is a directory reached by a plain path of
      trusted directories. */
  method EnsureTrustedAncestry(fs: Fs, sys: System, path: Path, cwd: seq<string>)
    returns (refusal: Option<Refusal>, ghost resolved: WalkResult, ghost at: Ino)
    requires Tree(fs)
    ensures refusal.None? <==> exists i :: Accepted(fs, sys, Absolute(path, cwd), i)
    ensures refusal.Some? ==>
              refusal == DirectoryRejection(sys, fs.nodes[fs.root])
              || Judge(fs, sys, fs.root, Absolute(path, cwd), MAX_ANCESTRY_SYMLINKS) == Refuse(refusal.value)
    ensures refusal.None? ==>
              Accepted(fs, sys, Absolute(path, cwd), at) && IsDir(fs, at)
              && resolved.Walked? && TrustedChain(fs, sys, resolved.names, at)
  {
    hide AclRejection;
    var absolute := Absolute(path, cwd);
    at := fs.root;
    resolved := Rejected(Missing);
    var atRoot := DirectoryRejection(sys, fs.nodes[fs.root]);
    if atRoot.Some? {
      return atRoot, resolved, at;
    }
    var r, hops;
    r, hops, at := WalkTrustedAncestry(fs, sys, absolute, 0);
    resolved := r;
    forall i, left {
      AcceptIsTrustedResolution(fs, sys, fs.root, absolute, MAX_ANCESTRY_SYMLINKS, i, left);
    }
    match r {
      case Walked(_) =>
        assert Accepted(fs, sys, absolute, at);
        refusal := None;
      case Rejected(why) => refusal := Some(why);
    }
  }
}
