/** A Unix file system as inodes, and pathname resolution over it as section
    4.13 of POSIX.1-2017 XBD defines it. */
module FileSystem {
  import opened Text
  import opened AclText

  type Ino = nat

  datatype Component = RootDir | CurDir | ParentDir | Normal(name: string)

  type Path = seq<Component>

  /** The permission bits that decide who may change a directory's entries:
      0o1000, 0o020 and 0o002. */
  datatype Mode = Mode(sticky: bool, groupWrite: bool, worldWrite: bool)

  datatype Node =
    | Directory(owner: nat, group: nat, mode: Mode, posixAcl: bool, acl: Option<seq<Ace>>,
                parent: Ino, entries: map<string, Ino>)
    | Link(owner: nat, target: Path, acl: Option<seq<Ace>>)
    | File(owner: nat)

  datatype Fs = Fs(root: Ino, nodes: map<Ino, Node>)

  predicate IsDir(fs: Fs, i: Ino) { i in fs.nodes && fs.nodes[i].Directory? }

  predicate HasEntry(fs: Fs, d: Ino, n: string) { IsDir(fs, d) && n in fs.nodes[d].entries }

  function Entry(fs: Fs, d: Ino, n: string): Ino
    requires HasEntry(fs, d, n)
  {
    fs.nodes[d].entries[n]
  }

  /** Directories form a tree: each is named only in the directory `..` leads
      to, and the root nowhere. Other nodes may have any number of names. */
  ghost predicate Tree(fs: Fs) {
    && IsDir(fs, fs.root) && fs.nodes[fs.root].parent == fs.root
    && (forall d {:trigger fs.nodes[d].parent} :: IsDir(fs, d) ==> IsDir(fs, fs.nodes[d].parent))
    && (forall d, n :: HasEntry(fs, d, n) ==> Entry(fs, d, n) in fs.nodes && Entry(fs, d, n) != fs.root)
    && (forall d, n :: HasEntry(fs, d, n) && IsDir(fs, Entry(fs, d, n)) ==> fs.nodes[Entry(fs, d, n)].parent == d)
  }

  /** A directory has one name in its parent. */
  ghost predicate UniqueNames(fs: Fs) {
    forall d, n, m | HasEntry(fs, d, n) && HasEntry(fs, d, m) ::
      IsDir(fs, Entry(fs, d, n)) && Entry(fs, d, n) == Entry(fs, d, m) ==> n == m
  }

  ghost predicate WellFormedAcl(node: Node) {
    !node.File? && node.acl.Some? ==> forall a :: a in node.acl.value ==> WellFormedAce(a)
  }

  ghost predicate WellFormed(fs: Fs) {
    Tree(fs) && UniqueNames(fs) && forall d :: d in fs.nodes ==> WellFormedAcl(fs.nodes[d])
  }

  datatype Resolution = Reached(ino: Ino, linksLeft: nat) | NotFound | NotADirectory | TooManyLinks

  /** Resolve `path` from directory `cur`, following every symbolic link, at
      most `links` of them. */
  function Resolve(fs: Fs, cur: Ino, path: Path, links: nat): Resolution
    decreases links, |path|
  {
    if path == [] then Reached(cur, links)
    else if path[0] == RootDir then Resolve(fs, fs.root, path[1..], links)
    else if !IsDir(fs, cur) then NotADirectory
    else match path[0]
      case CurDir => Resolve(fs, cur, path[1..], links)
      case ParentDir => Resolve(fs, fs.nodes[cur].parent, path[1..], links)
      case Normal(n) =>
        if !HasEntry(fs, cur, n) || Entry(fs, cur, n) !in fs.nodes then NotFound
        else
          match fs.nodes[Entry(fs, cur, n)]
          case Link(_, target, _) =>
            if links == 0 then TooManyLinks else Resolve(fs, cur, target + path[1..], links - 1)
          case _ => Resolve(fs, Entry(fs, cur, n), path[1..], links)
  }

  /** The nodes looked up by name on the way: every directory, link or file that
      `Resolve` steps through. */
  function Passed(fs: Fs, cur: Ino, path: Path, links: nat): set<Ino>
    decreases links, |path|
  {
    if path == [] then {}
    else if path[0] == RootDir then Passed(fs, fs.root, path[1..], links)
    else if !IsDir(fs, cur) then {}
    else match path[0]
      case CurDir => Passed(fs, cur, path[1..], links)
      case ParentDir => Passed(fs, fs.nodes[cur].parent, path[1..], links)
      case Normal(n) =>
        if !HasEntry(fs, cur, n) || Entry(fs, cur, n) !in fs.nodes then {}
        else
          var i := Entry(fs, cur, n);
          match fs.nodes[i]
          case Link(_, target, _) =>
            if links == 0 then {i} else {i} + Passed(fs, cur, target + path[1..], links - 1)
          case _ => {i} + Passed(fs, i, path[1..], links)
  }

  /** The absolute path made of plain names. */
  function ToPath(names: seq<string>): Path { [RootDir] + NamePath(names) }

  function NamePath(names: seq<string>): Path {
    seq(|names|, i requires 0 <= i < |names| => Normal(names[i]))
  }

  /** Links the kernel follows in one resolution. */
  const KERNEL_LINKS: nat := 40

  /** `symlink_metadata`: resolve everything but the last name, then look that
      name up without following it. */
  function Lstat(fs: Fs, dir: seq<string>, name: string): Option<Ino> {
    match Resolve(fs, fs.root, ToPath(dir), KERNEL_LINKS)
    case Reached(d, _) =>
      if HasEntry(fs, d, name) && Entry(fs, d, name) in fs.nodes then Some(Entry(fs, d, name)) else None
    case _ => None
  }
}
