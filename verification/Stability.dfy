/** Why one accepted walk is enough: whatever other accounts do afterwards, the
    accepted directory stays where the path leads (src/config.rs). */
module Stability {
  import opened Text
  import opened AclText
  import opened FileSystem
  import opened Ancestry

  /** An account other than corvex's own: a uid and the groups it belongs to. */
  datatype Account = Account(uid: nat, groups: set<nat>)

  /** Neither corvex's uid nor root, and not in a group the system lists as
      corvex's private one (the assumption src/config.rs:1373-1386 states). */
  ghost predicate Foreign(sys: System, who: Account) {
    && who.uid != sys.euid && who.uid != 0
    && (sys.euid in sys.members && sys.members[sys.euid] == {} ==> sys.euid !in who.groups)
  }

  // What Unix lets an account do, erring on the permissive side

  /** Rights on a directory that let their holder change its entries: on a directory
      `write` is `add_file` and `append` is `add_subdirectory` by another name. */
  const CHANGE_RIGHTS: set<string> := {"write", "append", "add_file", "add_subdirectory", "delete_child"}

  /** Rights on an entry that let their holder unlink it or grant itself that. */
  const TAKEOVER_RIGHTS: set<string> := {"delete", "writesecurity", "chown"}

  ghost predicate Offers(a: Ace, rights: set<string>) {
    a.verdict == Allow && a.rights.Some? && exists r :: r in a.rights.value && r in rights
  }

  /** Some allow entry may hand one of the rights to `who`: one for its uid, for any
      group, or for an account that cannot be named. Deny entries are not counted on. */
  ghost predicate AclMayGrant(node: Node, who: Account, rights: set<string>) {
    !node.File? && node.acl.Some?
    && exists a :: a in node.acl.value && Offers(a, rights)
         && (a.kind == Group || a.id == None || a.id == Some(who.uid))
  }

  /** No allow entry of the link offers such a right to anyone but corvex and root. */
  ghost predicate Sealed(sys: System, node: Node) {
    node.Link? && node.acl.Some? ==>
      forall a :: a in node.acl.value && Offers(a, TAKEOVER_RIGHTS) ==>
        a.kind == User && (a.id == Some(sys.euid) || a.id == Some(0))
  }

  /** Trusted, and, for a link, sealed: the walk does not ask the second. */
  ghost predicate Secure(fs: Fs, sys: System, i: Ino) {
    Trusted(fs, sys, i) && Sealed(sys, fs.nodes[i])
  }

  /** Under a POSIX ACL the group bits are the mask, so they may stand for anybody. */
  ghost predicate MayWrite(fs: Fs, who: Account, d: Ino) {
    IsDir(fs, d)
    && var node := fs.nodes[d];
       || node.owner == who.uid
       || node.mode.worldWrite
       || (node.mode.groupWrite && (node.group in who.groups || node.posixAcl))
       || AclMayGrant(node, who, CHANGE_RIGHTS)
  }

  /** Removing or renaming away an entry: write access to its directory, and
      under the sticky bit the entry or the directory must be one's own. A right on
      the entry itself also allows it. */
  ghost predicate MayUnlink(fs: Fs, who: Account, d: Ino, n: string) {
    HasEntry(fs, d, n) && Entry(fs, d, n) in fs.nodes
    && var entry := fs.nodes[Entry(fs, d, n)];
       || AclMayGrant(entry, who, TAKEOVER_RIGHTS)
       || (MayWrite(fs, who, d)
           && (fs.nodes[d].mode.sticky ==> fs.nodes[d].owner == who.uid || entry.owner == who.uid))
  }

  datatype Action =
    | Create(dir: Ino, name: string, born: Ino, node: Node)
    | HardLink(dir: Ino, name: string, to: Ino)
    | Unlink(dir: Ino, name: string)
    | Rename(dir: Ino, name: string, toDir: Ino, toName: string)
    | SetAttributes(at: Ino, owner: nat, group: nat, mode: Mode, posixAcl: bool, acl: Option<seq<Ace>>)

  function WithAttributes(node: Node, a: Action): Node
    requires a.SetAttributes? && !node.File?
  {
    if node.Link? then node.(owner := a.owner, acl := a.acl)
    else node.(owner := a.owner, group := a.group, mode := a.mode, posixAcl := a.posixAcl, acl := a.acl)
  }

  ghost predicate Allowed(fs: Fs, who: Account, a: Action) {
    match a
    case Create(d, n, born, node) =>
      && MayWrite(fs, who, d) && n !in fs.nodes[d].entries && born !in fs.nodes
      && node.owner == who.uid
      && WellFormedAcl(node)
      && (node.Directory? ==> node.parent == d && node.entries == map[])
    case HardLink(d, n, to) =>
      MayWrite(fs, who, d) && n !in fs.nodes[d].entries && to in fs.nodes && !fs.nodes[to].Directory?
    case Unlink(d, n) => MayUnlink(fs, who, d, n)
    case Rename(d, n, d', n') =>
      MayUnlink(fs, who, d, n) && MayWrite(fs, who, d') && (n' in fs.nodes[d'].entries ==> MayUnlink(fs, who, d', n'))
    case SetAttributes(i, _, _, _, _, _) =>
      i in fs.nodes && !fs.nodes[i].File?
      && (fs.nodes[i].owner == who.uid || AclMayGrant(fs.nodes[i], who, TAKEOVER_RIGHTS))
      && WellFormedAcl(WithAttributes(fs.nodes[i], a))
  }

  function WithEntries(fs: Fs, d: Ino, entries: map<string, Ino>): Fs
    requires IsDir(fs, d)
  {
    fs.(nodes := fs.nodes[d := fs.nodes[d].(entries := entries)])
  }

  function Put(fs: Fs, d: Ino, n: string, i: Ino): Fs
    requires IsDir(fs, d)
  {
    WithEntries(fs, d, fs.nodes[d].entries[n := i])
  }

  function Drop(fs: Fs, d: Ino, n: string): Fs
    requires IsDir(fs, d)
  {
    WithEntries(fs, d, fs.nodes[d].entries - {n})
  }

  /** `..` of a moved directory follows it. */
  function Reparent(fs: Fs, i: Ino, d: Ino): Fs {
    if IsDir(fs, i) then fs.(nodes := fs.nodes[i := fs.nodes[i].(parent := d)]) else fs
  }

  ghost function Apply(fs: Fs, who: Account, a: Action): Fs
    requires Allowed(fs, who, a)
  {
    match a
    case Create(d, n, born, node) => Put(fs.(nodes := fs.nodes[born := node]), d, n, born)
    case HardLink(d, n, to) => Put(fs, d, n, to)
    case Unlink(d, n) => Drop(fs, d, n)
    case Rename(d, n, d', n') =>
      var moved := Entry(fs, d, n);
      Reparent(Put(Drop(fs, d, n), d', n', moved), moved, d')
    case SetAttributes(i, _, _, _, _, _) => fs.(nodes := fs.nodes[i := WithAttributes(fs.nodes[i], a)])
  }

  // What one foreign step leaves alone

  /** Secure nodes keep their kind and attributes; a trusted directory keeps every
      entry that names a secure node. */
  ghost predicate Keeps(fs: Fs, fs': Fs, sys: System) {
    && fs'.root == fs.root
    && (forall i :: Secure(fs, sys, i) ==> Secure(fs', sys, i) && (IsDir(fs, i) <==> IsDir(fs', i)))
    && (forall i :: Secure(fs, sys, i) && fs.nodes[i].Link? ==> fs'.nodes[i] == fs.nodes[i])
    && (forall d, n | Secure(fs, sys, d) && HasEntry(fs, d, n) ::
          Secure(fs, sys, Entry(fs, d, n)) ==> HasEntry(fs', d, n) && Entry(fs', d, n) == Entry(fs, d, n))
  }

  /** The rights the walk looks for are those two kinds, and no others. */
  lemma RightsCovered()
    ensures MUTATION_RIGHTS == CHANGE_RIGHTS + TAKEOVER_RIGHTS
  {
  }

  lemma NoAclGrant(sys: System, node: Node, who: Account)
    requires Foreign(sys, who) && !node.Link? && DirectoryRejection(sys, node).None?
    requires WellFormedAcl(node)
    ensures !AclMayGrant(node, who, CHANGE_RIGHTS) && !AclMayGrant(node, who, TAKEOVER_RIGHTS)
  {
    if node.Directory? && node.acl.Some? {
      AclJudged(node.acl.value, sys.euid);
      assert forall a :: a in node.acl.value ==> !GrantsMutation(a, sys.euid);
      RightsCovered();
    }
  }

  /** A foreign account can neither change a secure node's attributes nor unlink a
      secure entry of a trusted directory. */
  lemma TrustedIsOutOfReach(fs: Fs, sys: System, who: Account, d: Ino)
    requires WellFormed(fs) && Foreign(sys, who) && Secure(fs, sys, d)
    ensures fs.nodes[d].owner != who.uid && !AclMayGrant(fs.nodes[d], who, TAKEOVER_RIGHTS)
    ensures IsDir(fs, d) && !fs.nodes[d].mode.sticky ==> !MayWrite(fs, who, d)
    ensures forall n :: HasEntry(fs, d, n) && Secure(fs, sys, Entry(fs, d, n)) ==> !MayUnlink(fs, who, d, n)
  {
    hide AclRejection;
    if !fs.nodes[d].Link? { NoAclGrant(sys, fs.nodes[d], who); }
    forall n | HasEntry(fs, d, n) && Secure(fs, sys, Entry(fs, d, n)) ensures !MayUnlink(fs, who, d, n) {
      var entry := fs.nodes[Entry(fs, d, n)];
      if !entry.Link? { NoAclGrant(sys, entry, who); }
    }
  }

  lemma KeepsTransitive(f0: Fs, f1: Fs, f2: Fs, sys: System)
    requires Keeps(f0, f1, sys) && Keeps(f1, f2, sys)
    ensures Keeps(f0, f2, sys)
  {
    hide AclRejection;
  }

  /** The entry `n` of `d` is not a secure entry of a trusted directory. */
  ghost predicate Exposed(fs: Fs, sys: System, d: Ino, n: string) {
    Secure(fs, sys, d) && HasEntry(fs, d, n) ==> !Secure(fs, sys, Entry(fs, d, n))
  }

  lemma SameAttributes(sys: System, a: Node, b: Node)
    requires a.Directory? && b.Directory?
    requires a.owner == b.owner && a.group == b.group && a.mode == b.mode && a.posixAcl == b.posixAcl && a.acl == b.acl
    ensures NodeRejection(sys, a) == NodeRejection(sys, b)
  {
    hide AclRejection;
  }

  lemma EntriesKept(fs: Fs, sys: System, d: Ino, n: string, entries: map<string, Ino>)
    requires IsDir(fs, d) && Exposed(fs, sys, d, n)
    requires forall m | m in fs.nodes[d].entries && m != n :: m in entries && entries[m] == fs.nodes[d].entries[m]
    ensures Keeps(fs, WithEntries(fs, d, entries), sys)
  {
    hide AclRejection;
    var fs' := WithEntries(fs, d, entries);
    SameAttributes(sys, fs.nodes[d], fs'.nodes[d]);
    assert forall i :: i != d ==> (i in fs.nodes <==> i in fs'.nodes);
  }

  lemma ReparentKeeps(fs: Fs, sys: System, i: Ino, d: Ino)
    ensures Keeps(fs, Reparent(fs, i, d), sys)
  {
    hide AclRejection;
    if IsDir(fs, i) { SameAttributes(sys, fs.nodes[i], fs.nodes[i].(parent := d)); }
  }

  lemma BirthKeeps(fs: Fs, sys: System, d: Ino, n: string, born: Ino, node: Node)
    requires IsDir(fs, d) && !HasEntry(fs, d, n) && born !in fs.nodes
    ensures Keeps(fs, Put(fs.(nodes := fs.nodes[born := node]), d, n, born), sys)
  {
    hide Keeps, Secure;
    var f1 := fs.(nodes := fs.nodes[born := node]);
    EntriesKept(f1, sys, d, n, f1.nodes[d].entries[n := born]);
    NewNodeKeeps(fs, sys, born, node);
    KeepsTransitive(fs, f1, Put(f1, d, n, born), sys);
  }

  lemma NewNodeKeeps(fs: Fs, sys: System, born: Ino, node: Node)
    requires born !in fs.nodes
    ensures Keeps(fs, fs.(nodes := fs.nodes[born := node]), sys)
  {
    hide NodeRejection, Sealed;
  }

  lemma MoveKeeps(fs: Fs, sys: System, d: Ino, n: string, d': Ino, n': string)
    requires HasEntry(fs, d, n) && IsDir(fs, d') && Exposed(fs, sys, d, n) && Exposed(fs, sys, d', n')
    ensures Keeps(fs, Reparent(Put(Drop(fs, d, n), d', n', Entry(fs, d, n)), Entry(fs, d, n), d'), sys)
  {
    hide AclRejection;
    var moved := Entry(fs, d, n);
    var f1 := Drop(fs, d, n);
    var f2 := Put(f1, d', n', moved);
    EntriesKept(fs, sys, d, n, fs.nodes[d].entries - {n});
    SameAttributes(sys, fs.nodes[d], f1.nodes[d]);
    assert Exposed(f1, sys, d', n');
    EntriesKept(f1, sys, d', n', f1.nodes[d'].entries[n' := moved]);
    KeepsTransitive(fs, f1, f2, sys);
    ReparentKeeps(f2, sys, moved, d');
    KeepsTransitive(fs, f2, Reparent(f2, moved, d'), sys);
  }

  lemma UntrustedMayChange(fs: Fs, sys: System, i: Ino, node: Node)
    requires i in fs.nodes && !Secure(fs, sys, i) && (IsDir(fs, i) <==> node.Directory?)
    requires IsDir(fs, i) ==> node.entries == fs.nodes[i].entries
    ensures Keeps(fs, fs.(nodes := fs.nodes[i := node]), sys)
  {
    hide AclRejection;
    forall j | Secure(fs, sys, j) ensures j != i {}
  }

  lemma StepKeeps(fs: Fs, sys: System, who: Account, a: Action)
    requires WellFormed(fs) && Foreign(sys, who) && Allowed(fs, who, a)
    ensures Keeps(fs, Apply(fs, who, a), sys)
  {
    hide AclRejection;
    forall d, n | HasEntry(fs, d, n) && MayUnlink(fs, who, d, n) ensures Exposed(fs, sys, d, n) {
      if Secure(fs, sys, d) { TrustedIsOutOfReach(fs, sys, who, d); }
    }
    match a
    case Create(d, n, born, node) => BirthKeeps(fs, sys, d, n, born, node);
    case HardLink(d, n, to) => EntriesKept(fs, sys, d, n, fs.nodes[d].entries[n := to]);
    case Unlink(d, n) => EntriesKept(fs, sys, d, n, fs.nodes[d].entries - {n});
    case Rename(d, n, d', n') => MoveKeeps(fs, sys, d, n, d', n');
    case SetAttributes(i, _, _, _, _, _) =>
      assert !Secure(fs, sys, i) by {
        if Secure(fs, sys, i) { TrustedIsOutOfReach(fs, sys, who, i); }
      }
      UntrustedMayChange(fs, sys, i, Apply(fs, who, a).nodes[i]);
  }

  // The tree shape survives every step, trusted or not

  ghost predicate Named(fs: Fs, i: Ino) {
    exists d, n :: HasEntry(fs, d, n) && Entry(fs, d, n) == i
  }

  /** `f` has the directories of `fs` and maybe new empty ones, and no new entry. */
  ghost predicate FewerEntries(fs: Fs, f: Fs) {
    && f.root == fs.root && fs.nodes.Keys <= f.nodes.Keys
    && (forall x :: x in fs.nodes ==> (IsDir(f, x) <==> IsDir(fs, x)))
    && (forall x {:trigger f.nodes[x].parent} :: IsDir(f, x) ==>
          if IsDir(fs, x) then f.nodes[x].parent == fs.nodes[x].parent else IsDir(f, f.nodes[x].parent))
    && (forall x, m :: HasEntry(f, x, m) ==> HasEntry(fs, x, m) && Entry(f, x, m) == Entry(fs, x, m))
  }

  lemma FewerEntriesTree(fs: Fs, f: Fs)
    requires Tree(fs) && UniqueNames(fs) && FewerEntries(fs, f)
    ensures Tree(f) && UniqueNames(f)
  {
  }

  lemma DropWellFormed(fs: Fs, d: Ino, n: string)
    requires WellFormed(fs) && HasEntry(fs, d, n)
    ensures WellFormed(Drop(fs, d, n))
    ensures IsDir(fs, Entry(fs, d, n)) ==> !Named(Drop(fs, d, n), Entry(fs, d, n))
  {
    FewerEntriesTree(fs, Drop(fs, d, n));
  }

  lemma PutWellFormed(fs: Fs, d: Ino, n: string, i: Ino)
    requires WellFormed(fs) && IsDir(fs, d) && i in fs.nodes && i != fs.root
    requires IsDir(fs, i) ==> !Named(fs, i)
    ensures WellFormed(Reparent(Put(fs, d, n, i), i, d))
  {
    var f1 := Put(fs, d, n, i);
    PutShape(fs, d, n, i);
    ReparentShape(f1, i, d);
    var f := Reparent(f1, i, d);
    OneMoreEntryTree(fs, f, d, n, i);
    OneMoreEntryUnique(fs, f, d, n, i);
  }

  lemma PutShape(fs: Fs, d: Ino, n: string, i: Ino)
    requires IsDir(fs, d) && i in fs.nodes && (IsDir(fs, i) ==> !Named(fs, i))
    ensures OneMoreEntry(fs, Put(fs, d, n, i), d, n, i)
    ensures forall x :: IsDir(fs, x) ==> Put(fs, d, n, i).nodes[x].parent == fs.nodes[x].parent
    ensures forall x :: x in fs.nodes && WellFormedAcl(fs.nodes[x]) ==> WellFormedAcl(Put(fs, d, n, i).nodes[x])
  {
  }

  lemma ReparentShape(fs: Fs, i: Ino, d: Ino)
    ensures var f := Reparent(fs, i, d);
            && f.root == fs.root && f.nodes.Keys == fs.nodes.Keys
            && (forall x :: IsDir(f, x) <==> IsDir(fs, x))
            && (forall x, m :: HasEntry(f, x, m) <==> HasEntry(fs, x, m))
            && (forall x, m :: HasEntry(f, x, m) ==> Entry(f, x, m) == Entry(fs, x, m))
            && (forall x {:trigger f.nodes[x].parent} :: IsDir(f, x) ==>
                  f.nodes[x].parent == if x == i then d else fs.nodes[x].parent)
            && (forall x :: x in fs.nodes && WellFormedAcl(fs.nodes[x]) ==> WellFormedAcl(f.nodes[x]))
  {
  }

  /** `f` is `fs` with entry `n` of `d` naming `i`, which has no other name if it
      is a directory. */
  ghost predicate OneMoreEntry(fs: Fs, f: Fs, d: Ino, n: string, i: Ino) {
    && f.root == fs.root && f.nodes.Keys == fs.nodes.Keys
    && (forall x :: IsDir(f, x) <==> IsDir(fs, x))
    && HasEntry(f, d, n) && Entry(f, d, n) == i
    && (forall x, m :: HasEntry(f, x, m) && !(x == d && m == n) ==>
          HasEntry(fs, x, m) && Entry(f, x, m) == Entry(fs, x, m) && (IsDir(fs, i) ==> Entry(fs, x, m) != i))
  }

  lemma OneMoreEntryTree(fs: Fs, f: Fs, d: Ino, n: string, i: Ino)
    requires Tree(fs) && IsDir(fs, d) && i in fs.nodes && i != fs.root && OneMoreEntry(fs, f, d, n, i)
    requires forall x {:trigger f.nodes[x].parent} :: IsDir(f, x) && IsDir(fs, x) ==>
               f.nodes[x].parent == if x == i then d else fs.nodes[x].parent
    ensures Tree(f)
  {
  }

  lemma OneMoreEntryUnique(fs: Fs, f: Fs, d: Ino, n: string, i: Ino)
    requires UniqueNames(fs) && OneMoreEntry(fs, f, d, n, i)
    ensures UniqueNames(f)
  {
  }

  lemma BirthWellFormed(fs: Fs, d: Ino, n: string, born: Ino, node: Node)
    requires WellFormed(fs) && IsDir(fs, d) && born !in fs.nodes
    requires node.Directory? ==> node.parent == d && node.entries == map[]
    requires WellFormedAcl(node)
    ensures WellFormed(Put(fs.(nodes := fs.nodes[born := node]), d, n, born))
  {
    var f1 := fs.(nodes := fs.nodes[born := node]);
    assert forall x, m :: HasEntry(f1, x, m) ==> x != born && HasEntry(fs, x, m) && Entry(f1, x, m) == Entry(fs, x, m);
    FewerEntriesTree(fs, f1);
    PutWellFormed(f1, d, n, born);
    assert Reparent(Put(f1, d, n, born), born, d) == Put(f1, d, n, born);
  }

  lemma AttributesWellFormed(fs: Fs, i: Ino, node: Node)
    requires WellFormed(fs) && i in fs.nodes && (IsDir(fs, i) <==> node.Directory?)
    requires IsDir(fs, i) ==> node.parent == fs.nodes[i].parent && node.entries == fs.nodes[i].entries
    requires WellFormedAcl(node)
    ensures WellFormed(fs.(nodes := fs.nodes[i := node]))
  {
    FewerEntriesTree(fs, fs.(nodes := fs.nodes[i := node]));
  }

  lemma StepWellFormed(fs: Fs, who: Account, a: Action)
    requires WellFormed(fs) && Allowed(fs, who, a)
    ensures WellFormed(Apply(fs, who, a))
  {
    match a
    case Create(d, n, born, node) => BirthWellFormed(fs, d, n, born, node);
    case HardLink(d, n, to) => PutWellFormed(fs, d, n, to);
    case Unlink(d, n) => DropWellFormed(fs, d, n);
    case Rename(d, n, d', n') =>
      DropWellFormed(fs, d, n);
      PutWellFormed(Drop(fs, d, n), d', n', Entry(fs, d, n));
    case SetAttributes(i, _, _, _, _, _) => AttributesWellFormed(fs, i, Apply(fs, who, a).nodes[i]);
  }

  // From one step to whole runs

  lemma {:induction false} ChainKept(fs: Fs, fs': Fs, sys: System, names: seq<string>, c: Ino)
    requires Tree(fs) && Tree(fs') && Keeps(fs, fs', sys)
    requires TrustedChain(fs, sys, names, c)
    ensures TrustedChain(fs', sys, names, c)
    ensures fs'.nodes[c].parent == fs.nodes[c].parent
    decreases |names|
  {
    hide AclRejection;
    if names != [] {
      ChainKept(fs, fs', sys, names[..|names| - 1], fs.nodes[c].parent);
    }
  }

  /** One trusted step from a trusted directory leads to the same place. */
  lemma EntryKept(fs: Fs, fs': Fs, sys: System, names: seq<string>, cur: Ino, n: string)
    requires Tree(fs) && Tree(fs') && Keeps(fs, fs', sys)
    requires TrustedChain(fs, sys, names, cur) && HasEntry(fs, cur, n) && Secure(fs, sys, Entry(fs, cur, n))
    ensures HasEntry(fs', cur, n) && Entry(fs', cur, n) == Entry(fs, cur, n)
    ensures Secure(fs', sys, Entry(fs, cur, n))
    ensures fs.nodes[Entry(fs, cur, n)].Link? ==> fs'.nodes[Entry(fs, cur, n)] == fs.nodes[Entry(fs, cur, n)]
    ensures !fs.nodes[Entry(fs, cur, n)].Link? ==>
              TrustedChain(fs, sys, names + [n], Entry(fs, cur, n)) && IsDir(fs', Entry(fs, cur, n))
  {
    hide AclRejection;
    var names' := names + [n];
    assert names'[..|names'| - 1] == names;
  }

  /** Every link passed on the way is sealed. */
  ghost predicate LinksSealed(fs: Fs, sys: System, cur: Ino, path: Path, links: nat) {
    forall x :: x in Passed(fs, cur, path, links) && x in fs.nodes ==> Sealed(sys, fs.nodes[x])
  }

  lemma {:induction false} JudgeKept(
      fs: Fs, fs': Fs, sys: System, names: seq<string>, cur: Ino, path: Path, links: nat)
    requires Tree(fs) && Tree(fs') && Keeps(fs, fs', sys)
    requires TrustedChain(fs, sys, names, cur)
    requires Judge(fs, sys, cur, path, links).Accept? && LinksSealed(fs, sys, cur, path, links)
    ensures Judge(fs', sys, cur, path, links) == Judge(fs, sys, cur, path, links)
    ensures Passed(fs', cur, path, links) == Passed(fs, cur, path, links)
    ensures LinksSealed(fs', sys, cur, path, links)
    decreases links, |path|
  {
    hide AclRejection, Sealed, Keeps;
    if path != [] {
      ChainKept(fs, fs', sys, names, cur);
      SameRoot(fs, fs', sys);
      if path[0] == RootDir {
        RootTrusted(fs, sys, names, cur);
        JudgeKept(fs, fs', sys, [], fs.root, path[1..], links);
      } else if path[0] == CurDir {
        JudgeKept(fs, fs', sys, names, cur, path[1..], links);
      } else if path[0] == ParentDir {
        JudgeKept(fs, fs', sys, Pop(names), fs.nodes[cur].parent, path[1..], links);
      } else {
        var n := path[0].name;
        var x := Entry(fs, cur, n);
        assert x in Passed(fs, cur, path, links);
        EntryKept(fs, fs', sys, names, cur, n);
        if fs.nodes[x].Link? {
          JudgeKept(fs, fs', sys, names, cur, fs.nodes[x].target + path[1..], links - 1);
        } else {
          JudgeKept(fs, fs', sys, names + [n], x, path[1..], links);
        }
      }
    }
  }

  lemma SameRoot(fs: Fs, fs': Fs, sys: System)
    requires Keeps(fs, fs', sys)
    ensures fs'.root == fs.root
  {
  }

  lemma {:induction false} RootTrusted(fs: Fs, sys: System, names: seq<string>, c: Ino)
    requires TrustedChain(fs, sys, names, c)
    ensures TrustedChain(fs, sys, [], fs.root) || !IsDir(fs, fs.root)
    decreases |names|
  {
    if names != [] {
      RootTrusted(fs, sys, names[..|names| - 1], fs.nodes[c].parent);
    }
  }

  datatype Event = Event(who: Account, action: Action)

  /** `fs'` is reached from `fs` by foreign accounts doing what they are allowed to. */
  ghost predicate ForeignRun(fs: Fs, sys: System, run: seq<Event>, fs': Fs)
    decreases |run|
  {
    if run == [] then fs' == fs
    else Foreign(sys, run[0].who) && Allowed(fs, run[0].who, run[0].action)
         && ForeignRun(Apply(fs, run[0].who, run[0].action), sys, run[1..], fs')
  }

  lemma AcceptedIsJudged(fs: Fs, sys: System, dir: Path, i: Ino)
    ensures Accepted(fs, sys, dir, i)
            <==> Trusted(fs, sys, fs.root)
                 && Judge(fs, sys, fs.root, dir, MAX_ANCESTRY_SYMLINKS).Accept?
                 && Judge(fs, sys, fs.root, dir, MAX_ANCESTRY_SYMLINKS).ino == i
  {
    forall left, j {
      AcceptIsTrustedResolution(fs, sys, fs.root, dir, MAX_ANCESTRY_SYMLINKS, j, left);
    }
  }

  /** The lasting check: with the links of the path sealed, after every run of foreign
      steps it still resolves to the directory that was accepted, and is accepted. */
  lemma {:induction false} AcceptanceLasts(fs: Fs, sys: System, dir: Path, i: Ino, run: seq<Event>, fs': Fs)
    requires WellFormed(fs) && Accepted(fs, sys, dir, i) && ForeignRun(fs, sys, run, fs')
    requires LinksSealed(fs, sys, fs.root, dir, MAX_ANCESTRY_SYMLINKS)
    ensures WellFormed(fs') && Accepted(fs', sys, dir, i)
    decreases |run|
  {
    hide LinksSealed, Keeps, Judge;
    if run != [] {
      var who, action := run[0].who, run[0].action;
      var next := Apply(fs, who, action);
      StepKeeps(fs, sys, who, action);
      StepWellFormed(fs, who, action);
      AcceptedIsJudged(fs, sys, dir, i);
      SameRoot(fs, next, sys);
      RootChain(fs, sys);
      RootChain(next, sys);
      JudgeKept(fs, next, sys, [], fs.root, dir, MAX_ANCESTRY_SYMLINKS);
      ChainKept(fs, next, sys, [], fs.root);
      AcceptedIsJudged(next, sys, dir, i);
      AcceptanceLasts(next, sys, dir, i, run[1..], fs');
    }
  }

  // What is accepted

  /** No foreign account is offered one of the rights. */
  ghost predicate GrantsNobody(sys: System, node: Node, rights: set<string>) {
    forall who :: Foreign(sys, who) ==> !AclMayGrant(node, who, rights)
  }

  /** An entry that grants a mutation right to others does so to some foreign account. */
  lemma GrantedIsForeign(sys: System, node: Node, a: Ace) returns (who: Account)
    requires node.Directory? && node.acl.Some? && a in node.acl.value && GrantsMutation(a, sys.euid)
    ensures Foreign(sys, who)
    ensures AclMayGrant(node, who, CHANGE_RIGHTS) || AclMayGrant(node, who, TAKEOVER_RIGHTS)
  {
    who := Account(if a.kind == User && a.id.Some? then a.id.value else sys.euid + 1, {});
    RightsCovered();
    assert Offers(a, CHANGE_RIGHTS) || Offers(a, TAKEOVER_RIGHTS);
  }

  lemma AclAcceptedIff(sys: System, node: Node)
    requires node.Directory? && WellFormedAcl(node)
    ensures (node.acl.Some? ==> AclRejection(RenderAcl(node.acl.value), sys.euid).None?)
            <==> GrantsNobody(sys, node, CHANGE_RIGHTS) && GrantsNobody(sys, node, TAKEOVER_RIGHTS)
  {
    hide AclRejection, RenderAcl;
    if node.acl.Some? {
      AclJudged(node.acl.value, sys.euid);
      if a :| a in node.acl.value && GrantsMutation(a, sys.euid) {
        var who := GrantedIsForeign(sys, node, a);
      } else {
        RightsCovered();
      }
    }
  }

  /** The write bits of a directory are refused exactly when they are somebody's who is
      foreign: the group's too, unless it is the account's own private one. */
  lemma BitsAcceptedIff(fs: Fs, sys: System, d: Ino)
    requires IsDir(fs, d) && (fs.nodes[d].owner == sys.euid || fs.nodes[d].owner == 0)
    requires GrantsNobody(sys, fs.nodes[d], CHANGE_RIGHTS)
    ensures var node := fs.nodes[d];
            node.mode.worldWrite || (node.mode.groupWrite && !GroupWriteIsPrivate(sys, node.group, node.posixAcl))
            <==> exists who :: Foreign(sys, who) && MayWrite(fs, who, d)
  {
    var node := fs.nodes[d];
    var member := Account(sys.euid + 1, {node.group});
    if node.mode.worldWrite {
      assert Foreign(sys, Account(sys.euid + 1, {})) && MayWrite(fs, Account(sys.euid + 1, {}), d);
    } else if node.mode.groupWrite && node.posixAcl {
      assert Foreign(sys, Account(sys.euid + 1, {})) && MayWrite(fs, Account(sys.euid + 1, {}), d);
    } else if node.mode.groupWrite && !GroupWriteIsPrivate(sys, node.group, node.posixAcl) {
      assert Foreign(sys, member) && MayWrite(fs, member, d);
    }
  }

  /** What the walk trusts, in terms of what others may do: a directory of corvex or
      root that offers no foreign account a right to change it and is sticky or
      writable by none; a link of corvex or root; never a plain file. */
  lemma TrustedIff(fs: Fs, sys: System, i: Ino)
    requires i in fs.nodes && WellFormedAcl(fs.nodes[i])
    ensures Trusted(fs, sys, i)
            <==> var node := fs.nodes[i];
                 && !node.File? && (node.owner == sys.euid || node.owner == 0)
                 && (node.Directory? ==>
                       && GrantsNobody(sys, node, CHANGE_RIGHTS) && GrantsNobody(sys, node, TAKEOVER_RIGHTS)
                       && (node.mode.sticky || forall who :: Foreign(sys, who) ==> !MayWrite(fs, who, i)))
  {
    hide AclRejection, Foreign, AclMayGrant, GroupWriteIsPrivate;
    var node := fs.nodes[i];
    if node.Directory? && (node.owner == sys.euid || node.owner == 0) {
      AclAcceptedIff(sys, node);
      if GrantsNobody(sys, node, CHANGE_RIGHTS) {
        hide MayWrite, GrantsNobody;
        BitsAcceptedIff(fs, sys, i);
      }
    }
  }

  /** And an owner is one of the two exactly when it is nobody foreign. */
  lemma OwnerIsForeignIff(sys: System, owner: nat)
    ensures owner == sys.euid || owner == 0 <==> forall who :: Foreign(sys, who) ==> who.uid != owner
  {
    if owner != sys.euid && owner != 0 { assert Foreign(sys, Account(owner, {})); }
  }

  // What is needed for it

  /** Resolution looks up the name `n` in directory `c`. */
  ghost predicate LooksUp(fs: Fs, cur: Ino, path: Path, links: nat, c: Ino, n: string)
    decreases links, |path|
  {
    if path == [] then false
    else if path[0] == RootDir then LooksUp(fs, fs.root, path[1..], links, c, n)
    else if !IsDir(fs, cur) then false
    else match path[0]
      case CurDir => LooksUp(fs, cur, path[1..], links, c, n)
      case ParentDir => LooksUp(fs, fs.nodes[cur].parent, path[1..], links, c, n)
      case Normal(m) =>
        HasEntry(fs, cur, m) && Entry(fs, cur, m) in fs.nodes
        && ((cur == c && m == n)
            || match fs.nodes[Entry(fs, cur, m)]
               case Link(_, target, _) => links > 0 && LooksUp(fs, cur, target + path[1..], links - 1, c, n)
               case _ => LooksUp(fs, Entry(fs, cur, m), path[1..], links, c, n))
  }

  lemma {:induction false} PassedIsLookedUp(fs: Fs, cur: Ino, path: Path, links: nat, x: Ino)
    returns (c: Ino, n: string)
    requires x in Passed(fs, cur, path, links)
    ensures LooksUp(fs, cur, path, links, c, n) && HasEntry(fs, c, n) && Entry(fs, c, n) == x && x in fs.nodes
    decreases links, |path|
  {
    match path[0]
    case RootDir => c, n := PassedIsLookedUp(fs, fs.root, path[1..], links, x);
    case CurDir => c, n := PassedIsLookedUp(fs, cur, path[1..], links, x);
    case ParentDir => c, n := PassedIsLookedUp(fs, fs.nodes[cur].parent, path[1..], links, x);
    case Normal(m) =>
      var i := Entry(fs, cur, m);
      if i == x {
        c, n := cur, m;
      } else if fs.nodes[i].Link? {
        c, n := PassedIsLookedUp(fs, cur, fs.nodes[i].target + path[1..], links - 1, x);
      } else {
        c, n := PassedIsLookedUp(fs, i, path[1..], links, x);
      }
  }

  /** Without an entry it looks up, a path leads nowhere. */
  lemma {:induction false} DroppedIsLost(fs: Fs, cur: Ino, path: Path, links: nat, c: Ino, n: string)
    requires HasEntry(fs, c, n) && LooksUp(fs, cur, path, links, c, n)
    ensures Resolve(Drop(fs, c, n), cur, path, links) == NotFound
    decreases links, |path|
  {
    var f := Drop(fs, c, n);
    assert IsDir(f, cur) <==> IsDir(fs, cur);
    match path[0]
    case RootDir => DroppedIsLost(fs, fs.root, path[1..], links, c, n);
    case CurDir => DroppedIsLost(fs, cur, path[1..], links, c, n);
    case ParentDir => DroppedIsLost(fs, fs.nodes[cur].parent, path[1..], links, c, n);
    case Normal(m) =>
      if cur == c && m == n {
        assert !HasEntry(f, cur, m);
      } else {
        var i := Entry(fs, cur, m);
        assert HasEntry(f, cur, m) && Entry(f, cur, m) == i && i in f.nodes;
        if fs.nodes[i].Link? {
          assert f.nodes[i] == fs.nodes[i];
          DroppedIsLost(fs, cur, fs.nodes[i].target + path[1..], links - 1, c, n);
        } else {
          assert !f.nodes[i].Link?;
          DroppedIsLost(fs, i, path[1..], links, c, n);
        }
      }
  }

  /** Where a foreign account may unlink an entry that the path looks up, be it a
      directory of the chain or a link, one step of it leaves the path leading
      nowhere. */
  lemma UnlinkableAncestorIsLost(fs: Fs, who: Account, dir: Path, links: nat, c: Ino, n: string)
    requires LooksUp(fs, fs.root, dir, links, c, n) && MayUnlink(fs, who, c, n)
    ensures Allowed(fs, who, Unlink(c, n))
    ensures Resolve(Apply(fs, who, Unlink(c, n)), fs.root, dir, links) == NotFound
  {
    DroppedIsLost(fs, fs.root, dir, links, c, n);
  }

  /** An unsealed link of an accepted path can be taken away in one foreign step. */
  lemma UnsealedIsLost(fs: Fs, sys: System, dir: Path, i: Ino, x: Ino) returns (e: Event)
    requires Accepted(fs, sys, dir, i)
    requires x in Passed(fs, fs.root, dir, MAX_ANCESTRY_SYMLINKS) && x in fs.nodes && !Sealed(sys, fs.nodes[x])
    ensures Foreign(sys, e.who) && Allowed(fs, e.who, e.action)
    ensures !Accepted(Apply(fs, e.who, e.action), sys, dir, i)
  {
    hide Judge, AclRejection, Passed, LooksUp;
    var c, n := PassedIsLookedUp(fs, fs.root, dir, MAX_ANCESTRY_SYMLINKS, x);
    var a :| a in fs.nodes[x].acl.value && Offers(a, TAKEOVER_RIGHTS)
             && !(a.kind == User && (a.id == Some(sys.euid) || a.id == Some(0)));
    var who := Account(if a.kind == User && a.id.Some? then a.id.value else sys.euid + 1, {});
    assert AclMayGrant(fs.nodes[x], who, TAKEOVER_RIGHTS);
    UnlinkableAncestorIsLost(fs, who, dir, MAX_ANCESTRY_SYMLINKS, c, n);
    e := Event(who, Unlink(c, n));
  }

  /** Whatever other accounts do, `dir` stays accepted as `i`. */
  ghost predicate Lasts(fs: Fs, sys: System, dir: Path, i: Ino) {
    forall run, fs' :: ForeignRun(fs, sys, run, fs') ==> Accepted(fs', sys, dir, i)
  }

  /** Acceptance lasts through everything other accounts may do exactly when no link
      of the path carries an ACL that offers to take it over. */
  lemma AcceptanceLastsIff(fs: Fs, sys: System, dir: Path, i: Ino)
    requires WellFormed(fs) && Accepted(fs, sys, dir, i)
    ensures Lasts(fs, sys, dir, i) <==> LinksSealed(fs, sys, fs.root, dir, MAX_ANCESTRY_SYMLINKS)
  {
    hide Accepted, Apply, Foreign, Sealed, WellFormed, Passed;
    if LinksSealed(fs, sys, fs.root, dir, MAX_ANCESTRY_SYMLINKS) {
      forall run, fs' | ForeignRun(fs, sys, run, fs') ensures Accepted(fs', sys, dir, i) {
        AcceptanceLasts(fs, sys, dir, i, run, fs');
      }
    } else {
      var x :| x in Passed(fs, fs.root, dir, MAX_ANCESTRY_SYMLINKS) && x in fs.nodes && !Sealed(sys, fs.nodes[x]);
      var e := UnsealedIsLost(fs, sys, dir, i, x);
      var lost := Apply(fs, e.who, e.action);
      assert [e][1..] == [];
      assert ForeignRun(fs, sys, [e], lost);
    }
  }
}
