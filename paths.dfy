/** The string arithmetic of the backup: resource paths are built with
    `'{0}/{1}'.format`, the file a resource is saved to is the path with its
    first 11 characters cut off plus `.yml`, joined to the root directory the
    way `os.path.join` does, and the log prefix of a sub-task is the part of
    its path below the parent's. */
module Paths {

  /** The top-level segment every saved resource path starts with; its length
      is the 11 the file name computation cuts off. */
  const ApiPrefix: string := "/telephony/"

  /** Python's slice `s[k:]`: empty when `k` is past the end. */
  function Drop(s: string, k: nat): string {
    if k <= |s| then s[k..] else []
  }

  /** `'{0}/{1}'.format(a, b)`. */
  function PathJoin(a: string, b: string): string {
    a + "/" + b
  }

  /** `'{0}.yml'.format(path[11:])`: the output file, relative to the root. */
  function DataFile(path: string): string {
    Drop(path, 11) + ".yml"
  }

  /** `os.path.join(a, b)` on POSIX: an absolute `b` replaces `a`; otherwise a
      separator is added unless `a` is empty or already ends in one. */
  function OsJoin(a: string, b: string): string {
    if |b| > 0 && b[0] == '/' then b
    else if a == [] || a[|a| - 1] == '/' then a + b
    else a + "/" + b
  }

  /** `os.path.join(rootdir, data_file)`: where the document of `path` is written. */
  function Destination(rootdir: string, path: string): string {
    OsJoin(rootdir, DataFile(path))
  }

  /** The index of the last '/' in `p`, or -1 if there is none. */
  function LastSlash(p: string): (i: int)
    ensures -1 <= i < |p|
    ensures 0 <= i ==> p[i] == '/'
    ensures forall j :: i < j < |p| ==> p[j] != '/'
  {
    if p == [] then -1
    else if p[|p| - 1] == '/' then |p| - 1
    else LastSlash(p[..|p| - 1])
  }

  predicate AllSlashes(s: string) {
    forall j :: 0 <= j < |s| ==> s[j] == '/'
  }

  /** `s.rstrip('/')`. */
  function RStripSlashes(s: string): (r: string)
    ensures r <= s
    ensures r == [] || r[|r| - 1] != '/'
    ensures forall j :: |r| <= j < |s| ==> s[j] == '/'
  {
    if s != [] && s[|s| - 1] == '/' then RStripSlashes(s[..|s| - 1]) else s
  }

  /** `os.path.dirname(p)` on POSIX: everything before the last '/', with
      trailing slashes removed unless that leaves nothing but slashes. */
  function DirName(p: string): string {
    var head := p[..LastSlash(p) + 1];
    if head != [] && !AllSlashes(head) then RStripSlashes(head) else head
  }

  /** `os.path.dirname(p)` is a prefix of `p`. */
  lemma DirNamePrefix(p: string)
    ensures DirName(p) <= p
  {
    var head := p[..LastSlash(p) + 1];
    assert head <= p;
    if head != [] && !AllSlashes(head) {
      var r := RStripSlashes(head);
      assert r <= head;
      assert r == p[..|r|];
    }
  }

  /** The directories that exist after `os.makedirs(d)` has made `d`: `d`
      itself and, going up with `dirname`, each parent that is not empty
      and not its own parent. */
  function Ancestors(d: string): (ds: set<string>)
    ensures d in ds
    ensures forall a | a in ds :: a <= d
    decreases |d|
  {
    var p := DirName(d);
    if p != [] && |p| < |d| then
      DirNamePrefix(d);
      {d} + Ancestors(p)
    else {d}
  }

  /** The parents of a directory that `os.makedirs` provides are provided by
      the same call: the set is closed under going up. */
  lemma {:induction false} AncestorsClosed(d: string, a: string)
    requires a in Ancestors(d)
    ensures Ancestors(a) <= Ancestors(d)
    decreases |d|
  {
    var p := DirName(d);
    if a != d && p != [] && |p| < |d| {
      AncestorsClosed(p, a);
    }
  }

  /** Making `dir/name` makes `dir` too. */
  lemma ParentMade(dir: string, name: string)
    requires dir != [] && dir[|dir| - 1] != '/'
    requires forall j :: 0 <= j < |name| ==> name[j] != '/'
    ensures dir in Ancestors(dir + "/" + name)
  {
    DirNameOfJoin(dir, name);
  }

  /** `root[len(k)+1:]`: the log prefix of the sub-task at `root` below `k`. */
  function LogPrefix(k: string, root: string): string {
    Drop(root, |k| + 1)
  }

  /** `u` lies strictly below `path` in the resource tree. */
  predicate Under(path: string, u: string) {
    |path| < |u| && u[..|path| + 1] == path + "/"
  }

  /** The fixed offset 11 is the length of the API prefix: for a path that
      starts with it, the file name is the rest of the path plus `.yml`. */
  lemma DataFileStripsPrefix(path: string)
    requires ApiPrefix <= path
    ensures DataFile(path) == path[|ApiPrefix|..] + ".yml"
  {
  }

  /** The resource path can be recovered from the file name. */
  lemma DataFileRoundTrip(path: string)
    requires ApiPrefix <= path
    ensures var f := DataFile(path);
      |f| >= 4 && f[|f| - 4..] == ".yml" && ApiPrefix + f[..|f| - 4] == path
  {
    var f := DataFile(path);
    DataFileStripsPrefix(path);
    assert f[..|f| - 4] == path[|ApiPrefix|..];
  }

  /** For `"/telephony/" + rest` and a root without a trailing separator, the
      document goes to `rootdir/rest.yml`. */
  lemma DestinationBelowRoot(rootdir: string, rest: string)
    requires rootdir != [] && rootdir[|rootdir| - 1] != '/'
    requires rest == [] || rest[0] != '/'
    ensures Destination(rootdir, ApiPrefix + rest) == rootdir + "/" + rest + ".yml"
  {
    DataFileStripsPrefix(ApiPrefix + rest);
    assert (ApiPrefix + rest)[|ApiPrefix|..] == rest;
  }

  /** `os.path.join` drops the root when the rest of the path is absolute:
      a path `"/telephony//x"` is written to `/x.yml`, whatever the root. */
  lemma DestinationOfAbsoluteRest(rootdir: string, rest: string)
    requires rest != [] && rest[0] == '/'
    ensures Destination(rootdir, ApiPrefix + rest) == rest + ".yml"
  {
    DataFileStripsPrefix(ApiPrefix + rest);
    assert (ApiPrefix + rest)[|ApiPrefix|..] == rest;
  }

  /** The directory created for a file is the directory it was joined to. */
  lemma DirNameOfJoin(dir: string, name: string)
    requires dir != [] && dir[|dir| - 1] != '/'
    requires forall j :: 0 <= j < |name| ==> name[j] != '/'
    ensures DirName(dir + "/" + name) == dir
  {
    var p := dir + "/" + name;
    var i := LastSlash(p);
    assert p[|dir|] == '/';
    assert i == |dir|;
    var head := p[..i + 1];
    assert head == dir + "/";
    assert head[|dir| - 1] != '/';
    assert !AllSlashes(head);
    assert RStripSlashes(head) == RStripSlashes(dir);
  }

  /** The log prefix of a child is the child's name. */
  lemma ChildLogPrefix(k: string, child: string)
    ensures LogPrefix(k, PathJoin(k, child)) == child
  {
    assert PathJoin(k, child)[|k| + 1..] == child;
  }

  /** The log prefix of a list member is `list/member`. */
  lemma MemberLogPrefix(k: string, list: string, member: string)
    ensures LogPrefix(k, PathJoin(PathJoin(k, list), member)) == PathJoin(list, member)
  {
    assert PathJoin(PathJoin(k, list), member)[|k| + 1..] == PathJoin(list, member);
  }

  lemma UnderJoin(path: string, name: string)
    ensures Under(path, PathJoin(path, name))
  {
    assert PathJoin(path, name)[..|path| + 1] == path + "/";
  }

  /** What lies below a child lies below its parent. */
  lemma UnderTransitive(path: string, name: string, u: string)
    requires Under(PathJoin(path, name), u)
    ensures Under(path, u)
  {
    var c := PathJoin(path, name);
    assert u[..|path| + 1] == u[..|c| + 1][..|path| + 1];
    assert (c + "/")[..|path| + 1] == path + "/";
  }
}
