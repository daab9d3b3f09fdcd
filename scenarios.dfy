/** Concrete runs of the model on small inputs: the full trace of one walk
    and of one skipped group. */
module Scenarios {
  import opened Api
  import opened Schema
  import opened Paths
  import opened Trace
  import opened Walk

  /** The leaf `{'save': True}` is one save and nothing more. */
  lemma SavedLeaf(api: map<string, Response>, rootdir: string, p: string)
    ensures NodeTrace(api, rootdir, p, Saved) == SaveTrace(api, rootdir, p)
  {
    assert BodyTrace(api, rootdir, p, Saved) == [];
  }

  /** Two members of a list of leaves, the first present and the second gone. */
  lemma TwoMembers(api: map<string, Response>, rootdir: string, base: string, n: Node, s1: Value)
    requires |n.lists| > 0 && n.lists[0].node == Saved && Truthy(s1)
    requires Respond(api, PathJoin(base, "s1")) == Ok(s1)
    requires Respond(api, PathJoin(base, "s2")) == NotFound
    ensures MembersTrace(api, rootdir, base, n, 0, ["s1", "s2"], 2)
         == [Get(PathJoin(base, "s1")), Write(Destination(rootdir, PathJoin(base, "s1")), s1), Get(PathJoin(base, "s2"))]
  {
    var m1 := PathJoin(base, "s1");
    var m2 := PathJoin(base, "s2");
    SavedLeaf(api, rootdir, m1);
    SavedLeaf(api, rootdir, m2);
    var save1 := [Get(m1), Write(Destination(rootdir, m1), s1)];
    assert SaveTrace(api, rootdir, m1) == save1;
    assert SaveTrace(api, rootdir, m2) == [Get(m2)];
    assert MembersTrace(api, rootdir, base, n, 0, ["s1", "s2"], 1) == save1;
  }

  /** A hunting group with one list `sound` of two members, the second of
      which is gone: the group is saved, the list is requested, the first
      member is saved, the second is requested and skipped, and nothing
      else is done, whatever else the service holds. */
  lemma SoundListWalk(api: map<string, Response>, path: string, rootdir: string, doc: Value, s1: Value)
    requires Truthy(doc) && Truthy(s1)
    requires Respond(api, path) == Ok(doc)
    requires Respond(api, PathJoin(path, "sound")) == Ok(Listing(["s1", "s2"]))
    requires Respond(api, PathJoin(PathJoin(path, "sound"), "s1")) == Ok(s1)
    requires Respond(api, PathJoin(PathJoin(path, "sound"), "s2")) == NotFound
    ensures
      var sound := PathJoin(path, "sound");
      NodeTrace(api, rootdir, path, Node(true, [], [Entry("sound", Saved)]))
        == [ Get(path), Write(Destination(rootdir, path), doc),
             Get(sound),
             Get(PathJoin(sound, "s1")), Write(Destination(rootdir, PathJoin(sound, "s1")), s1),
             Get(PathJoin(sound, "s2")) ]
  {
    var n := Node(true, [], [Entry("sound", Saved)]);
    var sound := PathJoin(path, "sound");
    var m1 := PathJoin(sound, "s1");
    var m2 := PathJoin(sound, "s2");
    TwoMembers(api, rootdir, sound, n, s1);
    var members := [Get(m1), Write(Destination(rootdir, m1), s1), Get(m2)];
    assert ListTrace(api, rootdir, path, n, 0) == [Get(sound)] + members;
    assert ChildrenTrace(api, rootdir, path, n, 0) == [];
    assert ListsTrace(api, rootdir, path, n, 1) == [Get(sound)] + members;
    assert BodyTrace(api, rootdir, path, n) == [Get(sound)] + members;
    var self := [Get(path), Write(Destination(rootdir, path), doc)];
    assert SelfTrace(api, rootdir, path, n) == self;
    assert NodeTrace(api, rootdir, path, n) == self + ([Get(sound)] + members);
    assert self + ([Get(sound)] + members)
        == [Get(path), Write(Destination(rootdir, path), doc), Get(sound),
            Get(m1), Write(Destination(rootdir, m1), s1), Get(m2)];
  }

  /** A closed group: one request for its status, then nothing. */
  lemma ClosedGroupSkipped(rootdir: string, kinds: seq<Entry>)
    ensures
      var api := map[ApiPrefix + "G1" := Ok(Doc([Field("status", "closed")]))];
      GateRun(api, rootdir, "G1", StatusToSkip, kinds) == Run([Get(ApiPrefix + "G1")], Skipped)
  {
    var fields := [Field("status", "closed")];
    assert Lookup(fields, "status") == Some("closed");
  }
}
