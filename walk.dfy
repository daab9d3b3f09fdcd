/** What a backup run does, as a pure function of the service's answers: the
    ordered trace of requests and writes produced by the description-driven
    walk, by one resource type of a group, by a whole group and by the status
    gate in front of it; and the properties of those traces. */
module Walk {
  import opened Api
  import opened Schema
  import opened Paths
  import opened Trace

  /** One entry of a description dictionary: a concrete path and the node
      that says how to back it up. */
  datatype Target = Target(path: string, node: Node)

  /** How a group backup ends: normally, skipped by the status gate, or with
      an exception raised while handling the request for `url`. */
  datatype Outcome = Completed | Skipped | Raised(url: string)

  datatype Run = Run(events: seq<Event>, outcome: Outcome)

  /** `_save_data(path)`: one request; a write only when the answer is a
      non-empty value, to the file named after the path. */
  function SaveTrace(api: map<string, Response>, rootdir: string, path: string): seq<Event> {
    var data := Caught(Respond(api, path));
    [Get(path)] + if data.Some? && Truthy(data.value) then [Write(Destination(rootdir, path), data.value)] else []
  }

  function SelfTrace(api: map<string, Response>, rootdir: string, path: string, n: Node): seq<Event> {
    if n.save then SaveTrace(api, rootdir, path) else []
  }

  /** One node of the walk: its own save, then all children, then all lists. */
  function NodeTrace(api: map<string, Response>, rootdir: string, path: string, n: Node): seq<Event>
    decreases n
  {
    SelfTrace(api, rootdir, path, n) + BodyTrace(api, rootdir, path, n)
  }

  /** The descent below a node: everything except its own save. */
  function BodyTrace(api: map<string, Response>, rootdir: string, path: string, n: Node): seq<Event>
    decreases n, 2
  {
    ChildrenTrace(api, rootdir, path, n, |n.children|) + ListsTrace(api, rootdir, path, n, |n.lists|)
  }

  /** The first `i` children, each walked at `path/name`. */
  function ChildrenTrace(api: map<string, Response>, rootdir: string, path: string, n: Node, i: nat): seq<Event>
    requires i <= |n.children|
    decreases n, 1, i
  {
    if i == 0 then []
    else
      var c := n.children[i - 1];
      ChildrenTrace(api, rootdir, path, n, i - 1) + NodeTrace(api, rootdir, PathJoin(path, c.name), c.node)
  }

  /** The first `i` lists. */
  function ListsTrace(api: map<string, Response>, rootdir: string, path: string, n: Node, i: nat): seq<Event>
    requires i <= |n.lists|
    decreases n, 1, i
  {
    if i == 0 then [] else ListsTrace(api, rootdir, path, n, i - 1) + ListTrace(api, rootdir, path, n, i - 1)
  }

  /** List `j`: request `path/name`; unless the answer is missing or empty,
      walk every member at `path/name/member` with the list's node. */
  function ListTrace(api: map<string, Response>, rootdir: string, path: string, n: Node, j: nat): seq<Event>
    requires j < |n.lists|
    decreases n, 0
  {
    var base := PathJoin(path, n.lists[j].name);
    var data := Caught(Respond(api, base));
    [Get(base)] +
      if data.Some? && Truthy(data.value)
      then MembersTrace(api, rootdir, base, n, j, Iterate(data.value), |Iterate(data.value)|)
      else []
  }

  /** The first `i` members of list `j`. */
  function MembersTrace(api: map<string, Response>, rootdir: string, base: string, n: Node, j: nat,
                        ids: seq<string>, i: nat): seq<Event>
    requires j < |n.lists| && i <= |ids|
    decreases n, 0, i
  {
    if i == 0 then []
    else MembersTrace(api, rootdir, base, n, j, ids, i - 1) + NodeTrace(api, rootdir, PathJoin(base, ids[i - 1]), n.lists[j].node)
  }

  /** `_backup(description)`: the entries of the dictionary, in order. */
  function DescriptionTrace(api: map<string, Response>, rootdir: string, d: seq<Target>): seq<Event> {
    if d == [] then []
    else DescriptionTrace(api, rootdir, d[..|d| - 1]) + NodeTrace(api, rootdir, d[|d| - 1].path, d[|d| - 1].node)
  }

  /** The first `i` objects of one resource type, each walked from
      `url/id` with the type's description. */
  function ObjectsTrace(api: map<string, Response>, rootdir: string, url: string, kind: Node,
                        ids: seq<string>, i: nat): seq<Event>
    requires i <= |ids|
  {
    if i == 0 then []
    else ObjectsTrace(api, rootdir, url, kind, ids, i - 1) + NodeTrace(api, rootdir, PathJoin(url, ids[i - 1]), kind)
  }

  /** One resource type of a group: its listing is requested without
      protection, so a failure there raises. */
  function KindRun(api: map<string, Response>, rootdir: string, group: string, kind: Entry): Run {
    var url := PathJoin(ApiPrefix + group, kind.name);
    var r := Respond(api, url);
    if !r.Ok? then Run([Get(url)], Raised(url))
    else
      var ids := Iterate(r.value);
      Run([Get(url)] + ObjectsTrace(api, rootdir, url, kind.node, ids, |ids|), Completed)
  }

  /** The resource types from the `k`-th on, stopping at the first raise. */
  function GroupFrom(api: map<string, Response>, rootdir: string, group: string, kinds: seq<Entry>, k: nat): Run
    requires k <= |kinds|
    decreases |kinds| - k
  {
    if k == |kinds| then Run([], Completed)
    else
      var r := KindRun(api, rootdir, group, kinds[k]);
      if r.outcome.Raised? then r
      else
        var rest := GroupFrom(api, rootdir, group, kinds, k + 1);
        Run(r.events + rest.events, rest.outcome)
  }

  /** `backup_group` over the table `kinds` of resource types (the program's
      own table is `ResourceTypes`): every type, in order. */
  function GroupRun(api: map<string, Response>, rootdir: string, group: string, kinds: seq<Entry>): Run {
    GroupFrom(api, rootdir, group, kinds, 0)
  }

  /** The states of a group that are not backed up. */
  const StatusToSkip: seq<string> := ["closed", "expired"]

  datatype Decision = Skip | Proceed | Fail

  /** What `backup` does with the answer for the group itself: `data['status']`
      raises unless the answer is an object with a status. */
  function Gate(r: Response, skip: seq<string>): (d: Decision)
    ensures d == Skip <==>
      r.Ok? && r.value.Doc? && Lookup(r.value.fields, "status").Some? && Lookup(r.value.fields, "status").value in skip
    ensures d == Fail <==> !r.Ok? || r.value.Listing? || Lookup(r.value.fields, "status").None?
  {
    if !r.Ok? || r.value.Listing? then Fail
    else
      match Lookup(r.value.fields, "status")
      case None => Fail
      case Some(s) => if s in skip then Skip else Proceed
  }

  /** `backup`: the status request, then the group unless it is skipped. */
  function GateRun(api: map<string, Response>, rootdir: string, group: string, skip: seq<string>,
                   kinds: seq<Entry>): Run {
    var url := ApiPrefix + group;
    match Gate(Respond(api, url), skip)
    case Fail => Run([Get(url)], Raised(url))
    case Skip => Run([Get(url)], Skipped)
    case Proceed =>
      var g := GroupRun(api, rootdir, group, kinds);
      Run([Get(url)] + g.events, g.outcome)
  }

  /** A one-entry description, as every call of `_backup` passes, is the
      walk of that entry. */
  lemma SingleEntryDescription(api: map<string, Response>, rootdir: string, t: Target)
    ensures DescriptionTrace(api, rootdir, [t]) == NodeTrace(api, rootdir, t.path, t.node)
  {
    assert [t][..0] == [];
  }

  // ---------------------------------------------------------------------
  // Fetch only when asked

  /** A node that is not saved and has no children or lists costs nothing. */
  lemma EmptyNodeDoesNothing(api: map<string, Response>, rootdir: string, path: string)
    ensures NodeTrace(api, rootdir, path, Node(false, [], [])) == []
  {
  }

  /** Every request of a node's walk is its own path or lies below it. */
  ghost predicate Within(path: string, t: seq<Event>) {
    forall e | e in t && e.Get? :: e.url == path || Under(path, e.url)
  }

  /** Every request lies strictly below `path`. */
  ghost predicate Below(path: string, t: seq<Event>) {
    forall e | e in t && e.Get? :: Under(path, e.url)
  }

  lemma WithinChildIsBelow(path: string, name: string, t: seq<Event>)
    requires Within(PathJoin(path, name), t)
    ensures Below(path, t)
  {
    forall e | e in t && e.Get?
      ensures Under(path, e.url)
    {
      if e.url == PathJoin(path, name) {
        UnderJoin(path, name);
      } else {
        UnderTransitive(path, name, e.url);
      }
    }
  }

  lemma {:induction false} NodeWithin(api: map<string, Response>, rootdir: string, path: string, n: Node)
    ensures Within(path, NodeTrace(api, rootdir, path, n))
    decreases n
  {
    BodyBelow(api, rootdir, path, n);
  }

  lemma {:induction false} BodyBelow(api: map<string, Response>, rootdir: string, path: string, n: Node)
    ensures Below(path, BodyTrace(api, rootdir, path, n))
    decreases n, 2
  {
    ChildrenBelow(api, rootdir, path, n, |n.children|);
    ListsBelow(api, rootdir, path, n, |n.lists|);
  }

  lemma {:induction false} ChildrenBelow(api: map<string, Response>, rootdir: string, path: string, n: Node, i: nat)
    requires i <= |n.children|
    ensures Below(path, ChildrenTrace(api, rootdir, path, n, i))
    decreases n, 1, i
  {
    if i > 0 {
      var c := n.children[i - 1];
      ChildrenBelow(api, rootdir, path, n, i - 1);
      NodeWithin(api, rootdir, PathJoin(path, c.name), c.node);
      WithinChildIsBelow(path, c.name, NodeTrace(api, rootdir, PathJoin(path, c.name), c.node));
    }
  }

  lemma {:induction false} ListsBelow(api: map<string, Response>, rootdir: string, path: string, n: Node, i: nat)
    requires i <= |n.lists|
    ensures Below(path, ListsTrace(api, rootdir, path, n, i))
    decreases n, 1, i
  {
    if i > 0 {
      ListsBelow(api, rootdir, path, n, i - 1);
      ListBelow(api, rootdir, path, n, i - 1);
    }
  }

  lemma {:induction false} ListBelow(api: map<string, Response>, rootdir: string, path: string, n: Node, j: nat)
    requires j < |n.lists|
    ensures Below(path, ListTrace(api, rootdir, path, n, j))
    decreases n, 0
  {
    var name := n.lists[j].name;
    var base := PathJoin(path, name);
    var data := Caught(Respond(api, base));
    UnderJoin(path, name);
    if data.Some? && Truthy(data.value) {
      var ids := Iterate(data.value);
      MembersBelow(api, rootdir, base, n, j, ids, |ids|);
      WithinChildIsBelow(path, name, MembersTrace(api, rootdir, base, n, j, ids, |ids|));
    }
  }

  /** The members' requests lie strictly below the list's path. */
  lemma {:induction false} MembersBelow(api: map<string, Response>, rootdir: string, base: string, n: Node, j: nat,
                                        ids: seq<string>, i: nat)
    requires j < |n.lists| && i <= |ids|
    ensures Below(base, MembersTrace(api, rootdir, base, n, j, ids, i))
    decreases n, 0, i
  {
    if i > 0 {
      var m := PathJoin(base, ids[i - 1]);
      MembersBelow(api, rootdir, base, n, j, ids, i - 1);
      NodeWithin(api, rootdir, m, n.lists[j].node);
      WithinChildIsBelow(base, ids[i - 1], NodeTrace(api, rootdir, m, n.lists[j].node));
    }
  }

  /** A node's own path is requested exactly when its `save` flag is set. */
  lemma SelfFetchIffSave(api: map<string, Response>, rootdir: string, path: string, n: Node)
    ensures Get(path) in NodeTrace(api, rootdir, path, n) <==> n.save
  {
    BodyBelow(api, rootdir, path, n);
    assert !Under(path, path);
    if n.save {
      assert NodeTrace(api, rootdir, path, n)[0] == Get(path);
    }
  }

  /** The children loop only grows: the walk of the first `i` children is a
      prefix of the walk of the first `k`. */
  lemma {:induction false} ChildrenPrefix(api: map<string, Response>, rootdir: string, path: string, n: Node,
                                          i: nat, k: nat)
    requires i <= k <= |n.children|
    ensures ChildrenTrace(api, rootdir, path, n, i) <= ChildrenTrace(api, rootdir, path, n, k)
    decreases k - i
  {
    if i < k {
      ChildrenPrefix(api, rootdir, path, n, i, k - 1);
    }
  }

  /** Children are unconditional: a child that saves itself is requested at
      `path/name` whatever the service answered for its parent or for any
      other path. */
  lemma SavedChildAlwaysFetched(api: map<string, Response>, rootdir: string, path: string, n: Node, i: nat)
    requires i < |n.children| && n.children[i].node.save
    ensures Get(PathJoin(path, n.children[i].name)) in NodeTrace(api, rootdir, path, n)
  {
    var c := n.children[i];
    var child := NodeTrace(api, rootdir, PathJoin(path, c.name), c.node);
    SelfFetchIffSave(api, rootdir, PathJoin(path, c.name), c.node);
    var k := |n.children|;
    ChildrenPrefix(api, rootdir, path, n, i + 1, k);
    var before := ChildrenTrace(api, rootdir, path, n, i + 1);
    var all := ChildrenTrace(api, rootdir, path, n, k);
    var idx :| 0 <= idx < |child| && child[idx] == Get(PathJoin(path, c.name));
    var at := |ChildrenTrace(api, rootdir, path, n, i)| + idx;
    assert before[at] == Get(PathJoin(path, c.name));
    assert all[at] == before[at];
    var node := NodeTrace(api, rootdir, path, n);
    var self := SelfTrace(api, rootdir, path, n);
    var body := BodyTrace(api, rootdir, path, n);
    assert body[at] == all[at];
    assert node[|self| + at] == body[at];
  }

  /** Each list endpoint is requested exactly once, before any of its
      members; when its answer is missing or falsy, nothing else happens for
      that list. */
  lemma ListFetchedOnce(api: map<string, Response>, rootdir: string, path: string, n: Node, j: nat)
    requires j < |n.lists|
    ensures var t := ListTrace(api, rootdir, path, n, j);
      var base := PathJoin(path, n.lists[j].name);
      && t[0] == Get(base)
      && Get(base) !in t[1..]
      && (var data := Caught(Respond(api, base)); !(data.Some? && Truthy(data.value)) ==> t == [Get(base)])
  {
    var t := ListTrace(api, rootdir, path, n, j);
    var base := PathJoin(path, n.lists[j].name);
    var data := Caught(Respond(api, base));
    if data.Some? && Truthy(data.value) {
      var ids := Iterate(data.value);
      MembersBelow(api, rootdir, base, n, j, ids, |ids|);
      assert t[1..] == MembersTrace(api, rootdir, base, n, j, ids, |ids|);
      assert !Under(base, base);
    }
  }

  /** No empty files: `_save_data` writes exactly when the answer is a
      non-empty value; otherwise it leaves every file and directory as it was. */
  lemma NoEmptyFiles(api: map<string, Response>, rootdir: string, path: string, files: map<string, Value>)
    ensures var data := Caught(Respond(api, path));
      var t := SaveTrace(api, rootdir, path);
      && (data.Some? && Truthy(data.value) <==> |t| == 2)
      && (data.Some? && Truthy(data.value) ==> t[1] == Write(Destination(rootdir, path), data.value))
      && (!(data.Some? && Truthy(data.value)) ==> Replay(files, t) == files && CreatedDirs(t) == {})
  {
    var t := SaveTrace(api, rootdir, path);
    var data := Caught(Respond(api, path));
    if !(data.Some? && Truthy(data.value)) {
      assert t == [Get(path)];
      assert t[..0] == [];
    }
  }

  // ---------------------------------------------------------------------
  // Every write is a non-empty document just fetched from its own path

  /** Each write in `t` directly follows the request it saves: the service
      answered that request with the written, non-empty value, and the file
      is the one named after the requested path. */
  ghost predicate Justified(api: map<string, Response>, rootdir: string, t: seq<Event>) {
    forall i | 0 <= i < |t| && t[i].Write? :: WrittenAfterFetch(api, rootdir, t, i)
  }

  /** The write at `i` dumps the non-empty answer to the request just before
      it into that path's file. */
  ghost predicate WrittenAfterFetch(api: map<string, Response>, rootdir: string, t: seq<Event>, i: nat)
    requires i < |t| && t[i].Write?
  {
    && 0 < i
    && t[i - 1].Get?
    && Respond(api, t[i - 1].url) == Ok(t[i].doc)
    && Truthy(t[i].doc)
    && t[i].file == Destination(rootdir, t[i - 1].url)
  }


  lemma JustifiedAppend(api: map<string, Response>, rootdir: string, a: seq<Event>, b: seq<Event>)
    requires Justified(api, rootdir, a) && Justified(api, rootdir, b)
    ensures Justified(api, rootdir, a + b)
  {
    var t := a + b;
    forall i | 0 <= i < |t| && t[i].Write?
      ensures WrittenAfterFetch(api, rootdir, t, i)
    {
      if i < |a| {
        assert WrittenAfterFetch(api, rootdir, a, i);
        assert t[i] == a[i] && t[i - 1] == a[i - 1];
      } else {
        assert WrittenAfterFetch(api, rootdir, b, i - |a|);
        assert t[i] == b[i - |a|] && t[i - 1] == b[i - |a| - 1];
      }
    }
  }

  lemma SaveJustified(api: map<string, Response>, rootdir: string, path: string)
    ensures Justified(api, rootdir, SaveTrace(api, rootdir, path))
  {
  }

  lemma {:induction false} NodeJustified(api: map<string, Response>, rootdir: string, path: string, n: Node)
    ensures Justified(api, rootdir, NodeTrace(api, rootdir, path, n))
    decreases n
  {
    SaveJustified(api, rootdir, path);
    BodyJustified(api, rootdir, path, n);
    JustifiedAppend(api, rootdir, SelfTrace(api, rootdir, path, n), BodyTrace(api, rootdir, path, n));
  }

  lemma {:induction false} BodyJustified(api: map<string, Response>, rootdir: string, path: string, n: Node)
    ensures Justified(api, rootdir, BodyTrace(api, rootdir, path, n))
    decreases n, 2
  {
    ChildrenJustified(api, rootdir, path, n, |n.children|);
    ListsJustified(api, rootdir, path, n, |n.lists|);
    JustifiedAppend(api, rootdir, ChildrenTrace(api, rootdir, path, n, |n.children|), ListsTrace(api, rootdir, path, n, |n.lists|));
  }

  lemma {:induction false} ChildrenJustified(api: map<string, Response>, rootdir: string, path: string, n: Node, i: nat)
    requires i <= |n.children|
    ensures Justified(api, rootdir, ChildrenTrace(api, rootdir, path, n, i))
    decreases n, 1, i
  {
    if i > 0 {
      var c := n.children[i - 1];
      ChildrenJustified(api, rootdir, path, n, i - 1);
      NodeJustified(api, rootdir, PathJoin(path, c.name), c.node);
      JustifiedAppend(api, rootdir, ChildrenTrace(api, rootdir, path, n, i - 1), NodeTrace(api, rootdir, PathJoin(path, c.name), c.node));
    }
  }

  lemma {:induction false} ListsJustified(api: map<string, Response>, rootdir: string, path: string, n: Node, i: nat)
    requires i <= |n.lists|
    ensures Justified(api, rootdir, ListsTrace(api, rootdir, path, n, i))
    decreases n, 1, i
  {
    if i > 0 {
      var before := ListsTrace(api, rootdir, path, n, i - 1);
      var last := ListTrace(api, rootdir, path, n, i - 1);
      ListsJustified(api, rootdir, path, n, i - 1);
      ListJustified(api, rootdir, path, n, i - 1);
      JustifiedAppend(api, rootdir, before, last);
      assert ListsTrace(api, rootdir, path, n, i) == before + last;
    }
  }

  lemma {:induction false} ListJustified(api: map<string, Response>, rootdir: string, path: string, n: Node, j: nat)
    requires j < |n.lists|
    ensures Justified(api, rootdir, ListTrace(api, rootdir, path, n, j))
    decreases n, 0
  {
    var base := PathJoin(path, n.lists[j].name);
    var data := Caught(Respond(api, base));
    if data.Some? && Truthy(data.value) {
      var ids := Iterate(data.value);
      MembersJustified(api, rootdir, base, n, j, ids, |ids|);
      JustifiedAppend(api, rootdir, [Get(base)], MembersTrace(api, rootdir, base, n, j, ids, |ids|));
    }
  }

  lemma {:induction false} MembersJustified(api: map<string, Response>, rootdir: string, base: string, n: Node, j: nat,
                                            ids: seq<string>, i: nat)
    requires j < |n.lists| && i <= |ids|
    ensures Justified(api, rootdir, MembersTrace(api, rootdir, base, n, j, ids, i))
    decreases n, 0, i
  {
    if i > 0 {
      var m := PathJoin(base, ids[i - 1]);
      MembersJustified(api, rootdir, base, n, j, ids, i - 1);
      NodeJustified(api, rootdir, m, n.lists[j].node);
      JustifiedAppend(api, rootdir, MembersTrace(api, rootdir, base, n, j, ids, i - 1), NodeTrace(api, rootdir, m, n.lists[j].node));
    }
  }

  // ---------------------------------------------------------------------
  // Failure isolation: a subtree's walk depends only on the answers for
  // paths at and below its root

  ghost predicate AgreeBelow(api1: map<string, Response>, api2: map<string, Response>, path: string) {
    forall u :: Under(path, u) ==> Respond(api1, u) == Respond(api2, u)
  }

  lemma AgreeBelowChild(api1: map<string, Response>, api2: map<string, Response>, path: string, name: string)
    requires AgreeBelow(api1, api2, path)
    ensures AgreeBelow(api1, api2, PathJoin(path, name))
    ensures Respond(api1, PathJoin(path, name)) == Respond(api2, PathJoin(path, name))
  {
    UnderJoin(path, name);
    forall u | Under(PathJoin(path, name), u)
      ensures Respond(api1, u) == Respond(api2, u)
    {
      UnderTransitive(path, name, u);
    }
  }

  lemma {:induction false} NodeLocal(api1: map<string, Response>, api2: map<string, Response>, rootdir: string,
                                     path: string, n: Node)
    requires AgreeBelow(api1, api2, path) && Respond(api1, path) == Respond(api2, path)
    ensures NodeTrace(api1, rootdir, path, n) == NodeTrace(api2, rootdir, path, n)
    decreases n
  {
    BodyLocal(api1, api2, rootdir, path, n);
  }

  lemma {:induction false} BodyLocal(api1: map<string, Response>, api2: map<string, Response>, rootdir: string,
                                     path: string, n: Node)
    requires AgreeBelow(api1, api2, path)
    ensures BodyTrace(api1, rootdir, path, n) == BodyTrace(api2, rootdir, path, n)
    decreases n, 2
  {
    ChildrenLocal(api1, api2, rootdir, path, n, |n.children|);
    ListsLocal(api1, api2, rootdir, path, n, |n.lists|);
  }

  lemma {:induction false} ChildrenLocal(api1: map<string, Response>, api2: map<string, Response>, rootdir: string,
                                         path: string, n: Node, i: nat)
    requires AgreeBelow(api1, api2, path) && i <= |n.children|
    ensures ChildrenTrace(api1, rootdir, path, n, i) == ChildrenTrace(api2, rootdir, path, n, i)
    decreases n, 1, i
  {
    if i > 0 {
      var c := n.children[i - 1];
      ChildrenLocal(api1, api2, rootdir, path, n, i - 1);
      AgreeBelowChild(api1, api2, path, c.name);
      NodeLocal(api1, api2, rootdir, PathJoin(path, c.name), c.node);
    }
  }

  lemma {:induction false} ListsLocal(api1: map<string, Response>, api2: map<string, Response>, rootdir: string,
                                      path: string, n: Node, i: nat)
    requires AgreeBelow(api1, api2, path) && i <= |n.lists|
    ensures ListsTrace(api1, rootdir, path, n, i) == ListsTrace(api2, rootdir, path, n, i)
    decreases n, 1, i
  {
    if i > 0 {
      ListsLocal(api1, api2, rootdir, path, n, i - 1);
      ListLocal(api1, api2, rootdir, path, n, i - 1);
    }
  }

  lemma {:induction false} ListLocal(api1: map<string, Response>, api2: map<string, Response>, rootdir: string,
                                     path: string, n: Node, j: nat)
    requires AgreeBelow(api1, api2, path) && j < |n.lists|
    ensures ListTrace(api1, rootdir, path, n, j) == ListTrace(api2, rootdir, path, n, j)
    decreases n, 0
  {
    var base := PathJoin(path, n.lists[j].name);
    AgreeBelowChild(api1, api2, path, n.lists[j].name);
    var data := Caught(Respond(api1, base));
    if data.Some? && Truthy(data.value) {
      var ids := Iterate(data.value);
      MembersLocal(api1, api2, rootdir, base, n, j, ids, |ids|);
    }
  }

  lemma {:induction false} MembersLocal(api1: map<string, Response>, api2: map<string, Response>, rootdir: string,
                                        base: string, n: Node, j: nat, ids: seq<string>, i: nat)
    requires AgreeBelow(api1, api2, base) && j < |n.lists| && i <= |ids|
    ensures MembersTrace(api1, rootdir, base, n, j, ids, i) == MembersTrace(api2, rootdir, base, n, j, ids, i)
    decreases n, 0, i
  {
    if i > 0 {
      MembersLocal(api1, api2, rootdir, base, n, j, ids, i - 1);
      AgreeBelowChild(api1, api2, base, ids[i - 1]);
      NodeLocal(api1, api2, rootdir, PathJoin(base, ids[i - 1]), n.lists[j].node);
    }
  }

  /** Children and lists are walked the same whatever the node's own request
      returned: a missing or failing node does not stop the descent below it. */
  lemma DescentIgnoresOwnResponse(api: map<string, Response>, rootdir: string, path: string, n: Node, r: Response)
    ensures BodyTrace(api[path := r], rootdir, path, n) == BodyTrace(api, rootdir, path, n)
  {
    forall u | Under(path, u)
      ensures Respond(api[path := r], u) == Respond(api, u)
    {
      assert u != path;
    }
    BodyLocal(api[path := r], api, rootdir, path, n);
  }

  /** A request that fails is treated like a missing resource: the walk is
      the same whether the service says not-found, bad-parameters or raises
      anything else, and whether the path is absent altogether. */
  lemma {:induction false} FailuresAreAlike(api: map<string, Response>, rootdir: string, path: string, n: Node,
                                            u: string, r: Response)
    requires !r.Ok?
    ensures NodeTrace(api[u := r], rootdir, path, n) == NodeTrace(api - {u}, rootdir, path, n)
    decreases n
  {
    FailuresAreAlikeBody(api, rootdir, path, n, u, r);
  }

  lemma {:induction false} FailuresAreAlikeBody(api: map<string, Response>, rootdir: string, path: string, n: Node,
                                                u: string, r: Response)
    requires !r.Ok?
    ensures BodyTrace(api[u := r], rootdir, path, n) == BodyTrace(api - {u}, rootdir, path, n)
    decreases n, 2
  {
    FailuresAreAlikeChildren(api, rootdir, path, n, u, r, |n.children|);
    FailuresAreAlikeLists(api, rootdir, path, n, u, r, |n.lists|);
  }

  lemma {:induction false} FailuresAreAlikeChildren(api: map<string, Response>, rootdir: string, path: string, n: Node,
                                                    u: string, r: Response, i: nat)
    requires !r.Ok? && i <= |n.children|
    ensures ChildrenTrace(api[u := r], rootdir, path, n, i) == ChildrenTrace(api - {u}, rootdir, path, n, i)
    decreases n, 1, i
  {
    if i > 0 {
      var c := n.children[i - 1];
      FailuresAreAlikeChildren(api, rootdir, path, n, u, r, i - 1);
      FailuresAreAlike(api, rootdir, PathJoin(path, c.name), c.node, u, r);
    }
  }

  lemma {:induction false} FailuresAreAlikeLists(api: map<string, Response>, rootdir: string, path: string, n: Node,
                                                 u: string, r: Response, i: nat)
    requires !r.Ok? && i <= |n.lists|
    ensures ListsTrace(api[u := r], rootdir, path, n, i) == ListsTrace(api - {u}, rootdir, path, n, i)
    decreases n, 1, i
  {
    if i > 0 {
      FailuresAreAlikeLists(api, rootdir, path, n, u, r, i - 1);
      FailuresAreAlikeList(api, rootdir, path, n, u, r, i - 1);
    }
  }

  lemma {:induction false} FailuresAreAlikeList(api: map<string, Response>, rootdir: string, path: string, n: Node,
                                                u: string, r: Response, j: nat)
    requires !r.Ok? && j < |n.lists|
    ensures ListTrace(api[u := r], rootdir, path, n, j) == ListTrace(api - {u}, rootdir, path, n, j)
    decreases n, 0
  {
    var base := PathJoin(path, n.lists[j].name);
    assert Caught(Respond(api[u := r], base)) == Caught(Respond(api - {u}, base));
    var data := Caught(Respond(api - {u}, base));
    if data.Some? && Truthy(data.value) {
      var ids := Iterate(data.value);
      FailuresAreAlikeMembers(api, rootdir, base, n, j, u, r, ids, |ids|);
    }
  }

  lemma {:induction false} FailuresAreAlikeMembers(api: map<string, Response>, rootdir: string, base: string, n: Node,
                                                   j: nat, u: string, r: Response, ids: seq<string>, i: nat)
    requires !r.Ok? && j < |n.lists| && i <= |ids|
    ensures MembersTrace(api[u := r], rootdir, base, n, j, ids, i) == MembersTrace(api - {u}, rootdir, base, n, j, ids, i)
    decreases n, 0, i
  {
    if i > 0 {
      FailuresAreAlikeMembers(api, rootdir, base, n, j, u, r, ids, i - 1);
      FailuresAreAlike(api, rootdir, PathJoin(base, ids[i - 1]), n.lists[j].node, u, r);
    }
  }

  // ---------------------------------------------------------------------
  // The group level

  /** A group whose status is closed or expired costs one request and
      writes nothing. */
  lemma SkippedGroupOnlyAsksStatus(api: map<string, Response>, rootdir: string, group: string,
                                   kinds: seq<Entry>, fields: seq<Field>, status: string)
    requires Respond(api, ApiPrefix + group) == Ok(Doc(fields))
    requires Lookup(fields, "status") == Some(status) && status in StatusToSkip
    ensures GateRun(api, rootdir, group, StatusToSkip, kinds) == Run([Get(ApiPrefix + group)], Skipped)
    ensures Requests(GateRun(api, rootdir, group, StatusToSkip, kinds).events) == [ApiPrefix + group]
  {
  }

  /** Every file a whole group run writes is justified as in the walk. */
  lemma GateJustified(api: map<string, Response>, rootdir: string, group: string, skip: seq<string>,
                      kinds: seq<Entry>)
    ensures Justified(api, rootdir, GateRun(api, rootdir, group, skip, kinds).events)
  {
    var url := ApiPrefix + group;
    if Gate(Respond(api, url), skip) == Proceed {
      GroupJustified(api, rootdir, group, kinds, 0);
      JustifiedAppend(api, rootdir, [Get(url)], GroupRun(api, rootdir, group, kinds).events);
    }
  }

  lemma {:induction false} GroupJustified(api: map<string, Response>, rootdir: string, group: string,
                                          kinds: seq<Entry>, k: nat)
    requires k <= |kinds|
    ensures Justified(api, rootdir, GroupFrom(api, rootdir, group, kinds, k).events)
    decreases |kinds| - k
  {
    if k < |kinds| {
      var kind := kinds[k];
      var url := PathJoin(ApiPrefix + group, kind.name);
      var r := Respond(api, url);
      if r.Ok? {
        var ids := Iterate(r.value);
        ObjectsJustified(api, rootdir, url, kind.node, ids, |ids|);
        JustifiedAppend(api, rootdir, [Get(url)], ObjectsTrace(api, rootdir, url, kind.node, ids, |ids|));
        GroupJustified(api, rootdir, group, kinds, k + 1);
        JustifiedAppend(api, rootdir, KindRun(api, rootdir, group, kind).events, GroupFrom(api, rootdir, group, kinds, k + 1).events);
      }
    }
  }

  lemma {:induction false} ObjectsJustified(api: map<string, Response>, rootdir: string, url: string, kind: Node,
                                            ids: seq<string>, i: nat)
    requires i <= |ids|
    ensures Justified(api, rootdir, ObjectsTrace(api, rootdir, url, kind, ids, i))
  {
    if i > 0 {
      ObjectsJustified(api, rootdir, url, kind, ids, i - 1);
      NodeJustified(api, rootdir, PathJoin(url, ids[i - 1]), kind);
      JustifiedAppend(api, rootdir, ObjectsTrace(api, rootdir, url, kind, ids, i - 1), NodeTrace(api, rootdir, PathJoin(url, ids[i - 1]), kind));
    }
  }

  /** A raise ends the group: the failing listing is the last request made. */
  lemma {:induction false} RaiseEndsGroup(api: map<string, Response>, rootdir: string, group: string,
                                          kinds: seq<Entry>, k: nat)
    requires k <= |kinds|
    ensures var run := GroupFrom(api, rootdir, group, kinds, k);
      run.outcome.Raised? ==>
        (|run.events| > 0 && run.events[|run.events| - 1] == Get(run.outcome.url) && !Respond(api, run.outcome.url).Ok?)
    decreases |kinds| - k
  {
    if k < |kinds| {
      RaiseEndsGroup(api, rootdir, group, kinds, k + 1);
    }
  }

  /** A group backup that completes has requested the listing of every
      resource type in the table. */
  lemma {:induction false} CompletedGroupListsEveryKind(api: map<string, Response>, rootdir: string, group: string,
                                                        kinds: seq<Entry>, k: nat)
    requires k <= |kinds|
    ensures var run := GroupFrom(api, rootdir, group, kinds, k);
      run.outcome == Completed ==>
        forall i | k <= i < |kinds| :: Get(PathJoin(ApiPrefix + group, kinds[i].name)) in run.events
    decreases |kinds| - k
  {
    if k < |kinds| {
      var step := KindRun(api, rootdir, group, kinds[k]);
      var rest := GroupFrom(api, rootdir, group, kinds, k + 1);
      if step.outcome == Completed && rest.outcome == Completed {
        CompletedGroupListsEveryKind(api, rootdir, group, kinds, k + 1);
        var run := step.events + rest.events;
        assert GroupFrom(api, rootdir, group, kinds, k) == Run(run, Completed);
        forall i | k <= i < |kinds|
          ensures Get(PathJoin(ApiPrefix + group, kinds[i].name)) in run
        {
          if i == k {
            assert run[0] == step.events[0];
          } else {
            var e := Get(PathJoin(ApiPrefix + group, kinds[i].name));
            var x :| 0 <= x < |rest.events| && rest.events[x] == e;
            assert run[|step.events| + x] == e;
          }
        }
      }
    }
  }
}
