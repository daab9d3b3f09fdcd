/** `BackupManager`: the object that backs up one billing group. It holds the
    API client, the group, the root directory and the states to skip; its
    methods request resources, write files and walk descriptions.

    A ghost journal `events` records every request and every write the
    manager performs. `Valid()` ties the journal to the real state: the
    client's request log, the files and the directories are what replaying
    the journal leaves. Each method is proved to append exactly the trace the
    pure walk in `Walk` assigns to it, so the properties proved there hold of
    what the methods do. */
module Manager {
  import opened Api
  import opened Schema
  import opened Paths
  import opened Trace
  import opened Storage
  import opened Walk

  class BackupManager {
    const client: Client
    const fs: FileSystem
    const group: string
    const rootdir: string
    const statusToSkip: seq<string>
    /** The resource types `backup_group` walks, in its order. */
    const kinds: seq<Entry>

    /** Everything performed since construction, in order. */
    ghost var events: seq<Event>
    /** The client's log and the filesystem when the manager was made. */
    ghost const requests0: seq<string>
    ghost const files0: map<string, Value>
    ghost const dirs0: set<string>

    ghost predicate Valid()
      reads this, client, fs
    {
      && fs.Valid()
      && forall t | t == events :: Reached(client.requests, fs.files, fs.dirs, requests0, files0, dirs0, t)
    }

    constructor (client: Client, fs: FileSystem, group: string, rootdir: string)
      requires fs.Valid()
      ensures this.client == client && this.fs == fs
      ensures this.group == group && this.rootdir == rootdir
      ensures statusToSkip == StatusToSkip && kinds == ResourceTypes
      ensures events == [] && Valid()
    {
      this.client := client;
      this.fs := fs;
      this.group := group;
      this.rootdir := rootdir;
      statusToSkip := StatusToSkip;
      kinds := ResourceTypes;
      requests0 := client.requests;
      files0 := fs.files;
      dirs0 := fs.dirs;
      events := [];
    }

    /** `self.client.get(url)`, unprotected: the answer as it comes. */
    method Request(url: string) returns (r: Response)
      requires Valid()
      modifies this, client
      ensures Valid()
      ensures r == Respond(client.api, url)
      ensures events == old(events) + [Get(url)]
    {
      ReachedGet(client.requests, fs.files, fs.dirs, requests0, files0, dirs0, events, url);
      r := client.Get(url);
      events := events + [Get(url)];
    }

    /** `_get_url`: one request; every kind of failure becomes `None`. */
    method GetUrl(url: string) returns (data: Option<Value>)
      requires Valid()
      modifies this, client
      ensures Valid()
      ensures data == Caught(Respond(client.api, url))
      ensures events == old(events) + [Get(url)]
    {
      var r := Request(url);
      match r
      case Ok(v) => data := Some(v);
      case NotFound => data := None;       // warned: ResourceNotFound
      case BadParameters => data := None;  // warned: BadParameters
      case OtherError => data := None;     // warned, with the exception
    }

    /** `_save_data`: request `path`; if the answer is a non-empty value,
        make sure the target directory exists and dump the value into
        `rootdir` joined with the path's file name. */
    method SaveData(path: string)
      requires Valid()
      modifies this, client, fs
      ensures Valid()
      ensures events == old(events) + SaveTrace(client.api, rootdir, path)
    {
      var dataFile := DataFile(path);
      var data := GetUrl(path);
      if data.None? || !Truthy(data.value) {
        return;
      }
      var destination := OsJoin(rootdir, dataFile);
      var destinationDir := DirName(destination);
      ReachedWrite(client.requests, fs.files, fs.dirs, requests0, files0, dirs0, events, destination, data.value);
      var isDir := fs.IsDir(destinationDir);
      if !isDir {
        fs.MakeDirs(destinationDir);
      }
      assert fs.dirs == old(fs.dirs) + Ancestors(destinationDir);
      fs.WriteFile(destination, data.value);
      events := events + [Write(destination, data.value)];
    }

    /** The body of `_backup` for one entry `(path, n)`: save, then every
        child, then every list and its members. */
    method BackupNode(path: string, n: Node)
      requires Valid()
      modifies this, client, fs
      decreases n, 2
      ensures Valid()
      ensures events == old(events) + NodeTrace(client.api, rootdir, path, n)
    {
      ghost var e0 := events;
      ghost var self := SelfTrace(client.api, rootdir, path, n);
      ghost var children := ChildrenTrace(client.api, rootdir, path, n, |n.children|);
      ghost var lists := ListsTrace(client.api, rootdir, path, n, |n.lists|);
      assert NodeTrace(client.api, rootdir, path, n) == self + (children + lists);
      if n.save {
        SaveData(path);
      }
      ghost var e1 := events;
      assert e1 == e0 + self;
      BackupChildren(path, n);
      ghost var e2 := events;
      BackupLists(path, n);
      assert events == e0 + (self + (children + lists)) by {
        AppendAssoc(e0, self, children);
        AppendAssoc(e0 + self, children, lists);
        AppendAssoc(e0, self, children + lists);
      }
    }

    /** The children loop of `_backup`: each child is walked at `path/name`. */
    method BackupChildren(path: string, n: Node)
      requires Valid()
      modifies this, client, fs
      decreases n, 1
      ensures Valid()
      ensures events == old(events) + ChildrenTrace(client.api, rootdir, path, n, |n.children|)
    {
      for i := 0 to |n.children|
        invariant Valid()
        invariant events == old(events) + ChildrenTrace(client.api, rootdir, path, n, i)
      {
        var child := n.children[i];
        BackupNode(PathJoin(path, child.name), child.node);
        assert events == old(events) + ChildrenTrace(client.api, rootdir, path, n, i + 1) by {
          AppendAssoc(old(events), ChildrenTrace(client.api, rootdir, path, n, i),
                      NodeTrace(client.api, rootdir, PathJoin(path, child.name), child.node));
        }
      }
    }

    /** The lists loop of `_backup`. */
    method BackupLists(path: string, n: Node)
      requires Valid()
      modifies this, client, fs
      decreases n, 1
      ensures Valid()
      ensures events == old(events) + ListsTrace(client.api, rootdir, path, n, |n.lists|)
    {
      for j := 0 to |n.lists|
        invariant Valid()
        invariant events == old(events) + ListsTrace(client.api, rootdir, path, n, j)
      {
        ghost var before := events;
        BackupList(path, n, j);
        assert events == old(events) + ListsTrace(client.api, rootdir, path, n, j + 1) by {
          AppendAssoc(old(events), ListsTrace(client.api, rootdir, path, n, j), ListTrace(client.api, rootdir, path, n, j));
        }
      }
    }

    /** One iteration of the lists loop of `_backup`: request the list; unless
        the answer is missing or empty, walk every member with the list's node. */
    method BackupList(path: string, n: Node, j: nat)
      requires j < |n.lists|
      requires Valid()
      modifies this, client, fs
      decreases n, 0
      ensures Valid()
      ensures events == old(events) + ListTrace(client.api, rootdir, path, n, j)
    {
      var list := n.lists[j];
      var baseUrl := PathJoin(path, list.name);
      var data := GetUrl(baseUrl);
      if data.None? || !Truthy(data.value) {
        return;
      }
      var ids := Iterate(data.value);
      ghost var start := events;
      for k := 0 to |ids|
        invariant Valid()
        invariant events == start + MembersTrace(client.api, rootdir, baseUrl, n, j, ids, k)
      {
        var root := PathJoin(baseUrl, ids[k]);
        BackupNode(root, list.node);
        assert events == start + MembersTrace(client.api, rootdir, baseUrl, n, j, ids, k + 1) by {
          AppendAssoc(start, MembersTrace(client.api, rootdir, baseUrl, n, j, ids, k), NodeTrace(client.api, rootdir, root, list.node));
        }
      }
      assert events == old(events) + ListTrace(client.api, rootdir, path, n, j) by {
        AppendAssoc(old(events), [Get(baseUrl)], MembersTrace(client.api, rootdir, baseUrl, n, j, ids, |ids|));
      }
    }

    /** `_backup(description)`: every entry of the dictionary, in order. */
    method BackupDescription(description: seq<Target>)
      requires Valid()
      modifies this, client, fs
      ensures Valid()
      ensures events == old(events) + DescriptionTrace(client.api, rootdir, description)
    {
      for i := 0 to |description|
        invariant Valid()
        invariant events == old(events) + DescriptionTrace(client.api, rootdir, description[..i])
      {
        var target := description[i];
        BackupNode(target.path, target.node);
        assert events == old(events) + DescriptionTrace(client.api, rootdir, description[..i + 1]) by {
          assert description[..i + 1][..i] == description[..i];
          AppendAssoc(old(events), DescriptionTrace(client.api, rootdir, description[..i]),
                      NodeTrace(client.api, rootdir, target.path, target.node));
        }
      }
      assert description[..|description|] == description;
    }

    /** `backup_<type>(id)`: walk `/telephony/<group>/<type>/<id>` with the
        type's description. */
    method BackupResource(kind: Entry, id: string)
      requires Valid()
      modifies this, client, fs
      ensures Valid()
      ensures events == old(events) + NodeTrace(client.api, rootdir, PathJoin(PathJoin(ApiPrefix + group, kind.name), id), kind.node)
    {
      var rootDir := PathJoin(PathJoin(ApiPrefix + group, kind.name), id);
      BackupDescription([Target(rootDir, kind.node)]);
      SingleEntryDescription(client.api, rootdir, Target(rootDir, kind.node));
    }

    /** One block of `backup_group`: list the objects of one resource type
        (unprotected, so a failure raises) and back up each of them. */
    method BackupKind(kind: Entry) returns (outcome: Outcome)
      requires Valid()
      modifies this, client, fs
      ensures Valid()
      ensures outcome == KindRun(client.api, rootdir, group, kind).outcome
      ensures events == old(events) + KindRun(client.api, rootdir, group, kind).events
    {
      var url := PathJoin(ApiPrefix + group, kind.name);
      var r := Request(url);
      if !r.Ok? {
        return Raised(url);
      }
      var ids := Iterate(r.value);
      ghost var objects := ObjectsTrace(client.api, rootdir, url, kind.node, ids, |ids|);
      assert KindRun(client.api, rootdir, group, kind) == Run([Get(url)] + objects, Completed);
      BackupObjects(url, kind, ids);
      assert events == old(events) + ([Get(url)] + objects) by {
        AppendAssoc(old(events), [Get(url)], objects);
      }
      return Completed;
    }

    /** The loop of one block of `backup_group`: `backup_<type>(id)` for every
        object listed. */
    method BackupObjects(url: string, kind: Entry, ids: seq<string>)
      requires url == PathJoin(ApiPrefix + group, kind.name)
      requires Valid()
      modifies this, client, fs
      ensures Valid()
      ensures events == old(events) + ObjectsTrace(client.api, rootdir, url, kind.node, ids, |ids|)
    {
      for i := 0 to |ids|
        invariant Valid()
        invariant events == old(events) + ObjectsTrace(client.api, rootdir, url, kind.node, ids, i)
      {
        BackupResource(kind, ids[i]);
        assert events == old(events) + ObjectsTrace(client.api, rootdir, url, kind.node, ids, i + 1) by {
          AppendAssoc(old(events), ObjectsTrace(client.api, rootdir, url, kind.node, ids, i),
                      NodeTrace(client.api, rootdir, PathJoin(url, ids[i]), kind.node));
        }
      }
    }

    /** `backup_group`: every resource type in turn; a raise ends the group. */
    method BackupGroup() returns (outcome: Outcome)
      requires Valid()
      modifies this, client, fs
      ensures Valid()
      ensures outcome == GroupRun(client.api, rootdir, group, kinds).outcome
      ensures events == old(events) + GroupRun(client.api, rootdir, group, kinds).events
    {
      ghost var done: seq<Event> := [];
      for k := 0 to |kinds|
        invariant Valid()
        invariant events == old(events) + done
        invariant GroupFrom(client.api, rootdir, group, kinds, 0) ==
          Run(done + GroupFrom(client.api, rootdir, group, kinds, k).events,
              GroupFrom(client.api, rootdir, group, kinds, k).outcome)
      {
        ghost var step := KindRun(client.api, rootdir, group, kinds[k]);
        ghost var rest := GroupFrom(client.api, rootdir, group, kinds, k + 1);
        assert GroupFrom(client.api, rootdir, group, kinds, k) ==
          if step.outcome.Raised? then step else Run(step.events + rest.events, rest.outcome);
        outcome := BackupKind(kinds[k]);
        AppendAssoc(old(events), done, step.events);
        AppendAssoc(done, step.events, rest.events);
        done := done + step.events;
        if outcome.Raised? {
          return;
        }
      }
      return Completed;
    }

    /** `backup`: request the group itself; skip it when its status is one
        of `statusToSkip`, otherwise back up the whole group. */
    method Backup() returns (outcome: Outcome)
      requires Valid()
      modifies this, client, fs
      ensures Valid()
      ensures outcome == GateRun(client.api, rootdir, group, statusToSkip, kinds).outcome
      ensures events == old(events) + GateRun(client.api, rootdir, group, statusToSkip, kinds).events
    {
      var url := ApiPrefix + group;
      var data := Request(url);
      if !data.Ok? {
        return Raised(url);          // the request itself raised
      }
      if data.value.Listing? {
        return Raised(url);          // an array has no 'status' key
      }
      var status := Lookup(data.value.fields, "status");
      if status.None? {
        return Raised(url);          // KeyError
      }
      if status.value in statusToSkip {
        assert Gate(data, statusToSkip) == Skip;
        return Skipped;
      }
      assert Gate(data, statusToSkip) == Proceed;
      outcome := BackupGroup();
      AppendAssoc(old(events), [Get(url)], GroupRun(client.api, rootdir, group, kinds).events);
    }
  }
}
