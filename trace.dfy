/** The observable effects of a backup run, in order: requests to the API and
    documents written to disk. A run's effect on the client's request log,
    on the files and on the directories is a function of its trace. */
module Trace {
  import opened Api
  import opened Paths

  datatype Event =
    | Get(url: string)                // one `client.get(url)`
    | Write(file: string, doc: Value) // one document dumped to `file`

  /** The paths requested, in order: a path is in the log exactly when `t`
      requests it. */
  function Requests(t: seq<Event>): (r: seq<string>)
    ensures forall u :: u in r <==> Get(u) in t
  {
    if t == [] then []
    else
      var last := t[|t| - 1];
      assert t == t[..|t| - 1] + [last];
      Requests(t[..|t| - 1]) + (if last.Get? then [last.url] else [])
  }

  /** The files after the writes of `t` are applied, in order, to `files`:
      each write replaces the whole content of its file. */
  function Replay(files: map<string, Value>, t: seq<Event>): (r: map<string, Value>)
  {
    if t == [] then files
    else
      var last := t[|t| - 1];
      assert t == t[..|t| - 1] + [last];
      var before := Replay(files, t[..|t| - 1]);
      if last.Write? then before[last.file := last.doc] else before
  }

  /** The directories `os.makedirs` provides: the parent of every file
      written, with all of its own parents. */
  function CreatedDirs(t: seq<Event>): (ds: set<string>)
  {
    if t == [] then {}
    else
      var last := t[|t| - 1];
      assert t == t[..|t| - 1] + [last];
      CreatedDirs(t[..|t| - 1]) + (if last.Write? then Ancestors(DirName(last.file)) else {})
  }

  lemma AppendAssoc<T>(a: seq<T>, b: seq<T>, c: seq<T>)
    ensures (a + b) + c == a + (b + c)
  {
  }

  /** The state `(requests, files, dirs)` is what performing `t` from
      `(requests0, files0, dirs0)` leaves. */
  predicate Reached(requests: seq<string>, files: map<string, Value>, dirs: set<string>,
                    requests0: seq<string>, files0: map<string, Value>, dirs0: set<string>,
                    t: seq<Event>)
  {
    && requests == requests0 + Requests(t)
    && files == Replay(files0, t)
    && dirs == dirs0 + CreatedDirs(t)
  }

  lemma {:induction false} RequestsAppend(a: seq<Event>, b: seq<Event>)
    ensures Requests(a + b) == Requests(a) + Requests(b)
    decreases |b|
  {
    if b != [] {
      var b' := b[..|b| - 1];
      assert (a + b)[..|a + b| - 1] == a + b';
      RequestsAppend(a, b');
    } else {
      assert a + b == a;
    }
  }

  lemma {:induction false} ReplayAppend(files: map<string, Value>, a: seq<Event>, b: seq<Event>)
    ensures Replay(files, a + b) == Replay(Replay(files, a), b)
    decreases |b|
  {
    if b != [] {
      var b' := b[..|b| - 1];
      assert (a + b)[..|a + b| - 1] == a + b';
      ReplayAppend(files, a, b');
    } else {
      assert a + b == a;
    }
  }

  lemma {:induction false} CreatedDirsAppend(a: seq<Event>, b: seq<Event>)
    ensures CreatedDirs(a + b) == CreatedDirs(a) + CreatedDirs(b)
    decreases |b|
  {
    if b != [] {
      var b' := b[..|b| - 1];
      assert (a + b)[..|a + b| - 1] == a + b';
      CreatedDirsAppend(a, b');
    } else {
      assert a + b == a;
    }
  }

  /** Performing `a` and then `b` is performing `a + b`. */
  lemma ReachedThen(r0: seq<string>, f0: map<string, Value>, d0: set<string>,
                    r1: seq<string>, f1: map<string, Value>, d1: set<string>,
                    r2: seq<string>, f2: map<string, Value>, d2: set<string>,
                    a: seq<Event>, b: seq<Event>)
    requires Reached(r1, f1, d1, r0, f0, d0, a)
    requires Reached(r2, f2, d2, r1, f1, d1, b)
    ensures Reached(r2, f2, d2, r0, f0, d0, a + b)
  {
    assert r2 == r0 + Requests(a + b) by {
      RequestsAppend(a, b);
    }
    assert f2 == Replay(f0, a + b) by {
      ReplayAppend(f0, a, b);
    }
    assert d2 == d0 + CreatedDirs(a + b) by {
      CreatedDirsAppend(a, b);
    }
  }

  /** A request appended to a trace appends its path to the request log. */
  lemma ReachedGet(requests: seq<string>, files: map<string, Value>, dirs: set<string>,
                   requests0: seq<string>, files0: map<string, Value>, dirs0: set<string>,
                   t: seq<Event>, u: string)
    requires Reached(requests, files, dirs, requests0, files0, dirs0, t)
    ensures Reached(requests + [u], files, dirs, requests0, files0, dirs0, t + [Get(u)])
  {
    var t' := t + [Get(u)];
    assert t'[..|t'| - 1] == t;
  }

  /** A write appended to a trace replaces the file's content and adds its
      directory and that directory's parents. */
  lemma ReachedWrite(requests: seq<string>, files: map<string, Value>, dirs: set<string>,
                     requests0: seq<string>, files0: map<string, Value>, dirs0: set<string>,
                     t: seq<Event>, file: string, v: Value)
    requires Reached(requests, files, dirs, requests0, files0, dirs0, t)
    ensures Reached(requests, files[file := v], dirs + Ancestors(DirName(file)), requests0, files0, dirs0, t + [Write(file, v)])
  {
    var t' := t + [Write(file, v)];
    assert t'[..|t'| - 1] == t;
  }

  /** Writing `dir/name/leaf` provides both `dir/name` and `dir`. */
  lemma WriteMakesParents(t: seq<Event>, dir: string, name: string, leaf: string, v: Value)
    requires dir != [] && dir[|dir| - 1] != '/'
    requires name != [] && forall j :: 0 <= j < |name| ==> name[j] != '/'
    requires forall j :: 0 <= j < |leaf| ==> leaf[j] != '/'
    ensures var file := dir + "/" + name + "/" + leaf;
      dir + "/" + name in CreatedDirs(t + [Write(file, v)]) && dir in CreatedDirs(t + [Write(file, v)])
  {
    var sub := dir + "/" + name;
    var file := sub + "/" + leaf;
    var t' := t + [Write(file, v)];
    assert t'[..|t'| - 1] == t;
    assert sub[|sub| - 1] == name[|name| - 1];
    DirNameOfJoin(sub, leaf);
    ParentMade(dir, name);
    AncestorsClosed(sub, dir);
  }

  /** Applying a trace overrides the files it writes and keeps the others. */
  lemma {:induction false} ReplayOverrides(files: map<string, Value>, t: seq<Event>)
    ensures Replay(files, t) == files + Replay(map[], t)
    decreases |t|
  {
    if t != [] {
      ReplayOverrides(files, t[..|t| - 1]);
    }
  }

  /** Replaying the same writes a second time leaves the files as the first
      replay left them: a re-run over an unchanged service is idempotent. */
  lemma ReplayIdempotent(files: map<string, Value>, t: seq<Event>)
    ensures Replay(Replay(files, t), t) == Replay(files, t)
  {
    var w := Replay(map[], t);
    ReplayOverrides(files, t);
    ReplayOverrides(files + w, t);
    assert (files + w) + w == files + w;
  }
}
