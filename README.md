# OVH telephony backup: the description-driven walk

`backup.py` backs up the configuration of the OVH telephony billing groups.
For each group, a `BackupManager` first asks for the group itself and skips
groups whose status is `closed` or `expired`. It then enumerates fourteen
resource types. Each object of each type is backed up by walking a
*description*: a nested dictionary that says, for each resource path, whether
to save it, which named children to descend into unconditionally, and which
named lists to enumerate. Each list member is walked with the list's own
description. A saved resource is fetched with failures swallowed. Its
non-empty answer is dumped to a YAML file under the backup root; the file's
name is the resource path with its first 11 characters (`/telephony/`) cut
off, plus `.yml`.

The model has these modules:

- `Api`: the client, the JSON values and `_get_url`'s error handling. The
  service is a map from path to response.
- `Storage`: the files and directories written.
- `Paths`: path formatting, `os.path.join` and `os.path.dirname` on POSIX,
  and log prefixes.
- `Schema`: the description dictionaries of the fourteen `backup_<type>`
  methods, as `Node` values.
- `Trace`: the requests and writes of a run as an ordered event trace.
- `Walk`: the pure specification of the walk and of the group backup, as
  traces, and the properties proved about them.
- `Manager`: the `BackupManager` class, whose imperative methods are proved
  to perform exactly the trace `Walk` gives them.

The manager keeps a ghost journal of its events. Its invariant `Valid()`
says that the client's request log, the files and the directories are what
replaying the journal leaves. Every property proved of the traces is
therefore a property of the real state.

`Scenarios` runs the model on small concrete inputs.

Two details of the code shape what the model does:

- The file name cuts a fixed 11 characters from the resource path
  (backup.py:517) rather than stripping a named prefix.
  `Paths.DestinationOfAbsoluteRest` shows one consequence: a path whose rest
  starts with `/` is written outside the root.
- The group status request (backup.py:62) and the listing request of each
  resource type (backup.py:75 and its thirteen copies) do not go through
  `_get_url`. A failure there raises and ends the group, which the model
  represents as the outcome `Raised(url)`.

## Model

| member | source | states |
|---|---|---|
| Api.Client.Get | backup.py:62 | one request, answered by the service, appended to the client's log |
| Api.Caught | backup.py:499-511 | `_get_url` yields `None` exactly for the three caught kinds of failure, and passes a successful answer through unchanged |
| Api.Iterate | backup.py:209 | `for obj in data` goes through the elements of an array or the keys of an object in order; it is non-empty exactly when the value is truthy |
| Api.Lookup | backup.py:63 | `data['status']` is missing exactly when no field has that key; otherwise it is the value of a field with that key |
| Storage.FileSystem.IsDir | backup.py:527 | answers whether the directory exists |
| Storage.FileSystem.MakeDirs | backup.py:528 | afterwards the directory and every parent of it exist, and every parent of an existing directory still exists; no file changes |
| Storage.FileSystem.WriteFile | backup.py:531-532 | the file's whole content is replaced; the directories are unchanged |
| Paths.DataFileStripsPrefix | backup.py:517 | for a path under `/telephony/`, the 11 characters cut off are exactly that prefix |
| Paths.DataFileRoundTrip | backup.py:517 | the resource path is recovered from its file name by removing `.yml` and putting the prefix back |
| Paths.DestinationBelowRoot | backup.py:517-523 | `/telephony/rest` is written to `rootdir/rest.yml` |
| Paths.DestinationOfAbsoluteRest | backup.py:523 | `os.path.join` discards the root when the rest of the path starts with `/` |
| Paths.DirNameOfJoin | backup.py:525-528 | the directory made for `dir/name` is `dir` |
| Paths.DirNamePrefix | backup.py:525 | `os.path.dirname` of a path is a prefix of it |
| Paths.Ancestors | backup.py:528 | the directories `os.makedirs(d)` provides contain `d`, and each of them is a prefix of `d` |
| Paths.AncestorsClosed | backup.py:528 | every parent of a directory `os.makedirs` provides is provided by the same call |
| Paths.ParentMade | backup.py:528 | making `dir/name` makes `dir` |
| Paths.ChildLogPrefix | backup.py:194-196 | the log prefix of a child is its name |
| Paths.MemberLogPrefix | backup.py:210-212 | the log prefix of a list member is `list/member` |
| Trace.Requests | backup.py:62 | a path is in the request log exactly when the trace requests it |
| Trace.ReachedGet | backup.py:62 | a request adds its path to the request log and changes no file |
| Trace.ReachedWrite | backup.py:527-532 | a write replaces one file and adds its directory with all of that directory's parents |
| Trace.WriteMakesParents | backup.py:525-528 | writing `dir/name/leaf` provides both `dir/name` and `dir` |
| Trace.ReachedThen | backup.py:186-215 | performing two traces in a row is performing their concatenation |
| Trace.ReplayOverrides | backup.py:531-532 | the files a trace writes are overridden and all other files are kept |
| Trace.ReplayIdempotent | backup.py:531-532 | replaying the same writes twice leaves the files as replaying them once |
| Walk.Gate | backup.py:61-65 | the group is skipped exactly when its answer is an object whose status is in the skip list; it raises exactly when the request fails, the answer is an array or there is no status |
| Walk.SingleEntryDescription | backup.py:186-188 | a one-entry description, as every call passes, is the walk of that entry |
| Walk.EmptyNodeDoesNothing | backup.py:186-215 | a node with nothing to save, no children and no lists makes no request |
| Walk.SelfFetchIffSave | backup.py:189-190 | a node's own path is requested exactly when the node is saved |
| Walk.NodeWithin | backup.py:186-215 | every request of a walk is the node's path or lies below it; its children, lists and members lie strictly below |
| Walk.ChildrenPrefix | backup.py:193-198 | walking more children only extends the trace |
| Walk.SavedChildAlwaysFetched | backup.py:189-198 | a saved child is requested at `path/name` whatever the service answers for its parent |
| Walk.ListFetchedOnce | backup.py:201-206 | each list endpoint is requested once, before its members; a failed or empty answer ends that list |
| Walk.NoEmptyFiles | backup.py:518-532 | `_save_data` writes exactly when the answer is a non-empty value, to that path's file; otherwise no file or directory changes |
| Walk.NodeJustified | backup.py:513-533 | every write of a walk is the non-empty answer to the request just before it, written to that path's file |
| Walk.NodeLocal | backup.py:186-215 | the walk of a node depends only on the answers for its own path and the paths below it |
| Walk.DescentIgnoresOwnResponse | backup.py:189-215 | children and lists are walked the same whatever the node's own save returned |
| Walk.FailuresAreAlike | backup.py:499-511 | not found, bad parameters and any other failure have the same effect on a walk as the path being absent |
| Walk.SkippedGroupOnlyAsksStatus | backup.py:59-66 | a closed or expired group makes one request, for its status, and nothing else |
| Walk.GateJustified | backup.py:59-184 | every write of a group backup is the non-empty answer to the request just before it |
| Walk.RaiseEndsGroup | backup.py:68-184 | a group backup that raises ends with the failing listing request and does nothing after it |
| Walk.CompletedGroupListsEveryKind | backup.py:68-184 | a group backup that completes has requested the listing of every resource type |
| Manager.BackupManager.constructor | backup.py:52-57 | the manager holds the client, group and root; it skips `closed` and `expired`; it walks the fourteen resource types; its journal is empty |
| Manager.BackupManager.Request | backup.py:62 | an unprotected request: the answer as it comes, one `Get` journalled |
| Manager.BackupManager.GetUrl | backup.py:499-511 | the caught answer, one `Get` journalled |
| Manager.BackupManager.SaveData | backup.py:513-533 | journals and performs exactly `_save_data`'s trace: the request, then the write when the answer is non-empty, with the directory created |
| Manager.BackupManager.BackupNode | backup.py:188-215 | journals and performs exactly the walk of one description entry |
| Manager.BackupManager.BackupChildren | backup.py:192-199 | performs the walks of all children, in order |
| Manager.BackupManager.BackupLists | backup.py:201-215 | performs the walks of all lists, in order |
| Manager.BackupManager.BackupList | backup.py:202-215 | performs one list: its request, then every member's walk unless the answer is missing or empty |
| Manager.BackupManager.BackupDescription | backup.py:186-188 | performs the walks of all entries of a description, in order |
| Manager.BackupManager.BackupResource | backup.py:295-308 | `backup_<type>(id)`: walks `/telephony/group/type/id` with the type's description |
| Manager.BackupManager.BackupKind | backup.py:72-78 | one resource type: an unprotected listing request, raising on failure, then every object's backup |
| Manager.BackupManager.BackupObjects | backup.py:75-77 | backs up every listed object of one type, in order |
| Manager.BackupManager.BackupGroup | backup.py:68-184 | every resource type in order, stopping at the first one that raises |
| Manager.BackupManager.Backup | backup.py:59-66 | the status request, then skip, raise or back up the whole group, as `Walk.Gate` decides |
| Scenarios.TwoMembers | backup.py:209-214 | a list of two leaves, one present and one gone: save the first, request the second |
| Scenarios.SoundListWalk | backup.py:186-215 | the full trace of a saved node with one list of two members |
| Scenarios.ClosedGroupSkipped | backup.py:59-66 | a group whose status is `closed` makes one request and is skipped |

## Left out

- Command-line options, the configuration file and the loop over all groups (backup.py:31-47, 536-574): these are glue around the manager.
- The logger's messages and loop prefixes, and the process lock (backup.py:17-26): these are side channels. Only the prefix strings are modelled (`Paths.LogPrefix`).
- YAML serialisation: a file holds the value dumped into it. The JSON values are kept opaque: an object's field values are text, and an array holds identifiers already rendered as in a path.
- The `exit(0)` after the easyPabx backup (backup.py:293) is not modelled. It ends the whole process and is evidently a debugging leftover. The model runs every resource type to completion.
- Filesystem failures while creating a directory or writing a file are not modelled. The source does not catch them either.
- `backup_group`'s fourteen copies of the same block are modelled as one loop over the table `Schema.ResourceTypes`. Each `backup_<type>` method is modelled as `BackupResource` with that type's description.
- Manager.BackupManager methods: each method requires the ghost journal invariant `Valid()`. The journal, and the helper methods into which `_backup` is split, are proof devices that the source does not have.
- Walk.GateRun: exceptions are modelled as the outcome `Raised(url)`. The outcome records where the run stopped, not the exception's type.
- Api.Value: the service is assumed to answer every request with a JSON object or array. Strings, numbers, booleans and null are not modelled. In the source, a falsy scalar is skipped like an empty answer. A non-empty string in a list answer is walked one character at a time. A non-zero number or `true` in a list answer makes `for obj in data` (backup.py:209) raise a `TypeError` that nothing in `_backup` catches, which ends the run. Because of this, the model's walk never raises.
- `os.makedirs` on an empty directory name raises; the model adds the empty name like any other. The directory of a saved file is never empty, because the file name contains `/`.
- An object's keys are assumed to be distinct, as JSON objects returned by the service are. `Api.Lookup` takes the first field with a key.
