# Image provisioning of the ocic-util compute client

`compute.py` is a command-line client for a cloud provider's compute and storage REST
APIs. Its one piece of decision logic is `create_image`: given an image name and the name
of an object in the `compute_images` storage container, it

1. checks with a HEAD request that the storage object exists (exit 1 if it does not);
2. checks with a GET whether the machine image `/Compute-<domain>/<user>/<image>` exists,
   and POSTs it when it does not (exit 1 unless the POST answers 201);
3. GETs the image list of the same name and
   - on 200 scans the list's entries, keeping the largest version seen (from 0), and exits
     5 at the first entry whose first machine image is the composite name; otherwise it
     POSTs one entry `{machineimages: [name], version: largest + 1}` (exit 1 unless 200);
   - on 404 POSTs a new image list (exit 1 unless 200) and appends no entry;
   - on any other status prints the failure and returns.

The two existence checks map 200 and 404 to true and false and exit with code 2 (storage
object) or 3 (machine image) on any other status.

The model has four modules:

- `Cloud` (`cloud.dfy`): the provider. `State` holds the storage objects, the machine
  images and the image lists, each keyed by resource name; `Server` is a class with those
  three fields and one method per request the client issues. Each create request changes
  the fields in place. What the network does to a request is a `Fate`: the request is
  served from the state, or it fails with an error status. A failure's status is never one
  the client would read as success or "not found" (the subset types `ReadFault`,
  `CreateFault`, `PostFault`). What a request does is given by pure functions on `State`
  (`ReadStatus`, `AddMachineImage`, `AddImageList`, `AppendEntry`), and each method
  is proved to follow its function.
- `Versions` (`versions.dfy`): a reference definition of the version scan. `FirstStop` is
  the first entry that ends the scan. `LatestVersion` is the running maximum of the
  versions, starting from 0. `Scan` combines the two, and lemmas about them give the
  version and duplicate properties.
- `Compute` (`compute.py` itself): resource names, the two status classifications, the
  client's request methods, the scan loop `LatestVersionScan` (a `while` loop proved equal
  to `Scan`), and `CreateImage`, proved to end in exactly the outcome and state that the
  specification function `Provision` gives. A `sys.exit(n)` is the outcome `Exited(n)`,
  a normal return is `Completed`, and the uncaught `IndexError` of
  `image_entry["machineimages"][0]` on an entry with no machine image is `Crashed`.
- `ProvisionProperties` (`properties.dfy`): lemmas about `Provision`. They cover each
  gate, the frame of a whole run, the appended entry, duplicate rejection, the 404 branch,
  the other-status branch, and four example runs.

Assumptions about the provider (it is not part of this model): a created resource is
named by the `name` field of its request. Creating a resource that already exists answers
409 and changes nothing. Posting an entry to a missing list answers 404. Each create
that is served answers the status the client tests for (201 for a machine image, 200 for
an image list or entry).

## Behaviour as written

- In the 404 branch no entry is appended (compute.py:205-207), so a fresh run leaves the
  new list empty (`FreshScenario`).
- Only `machineimages[0]` of each entry is compared with the composite name, and the scan
  stops at the first match (compute.py:200-202).
- The running maximum starts at 0 (compute.py:196), so with only negative versions the
  next version is still 1: it is always at least 1.
- The image-list POST names the list `/Compute-<domain> / <user>/<image>`, with a space
  on each side of a slash (compute.py:147), while it is sent to the URL the GET reads
  (compute.py:140-141, 191). The spaced name never equals a composite name
  (`ImageListNameNeverComposite`). Under the provider assumption above, the list the run
  creates is therefore never the one it looks up (`NotFoundCreatesListOnly`), and a
  second run from a fresh account ends with exit 1 on the 409 when it posts the spaced
  list again (`SecondFreshRunConflicts`). A provider that named the list by its URL would
  create exactly the looked-up list.
- The machine image's platform is always `"windows"` (compute.py:125), whatever
  `--platform` says (compute.py:227).
- Names carry the `/Compute-` prefix: `/Compute-<domain>/<user>/<image>` (compute.py:120,
  167, 200).

## Model

| member | source | states |
|---|---|---|
| `Compute.CompositeName` | compute.py:120 | `/Compute-<domain>/<user>/<image>`: 11 characters more than its three parts, a `/` right after the domain, ending in the image name |
| `Compute.ImageListCreateName` | compute.py:147 | `/Compute-<domain> / <user>/<image>`: a ` / ` right after the domain, ending in the image name |
| `Compute.ObjectPath` | compute.py:64 | `/Storage-<domain>/compute_images/<object>`: ending in the object name |
| `Compute.MachineImageRequest` | compute.py:119-126 | the machine-image descriptor: the composite name, the object as its file, platform "windows", size 0, no upload |
| `Compute.ImageListStep` | compute.py:190-211 | the image-list step never touches objects or machine images, exits only with 1 or 5, and leaves the state unchanged unless it completes |
| `Compute.Provision` | compute.py:179-211 | a run never changes the storage objects, exits only with 1, 2, 3 or 5, and leaves the image lists unchanged on every exit other than 1 |
| `Versions.LatestVersion` | compute.py:196-199 | the running maximum from 0 is at least 0 and at least the last entry's version |
| `Versions.Scan` | compute.py:196-203 | a duplicate report names an entry whose first machine image is the target, with that entry's version; an IndexError points at an entry with no machine image; a next version means no entry stops the scan |
| `Cloud.ReadStatus` | compute.py:66-70 | a served lookup answers 200 exactly when the resource is present and 404 exactly when it is absent; a failed one answers its error status |
| `Cloud.AddMachineImage` | compute.py:130-131 | the machine-image POST answers 201 exactly when served and the name is new, and only then adds the descriptor under that name; otherwise the state is unchanged |
| `Cloud.AddImageList` | compute.py:150-151 | the image-list POST answers 200 exactly when served and the name is new, and only then adds an empty list with the given description; otherwise the state is unchanged |
| `Cloud.AppendEntry` | compute.py:170-171 | the entry POST answers 200 exactly when served and the list exists, and only then appends the entry at the end of that list; otherwise the state is unchanged |
| `Cloud.Server.HeadObject` | compute.py:64-66 | the HEAD of a storage object answers by the object's presence in the server's objects |
| `Cloud.Server.GetMachineImage` | compute.py:78-80 | the GET of a machine image answers by its presence in the server's machine images |
| `Cloud.Server.GetImageList` | compute.py:191-197 | the GET of an image list answers by its presence, and on 200 returns that list's entries |
| `Cloud.Server.PostMachineImage` | compute.py:113-130 | the server's new state and status are those of `AddMachineImage` on its old state |
| `Cloud.Server.PostImageList` | compute.py:140-150 | the server's new state and status are those of `AddImageList` on its old state |
| `Cloud.Server.PostImageListEntry` | compute.py:160-170 | the server's new state and status are those of `AppendEntry` on its old state |
| `Versions.FirstStop` | compute.py:197-202 | the index where the scan stops: every earlier entry names a first machine image other than the target, and the entry at the index has none or names the target |
| `Versions.LatestVersionIsMax` | compute.py:196-199 | the running maximum is at least 0, at least every entry's version, and either 0 or the version of some entry: it is max(0, largest version) |
| `Versions.NextIffNoStop` | compute.py:197-203 | the scan yields a next version exactly when no entry lacks a machine image or names the target first |
| `Versions.NextVersionExceedsAll` | compute.py:196-203 | when no entry stops the scan, it yields the running maximum plus 1, which is at least 1 and strictly greater than every existing version |
| `Versions.FirstDuplicateReported` | compute.py:197-202 | when entry k is the first naming the target first, the scan reports that entry's version as already present |
| `Versions.DuplicateNeverNext` | compute.py:200-202 | an entry whose first machine image is the target rules out a next version |
| `Compute.StorageObjectExistence` | compute.py:67-74 | status 200 gives Found, 404 gives NotFound, and exactly every other status gives exit 2 |
| `Compute.MachineImageExistence` | compute.py:81-92 | status 200 gives Found, 404 gives NotFound, and exactly every other status gives exit 3 |
| `Compute.StorageObjectExist` | compute.py:62-74 | Found exactly when served and the object is in the container, NotFound exactly when served and it is not, exit 2 exactly when the HEAD fails |
| `Compute.MachineImageExist` | compute.py:76-92 | Found exactly when served and the machine image exists, NotFound exactly when served and it does not, exit 3 exactly when the GET fails |
| `Compute.CreateMachineImage` | compute.py:112-137 | POSTs the descriptor (composite name, size 0, no upload, the domain's cloud_storage account, the object, platform "windows"); completes on 201 and exits 1 otherwise |
| `Compute.CreateImageList` | compute.py:139-157 | POSTs a list named with the spaced name and described by the image name; completes on 200 and exits 1 otherwise |
| `Compute.CreateImageListEntry` | compute.py:159-177 | POSTs an entry naming just the composite name with the given version; completes on 200 and exits 1 otherwise |
| `Compute.LatestVersionScan` | compute.py:196-203 | the loop with its running maximum returns exactly the reference scan result: next version, first duplicate's version, or the IndexError |
| `Compute.CreateImage` | compute.py:179-211 | the run's outcome and the server's new state are exactly those `Provision` gives for the old state |
| `ProvisionProperties.CompositeNameInjective` | compute.py:200 | for one domain and user, equal composite names have equal image names, so different images never match in the duplicate check |
| `ProvisionProperties.ImageListNameNeverComposite` | compute.py:147 | the spaced image-list name differs from every composite name of the same domain |
| `ProvisionProperties.MissingObjectExitsUnchanged` | compute.py:180-184 | an absent storage object makes the run exit 1 with the state unchanged, before any create |
| `ProvisionProperties.ObjectCheckFailureExits` | compute.py:71-74 | a failed object check makes the run exit 2 with the state unchanged |
| `ProvisionProperties.ImageCheckFailureExits` | compute.py:88-92 | a failed machine-image check makes the run exit 3 with the state unchanged |
| `ProvisionProperties.MachineImagePresentAfterStep` | compute.py:185-189 | once both checks are answered, the machine image exists at the end of the run, unless the run exited 1 with the state unchanged |
| `ProvisionProperties.GatesLeadToImageList` | compute.py:180-193 | when the object exists and the image exists or is created, the run continues with the image-list step from the state with the image added, and no image list has changed |
| `ProvisionProperties.DuplicateRejected` | compute.py:197-202 | an entry already naming the image, with no earlier stop, makes the run exit 5 with no entry appended and nothing changed |
| `ProvisionProperties.EntryWithoutImageCrashes` | compute.py:200 | an entry with no machine image, reached before any duplicate, ends the run with an IndexError and nothing changed |
| `ProvisionProperties.NextVersionAppended` | compute.py:196-204 | with no stop, exactly one entry is appended at the end of the list, naming only the composite name, with a version at least 1 and above every existing one; a failed POST exits 1 with nothing changed |
| `ProvisionProperties.NotFoundCreatesListOnly` | compute.py:205-207 | on 404 only an empty list under the spaced name is created (exit 1 if refused), no entry is appended, and the looked-up list is still missing |
| `ProvisionProperties.OtherStatusChangesNothing` | compute.py:208-211 | any other image-list status ends the run normally with the state after the machine-image step |
| `ProvisionProperties.ProvisionFrame` | compute.py:179-211 | in every run the objects never change, the machine image is added only when it was missing, and the image lists gain at most the spaced empty list or one appended entry |
| `ProvisionProperties.DuplicateScenario` | compute.py:194-202 | with entries [foo v1, bar v2], registering foo exits 5 and changes nothing |
| `ProvisionProperties.AppendScenario` | compute.py:194-204 | with entries [bar v3], registering foo appends foo as version 4 |
| `ProvisionProperties.FreshScenario` | compute.py:179-207 | with only the storage object present, a run creates the machine image and the spaced empty list, and no entry |
| `ProvisionProperties.SecondFreshRunConflicts` | compute.py:205-207 | under the provider assumption, a second run after the fresh one again finds no list and exits 1 on the 409 for the spaced list |

## Left out

- HTTP transport, request headers, JSON encoding and the printed messages: a request is
  a server method and its reply a status code (and, for the image-list GET, its entries).
  The image-list and entry POSTs pass a Python dict as `data`, which `requests`
  form-encodes; the model assumes the provider reads it like the JSON body of the
  machine-image POST.
- Response bodies other than the image list's entries, and JSON values of other types
  than the model's (a version that is not an integer, a missing key).
- `read_profile`, `authenticate_compute`, `authenticate_storage`: configuration parsing
  and network authentication. The session cookie and storage token become implicit; a
  `Profile` is a parameter.
- `list_ipreservation` and `list_image`: they only print listings.
- `main`: argument parsing, cookie pickling and the token file. The `--platform` option
  is parsed but never reaches `create_machineimage`, so it has no counterpart.
- `storage.py`: configuration, authentication, a printed listing and stub commands.
- Concurrent runs: two runs can compute the same next version. The model is one
  sequential run; the source does nothing against the race.
- Process exit status of the uncaught `IndexError`: the model records it as the outcome
  `Crashed`. The interpreter would exit with status 1 after printing a traceback.
