# osmosis-azure-driver, modelled in Dafny

This is a model of the Azure driver of the Osmosis plugin interface. The model covers:

- **Utils** (`utils.dfy`) — `_parse_url` of `utils.py`. It splits a storage URL of the shape
  `https://<account>.<file_type>.core.windows.net/<container_or_share>[/<path>]/<file>` into a five-field
  record. The first eight characters are never looked at, and a URL too short to index fails with IndexError.
  The main result is a round trip: every record the parser can produce, written back as a URL, parses to itself.
- **Config** (`config.dfy`) — how `Config` resolves the resource-group name from the environment
  variable, the configuration mapping and the default `OceanProtocol`.
- **DataPlugin** (`data_plugin.dfy`) — the data plugin:
  - its own three-field `_parse_url`;
  - the routing of `copy` (which side is remote), with `upload`/`download` as `copy`;
  - `delete` with its stricter blob-domain guard;
  - `create_directory` and `type`.
  
  The storage account and the local disk are an abstract store of three fields of a `Plugin` class:
  - blobs keyed by (account, container, blob);
  - the containers that exist;
  - local files by path.
  
  Every method's new state is stated by a pure effect function, and the lemmas prove what the effect functions do:
  - frames;
  - the upload-then-download round trip;
  - the error cases;
  - the consistency invariant "every blob lives in an existing container".
- **ComputingPlugin** (`computing_plugin.dfy`) — the computing plugin:
  - `_create_container_group` builds the container-group definition. The model proves that result file,
    command, volumes, mounts, resources, OS and restart policy are what the code builds, and that each
    mount point resolves to the intended share.
  - `exec_container` submits the group, busy-waits for provisioning and then for termination, and deletes
    the group. The container-instance service is the class's map of existing groups plus a log of every
    call made to it. The two busy-wait loops are `while` loops over a sequence of poll observations, and
    the method states the exact call log and final groups in each of its five outcomes: submit rejected,
    provisioning poll raised, termination poll raised, delete accepted, delete rejected.
  - `create_vm`, `delete_vm` and `type`.
  - The defaults of `exec_container`'s optional arguments (`compute`, `output`, `python:3.6-alpine`, 1.5, 1)
    are default parameter values of `ExecContainer`.
- **PyStrings** (`pystrings.dfy`) — the Python string semantics the code relies on:
  - `s[8:]`;
  - `str.split` with a one-character separator, shown to be inverted by `join`;
  - the `in` substring test;
  - `str(int)`, shown to produce exactly the canonical decimal texts and to be inverted by `int(...)`.
- **Wrappers** (`wrappers.dfy`) — `Option`, `Result` and `Outcome`.

The following are parameters of the model:
- the process environment;
- the clock (`time.time()`);
- the service's answers: whether a create/delete is accepted, and the sequence of states the polling `get`
  calls observe.

Behaviours of the code worth knowing, all modelled as the code has them:
- `Config` lets an environment variable set to the empty string win. The check is `is not None`, not "set
  and non-empty".
- `_parse_url` does not check that the service token is `blob` or `file`. It keeps only one intermediate
  segment as `path`, not all of them joined. It decides whether there is a path by comparing segment 2
  with the last segment *by value*. It does not reject empty container or file names.
- `delete` accepts only URLs containing `blob.core.windows.net`. File-share URLs, including the ones the
  repository's own tests pass to it, raise OsmosisError.
- `create_directory` has no container/directory flag. It always asks for a blob container named after the
  whole URL, a name holding '/' that the storage service does not accept as a container name.

## Model

| member | source | states |
|---|---|---|
| PyStrings.DropPrefix | osmosis_azure_driver/utils.py:10 | `s[k:]` never fails: it is empty when `s` is at most `k` long, otherwise `s` is its first `k` characters followed by the result |
| PyStrings.Split | osmosis_azure_driver/utils.py:10-15 | `str.split(sep)`: one piece more than there are separators, no piece holds the separator, and joining the pieces with the separator gives back the input |
| PyStrings.SplitJoin | osmosis_azure_driver/utils.py:10-15 | splitting a join of separator-free pieces gives back exactly those pieces, so the segment positions the parsers index are determined |
| PyStrings.Contains | osmosis_azure_driver/data_plugin.py:98-104 | Python's `m in s`: `m` is a prefix of `s` or of some suffix of `s` |
| PyStrings.ContainsAt | osmosis_azure_driver/data_plugin.py:98-104 | if `m` starts at some index of `s`, then `m in s` |
| PyStrings.ContainsWitness | osmosis_azure_driver/data_plugin.py:98-104 | conversely, if `m in s` then `m` starts at some index of `s` |
| PyStrings.IntDecimal | osmosis_azure_driver/computing_plugin.py:88 | `str(int)` is in canonical form: an optional '-' then at least one digit, with no leading zero except in "0" itself, and the '-' appears exactly for negative values |
| PyStrings.ParseIntDecimal | osmosis_azure_driver/computing_plugin.py:155 | `int(str(i)) == i`: the decimal form of the clock reading loses nothing |
| PyStrings.IntDecimalInjective | osmosis_azure_driver/computing_plugin.py:155 | different clock readings have different decimal forms |
| PyStrings.CanonicalIntUnique | osmosis_azure_driver/computing_plugin.py:155 | every canonical integer text is `str` of its value, so `str` and `int` are inverse bijections between the integers and the canonical texts |
| PyStrings.ContainsSuffixOfMarker | osmosis_azure_driver/data_plugin.py:81 | a string that contains `p + m` contains `m`: a longer marker is a stricter test |
| Utils.Rest | osmosis_azure_driver/utils.py:10 | `url[8:]`: empty for a URL of at most eight characters, otherwise the URL's characters from index 8 on, in order |
| Utils.ParseUrl | osmosis_azure_driver/utils.py:9-20 | fails with IndexError exactly when `url[8:]` has fewer than two '/' or no '.' before the first '/'; every record it returns is well-formed (no field holds the separator it was cut at, and a path differs from the file) |
| Utils.HostTokens | osmosis_azure_driver/utils.py:10-11 | the host segment has a second '.'-token (so `file_type` exists) exactly when a '.' comes before the first '/' |
| Utils.ParseLocatorUrl | osmosis_azure_driver/utils.py:9-20 | round trip: a well-formed record written as a URL parses back to the same record, with path None when there is no middle segment |
| Utils.ParseIdempotent | osmosis_azure_driver/utils.py:9-20 | re-parsing the URL rebuilt from a successful parse yields the same record |
| Utils.SchemeIgnored | osmosis_azure_driver/utils.py:10-15 | the first eight characters are never inspected: any two eight-character prefixes give the same result |
| Utils.GeneralParse | osmosis_azure_driver/utils.py:9-20 | for any URL of three or more '/'-segments whose host has two or more '.'-tokens: account and file type are the first two tokens, the container is segment 1, the file is the last segment, the path is segment 2 unless it equals the last segment; other segments play no part |
| Utils.DeepPathDropped | osmosis_azure_driver/utils.py:12-15 | only one intermediate segment is kept: two URLs that agree on host, container, first intermediate segment and file parse alike, whatever further segments either has |
| Utils.PathNoneByValue | osmosis_azure_driver/utils.py:14 | path is None whenever segment 2 equals the last segment as a string: for `…/c/f`, for `…/c/f/f` (which has a sub-folder) and for longer URLs ending the same way |
| Config.ResourceGroupName | osmosis_azure_driver/config.py:8-14 | the variable's value when it is set, else the configuration's key when a configuration holds it, else `OceanProtocol` |
| Config.ConfigIgnoredWhenVariableSet | osmosis_azure_driver/config.py:9-10 | once the variable is set, the configuration makes no difference |
| Config.EmptyVariableWins | osmosis_azure_driver/config.py:9-10 | a variable set to the empty string yields the empty name |
| Config.ResolutionCandidates | osmosis_azure_driver/config.py:8-14 | the name is always one of the three candidates, and the default is chosen only when neither source supplies one |
| DataPlugin.IsRemote | osmosis_azure_driver/data_plugin.py:98-104 | a path counts as remote storage exactly when it contains `core.windows.net` |
| DataPlugin.ParseUrl | osmosis_azure_driver/data_plugin.py:138-146 | succeeds exactly when `url[8:]` has at least two '/', otherwise IndexError; account has no '.' or '/', container and blob no '/' |
| DataPlugin.GeneralParse | osmosis_azure_driver/data_plugin.py:138-146 | for any URL of three or more '/'-segments: the account is the host segment up to its first '.' (all of it when it has none), container and blob are segments 1 and 2, later segments play no part |
| DataPlugin.AgreesWithLocator | osmosis_azure_driver/data_plugin.py:138-146 | where the five-field parser succeeds, this one reads the same account and container and takes the path as blob if there is one, the file otherwise |
| DataPlugin.SubfolderIsBlob | osmosis_azure_driver/data_plugin.py:141 | for a URL with a sub-folder the blob key is the sub-folder name, not the file |
| DataPlugin.FlatUrlBlob | osmosis_azure_driver/data_plugin.py:141 | for a URL without a sub-folder the blob key is the last segment |
| DataPlugin.Route | osmosis_azure_driver/data_plugin.py:98-115 | OsmosisError exactly when neither path holds the storage marker; a remote source is always downloaded to the destination; only a local source with a remote destination is uploaded; a parse IndexError of the chosen side propagates |
| DataPlugin.CopyEffect | osmosis_azure_driver/data_plugin.py:98-115 | the store and outcome after `copy`: a failing copy leaves the store as it was, and a copy keeps every blob inside an existing container |
| DataPlugin.DeleteEffect | osmosis_azure_driver/data_plugin.py:80-88 | the store and outcome after `delete`: a failing delete leaves the store as it was, and a delete keeps every blob inside an existing container |
| DataPlugin.CreateDirectoryEffect | osmosis_azure_driver/data_plugin.py:117-121 | the store and outcome after `create_directory`: a failing call leaves the store as it was, and the call keeps every blob inside an existing container |
| DataPlugin.CopyRejectsLocalPaths | osmosis_azure_driver/data_plugin.py:98-101 | two local paths raise OsmosisError and change nothing |
| DataPlugin.DownloadFrame | osmosis_azure_driver/data_plugin.py:104-109 | a download changes only the local file at the destination, which then holds the blob; it succeeds exactly when the URL parses and the blob exists; otherwise IndexError for a URL that does not parse and MissingBlob for a missing blob |
| DataPlugin.UploadFrame | osmosis_azure_driver/data_plugin.py:110-115 | an upload changes only the blob at the parsed key, which then holds the local file's bytes; it succeeds exactly when the URL parses, the local file exists and the target container exists; otherwise IndexError, MissingLocalFile or MissingContainer, for the first of those that fails, and nothing changes |
| DataPlugin.UploadDownloadRoundTrip | tests/test_data_plugin.py:15-17 | uploading a local file and downloading the same URL gives back exactly its bytes |
| DataPlugin.DeleteNeedsBlobMarker | osmosis_azure_driver/data_plugin.py:81-84 | without `blob.core.windows.net` in the URL `delete` raises OsmosisError and changes nothing |
| DataPlugin.DeleteGuardStricter | osmosis_azure_driver/data_plugin.py:81 | every URL `delete` accepts is one `copy` treats as remote |
| DataPlugin.DeleteFrame | osmosis_azure_driver/data_plugin.py:80-88 | `delete` succeeds exactly when the marker is present, the URL parses and the blob exists, and then removes exactly that blob; with the marker, a URL that does not parse gives IndexError and a missing blob MissingBlob; on failure nothing changes |
| DataPlugin.CreateDirectoryWholeUrl | osmosis_azure_driver/data_plugin.py:117-121 | the request `create_directory` makes, as an effect on the modelled store: it adds a container named after the whole URL, never the container the URL designates, and touches nothing else |
| DataPlugin.CreateDirectoryShortUrl | osmosis_azure_driver/data_plugin.py:118 | a URL too short to parse makes `create_directory` raise IndexError and change nothing |
| DataPlugin.Plugin.constructor | osmosis_azure_driver/data_plugin.py:19-36 | the plugin keeps the resource-group name it is given and starts on the given store |
| DataPlugin.Plugin.Type | osmosis_azure_driver/data_plugin.py:38-40 | the provider tag is "Azure" |
| DataPlugin.Plugin.Copy | osmosis_azure_driver/data_plugin.py:90-115 | the new store and the outcome are those of the copy effect on the old store |
| DataPlugin.Plugin.Upload | osmosis_azure_driver/data_plugin.py:42-48 | upload is copy from the local file to the remote URL |
| DataPlugin.Plugin.Download | osmosis_azure_driver/data_plugin.py:50-56 | download is copy from the remote URL to the local file |
| DataPlugin.Plugin.Delete | osmosis_azure_driver/data_plugin.py:80-88 | the new store and the outcome are those of the delete effect on the old store |
| DataPlugin.Plugin.CreateDirectory | osmosis_azure_driver/data_plugin.py:117-121 | the new store and the outcome are those of the create-directory effect on the old store |
| DataPlugin.Plugin.UploadThenDownload | tests/test_data_plugin.py:15-17 | on one plugin, a successful upload followed by a download of the same URL succeeds and leaves the copy equal to the original file |
| ComputingPlugin.ResultFileName | osmosis_azure_driver/computing_plugin.py:88 | the name is `result-` followed by the canonical decimal text (no leading zeros) that reads back as the clock reading, which is exactly `str` of it |
| ComputingPlugin.GroupName | osmosis_azure_driver/computing_plugin.py:155 | the name is `compute` followed by the canonical decimal text (no leading zeros) that reads back as the clock reading, which is exactly `str` of it |
| ComputingPlugin.NamesDistinguishReadings | osmosis_azure_driver/computing_plugin.py:155 | different clock readings give different group names and different result-file names |
| ComputingPlugin.BuildContainerGroup | osmosis_azure_driver/computing_plugin.py:87-127 | one Linux, never-restarted container named like the group, with the given image, location, memory and cpu, no environment variables, and the command `python <in>/<algorithm> <in>/<asset> <out>/<result file>`; exactly two mounts, the input share at the input mount point then the output share at the output mount point; exactly two volumes, for the input and the output share in that order, on the one storage account, each named after its share; every mount names a volume; the input mount point resolves to the input share and (when the points differ) the output mount point to the output share |
| ComputingPlugin.ExecRequest | osmosis_azure_driver/computing_plugin.py:155-170 | in the request `exec_container` submits, the container is named like the group; the algorithm writes the returned result file under `/output`, which resolves to the output share; it reads algorithm and asset under `/input`, which resolves to the input share |
| ComputingPlugin.FirstEnd | osmosis_azure_driver/computing_plugin.py:171-176 | the index of the first poll that ends a busy-wait (the awaited state, or an exception): it ends the wait and no earlier poll does |
| ComputingPlugin.Plugin.constructor | osmosis_azure_driver/computing_plugin.py:20-36 | the plugin keeps the resource-group name it is given, over the given groups and an empty call log |
| ComputingPlugin.Plugin.Type | osmosis_azure_driver/computing_plugin.py:63-65 | the provider tag is "Azure" |
| ComputingPlugin.Plugin.CreateVm | osmosis_azure_driver/computing_plugin.py:67-71 | returns the container group it is given, and ValueError exactly when there is none |
| ComputingPlugin.Plugin.CreateContainerGroup | osmosis_azure_driver/computing_plugin.py:73-130 | logs one create-or-update of the built group under (resource group, name); when accepted the group exists with that definition and the result file name is returned, otherwise the service error propagates and the groups are unchanged |
| ComputingPlugin.Plugin.DeleteVm | osmosis_azure_driver/computing_plugin.py:192-193 | logs one delete; when accepted the group no longer exists, otherwise the groups are unchanged and the error propagates |
| ComputingPlugin.Plugin.Await | osmosis_azure_driver/computing_plugin.py:171-176 | one busy-wait: exactly one `get` per poll up to the first that ends the wait, and it reports reaching the state exactly when that poll saw it |
| ComputingPlugin.Plugin.AwaitAndDelete | osmosis_azure_driver/computing_plugin.py:171-177 | the two waits in order, then the delete only if both saw their state; the exact call log and groups in each case |
| ComputingPlugin.Plugin.ExecContainer | osmosis_azure_driver/computing_plugin.py:132-181 | with the source's defaults for the optional arguments, submits the group `compute<clock>` with mounts `/input` and `/output`; when it returns, the log is exactly the submit, the provisioning polls, the termination polls and the delete, the group is gone, and the result file name is returned; on any failure the generic ExecutionError is raised, no later call is made, and a submitted group is left in place |

## Left out

- `list`, `generate_url` and `list_container_groups` talk only to the storage or container service, which is not part of this model.
- Shared-access-signature generation is out for the same reason.
- Credential acquisition in both constructors (`_get_azure_cli_credentials`, `_login_azure_app_token`, `_login_azure_cli`) is not modelled. Neither is the OsmosisError raised when it fails, nor the storage-key lookup (`list_keys`) before every storage call: they are foreign calls.
- Logging is left out.
- The stub methods do nothing and are left out: `retrieve_availability_proof` of the data plugin, and `start_vm`, `stop_vm`, `run_command`, `status_vm`, `copy`, `retrieve_computation_proof` and `retrieve_vm_logs` of the computing plugin.
- `time.time()` is a parameter: the two readings in `exec_container` are independent integers, and any integer, including a negative one, is allowed.
- The answers of the container-instance service are parameters: acceptance of a create or delete, and the observed state per poll. SDK return values other than success or failure are not modelled.
- ComputingPlugin.Plugin.ExecContainer: a busy-wait that never sees its state runs forever in the code; the model requires that some poll ends each wait.
- Memory and cpu are floating-point numbers in Python. They are `real` values here and only carried through.
- The storage service's distinction between blob containers and file shares is not modelled: the code drives both through the blob client.
- The storage service's own validation of container names is not modelled. Every name `create_directory` passes holds at least two '/', which a container name never may, so the service always rejects the request. DataPlugin.CreateDirectoryWholeUrl describes the request the code makes, not a container that will come to exist.
- DataPlugin.Plugin.Copy: the unused `account` and `group_name` arguments of `copy` are dropped.
- ComputingPlugin.Plugin.ExecContainer: the default `cpu=1` is a Python int; here it is the real 1.0, because cpu is a `real` throughout.
- The concrete URLs of the repository's parser tests are not restated: they are instances of Utils.ParseLocatorUrl.
