/**
 * The computing plugin of osmosis_azure_driver/computing_plugin.py.
 *
 * `_create_container_group` builds one container group (one container
 * running `python <algorithm> <asset> <result file>` with two Azure file
 * shares mounted) and submits it; `exec_container` submits a group named
 * after the clock, busy-waits until it is provisioned and then until its
 * container has terminated, deletes it and returns the result file name.
 *
 * The container-instance service is abstracted to the map of container
 * groups that exist and the log of calls the plugin made to it. The two
 * `time.time()` readings are parameters. The answers the service gives to
 * the polling `get` calls are parameters too: a sequence of observations,
 * one per poll.
 */
module ComputingPlugin {
  import opened Wrappers
  import opened PyStrings

  // The SDK model classes the plugin fills in, as values.

  datatype OperatingSystemType = Linux | Windows
  datatype RestartPolicy = Always | OnFailure | Never

  datatype AzureFileVolume = AzureFileVolume(shareName: string, storageAccountName: string, storageAccountKey: string)
  datatype Volume = Volume(name: string, azureFile: AzureFileVolume)
  datatype VolumeMount = VolumeMount(name: string, mountPath: string)
  /** Memory (GB) and CPU are floats in Python; they are carried through unchanged. */
  datatype ResourceRequests = ResourceRequests(memoryInGb: real, cpu: real)
  datatype ResourceRequirements = ResourceRequirements(requests: ResourceRequests)
  datatype Container = Container(
    name: string,
    image: string,
    resources: ResourceRequirements,
    command: seq<string>,
    environmentVariables: Option<map<string, string>>,
    volumeMounts: seq<VolumeMount>)
  datatype ContainerGroup = ContainerGroup(
    location: string,
    containers: seq<Container>,
    osType: OperatingSystemType,
    restartPolicy: RestartPolicy,
    volumes: seq<Volume>)

  /** The container group a request and the service refer to. */
  datatype GroupKey = GroupKey(resourceGroupName: string, name: string)

  /** The calls the plugin makes on `client.container_groups`. */
  datatype Call =
    | CreateOrUpdate(key: GroupKey, group: ContainerGroup)
    | Get(key: GroupKey)
    | Delete(key: GroupKey)

  /** What one polling `get` gave: the state field the loop compares, or an exception. */
  datatype Poll = Observed(state: string) | Raised

  datatype ComputeError =
    | ValueError      // create_vm without a container group
    | ServiceError    // an exception out of the container-instance service
    | ExecutionError  // the generic Exception exec_container raises instead

  /** `'result-' + str(int(time.time()))`. */
  function ResultFileName(now: int): (name: string)
    ensures |name| > 7 && name[..7] == "result-"
    ensures IsCanonicalInt(name[7..]) && ParseInt(name[7..]) == now
  {
    ParseIntDecimal(now);
    var name := "result-" + IntDecimal(now);
    assert name[7..] == IntDecimal(now);
    name
  }

  /** `'compute' + str(int(time.time()))`. */
  function GroupName(now: int): (name: string)
    ensures |name| > 7 && name[..7] == "compute"
    ensures IsCanonicalInt(name[7..]) && ParseInt(name[7..]) == now
  {
    ParseIntDecimal(now);
    var name := "compute" + IntDecimal(now);
    assert name[7..] == IntDecimal(now);
    name
  }

  /** Two clock readings that differ give different group names (and result names). */
  lemma NamesDistinguishReadings(t1: int, t2: int)
    requires t1 != t2
    ensures GroupName(t1) != GroupName(t2)
    ensures ResultFileName(t1) != ResultFileName(t2)
  {
  }

  /** What `_create_container_group` submits, and the result file name it returns. */
  datatype GroupRequest = GroupRequest(resultFile: string, group: ContainerGroup)

  /** The share mounted at `path` in the group's first container, found through the volume the mount names. */
  function ShareAt(group: ContainerGroup, path: string): Option<string> {
    if |group.containers| == 0 then None
    else
      match MountedVolume(group.containers[0].volumeMounts, path)
      case None => None
      case Some(volumeName) => VolumeShare(group.volumes, volumeName)
  }

  /** The name of the volume the first mount at `path` uses. */
  function MountedVolume(mounts: seq<VolumeMount>, path: string): Option<string>
    decreases |mounts|
  {
    if |mounts| == 0 then None
    else if mounts[0].mountPath == path then Some(mounts[0].name)
    else MountedVolume(mounts[1..], path)
  }

  /** The share of the first volume called `name`. */
  function VolumeShare(volumes: seq<Volume>, name: string): Option<string>
    decreases |volumes|
  {
    if |volumes| == 0 then None
    else if volumes[0].name == name then Some(volumes[0].azureFile.shareName)
    else VolumeShare(volumes[1..], name)
  }

  /** Every mount of every container names a volume the group declares. */
  predicate MountsResolve(group: ContainerGroup) {
    forall c, m :: c in group.containers && m in c.volumeMounts ==>
      exists v :: v in group.volumes && v.name == m.name
  }

  /**
   * `_create_container_group` without its final submit. The request holds
   * exactly one container, named like the group, running the four-word
   * command `python <in>/<algorithm> <in>/<asset> <out>/<result file>`,
   * with the input share mounted at the input mount point and the output
   * share at the output mount point; both volumes use the one storage
   * account; the group runs Linux and is never restarted.
   */
  function BuildContainerGroup(
    name: string, location: string, image: string, memory: real, cpu: real,
    algorithm: string, asset: string, inputMountPoint: string, outputMountPoint: string,
    accountName: string, accountKey: string, shareNameInput: string, shareNameOutput: string,
    now: int): (r: GroupRequest)
    ensures r.resultFile == ResultFileName(now)
    ensures |r.group.containers| == 1 && r.group.containers[0].name == name
    ensures r.group.containers[0].image == image && r.group.location == location
    ensures r.group.containers[0].resources.requests == ResourceRequests(memory, cpu)
    ensures r.group.containers[0].command
            == ["python", inputMountPoint + "/" + algorithm, inputMountPoint + "/" + asset,
                outputMountPoint + "/" + r.resultFile]
    ensures r.group.containers[0].environmentVariables.None?
    ensures r.group.osType == Linux && r.group.restartPolicy == Never
    ensures |r.group.volumes| == 2
            && r.group.volumes[0].azureFile.shareName == shareNameInput
            && r.group.volumes[1].azureFile.shareName == shareNameOutput
    ensures r.group.containers[0].volumeMounts
            == [VolumeMount(shareNameInput, inputMountPoint), VolumeMount(shareNameOutput, outputMountPoint)]
    ensures forall v :: v in r.group.volumes ==>
              v.azureFile.storageAccountName == accountName && v.azureFile.storageAccountKey == accountKey
              && v.name == v.azureFile.shareName
    ensures MountsResolve(r.group)
    ensures ShareAt(r.group, inputMountPoint) == Some(shareNameInput)
    ensures inputMountPoint != outputMountPoint ==> ShareAt(r.group, outputMountPoint) == Some(shareNameOutput)
  {
    var resultFile := ResultFileName(now);
    var command := ["python", inputMountPoint + "/" + algorithm, inputMountPoint + "/" + asset,
                    outputMountPoint + "/" + resultFile];
    var azFileInput := AzureFileVolume(shareNameInput, accountName, accountKey);
    var azFileOutput := AzureFileVolume(shareNameOutput, accountName, accountKey);
    var volumes := [Volume(shareNameInput, azFileInput), Volume(shareNameOutput, azFileOutput)];
    var mounts := [VolumeMount(shareNameInput, inputMountPoint), VolumeMount(shareNameOutput, outputMountPoint)];
    var requests := ResourceRequests(memory, cpu);
    var container := Container(name, image, ResourceRequirements(requests), command, None, mounts);
    var group := ContainerGroup(location, [container], Linux, Never, volumes);
    assert ShareAt(group, inputMountPoint) == Some(shareNameInput);
    assert mounts[1..] == [VolumeMount(shareNameOutput, outputMountPoint)];
    assert volumes[1..] == [Volume(shareNameOutput, azFileOutput)];
    assert VolumeShare(volumes, shareNameOutput) == Some(shareNameOutput);
    assert MountedVolume(mounts[1..], outputMountPoint) == Some(shareNameOutput);
    assert inputMountPoint != outputMountPoint ==> MountedVolume(mounts, outputMountPoint) == Some(shareNameOutput);
    GroupRequest(resultFile, group)
  }

  /** The mount points `exec_container` always passes. */
  const InputMountPoint := "/input"
  const OutputMountPoint := "/output"

  /** The defaults of `exec_container`'s optional arguments. */
  const DefaultShareNameInput := "compute"
  const DefaultShareNameOutput := "output"
  const DefaultDockerImage := "python:3.6-alpine"
  const DefaultMemory: real := 1.5
  const DefaultCpu: real := 1.0

  /**
   * The request `exec_container` submits, given its arguments and the two
   * clock readings. The container is named like the group; the algorithm's
   * output argument is the result file under `/output`, and that mount is
   * the output share, so the result lands in the output share under the
   * name `exec_container` returns; the algorithm and the asset are read
   * from under `/input`, which is the input share.
   */
  function ExecRequest(
    assetUrl: string, algorithmUrl: string, accountName: string, accountKey: string, location: string,
    shareNameInput: string, shareNameOutput: string, dockerImage: string, memory: real, cpu: real,
    groupClock: int, resultClock: int): (r: GroupRequest)
    ensures r.resultFile == ResultFileName(resultClock)
    ensures |r.group.containers| == 1 && r.group.containers[0].name == GroupName(groupClock)
    ensures |r.group.containers[0].command| == 4
    ensures r.group.containers[0].command[3] == OutputMountPoint + "/" + r.resultFile
    ensures ShareAt(r.group, OutputMountPoint) == Some(shareNameOutput)
    ensures r.group.containers[0].command[1] == InputMountPoint + "/" + algorithmUrl
    ensures r.group.containers[0].command[2] == InputMountPoint + "/" + assetUrl
    ensures ShareAt(r.group, InputMountPoint) == Some(shareNameInput)
  {
    assert InputMountPoint[1] != OutputMountPoint[1];
    BuildContainerGroup(GroupName(groupClock), location, dockerImage, memory, cpu, algorithmUrl, assetUrl,
                        InputMountPoint, OutputMountPoint, accountName, accountKey,
                        shareNameInput, shareNameOutput, resultClock)
  }

  /** The poll ends a wait: the awaited state was seen, or the `get` raised. */
  predicate Ends(p: Poll, target: string) {
    p == Raised || p == Observed(target)
  }

  /** Some poll in the sequence ends the wait, so the busy loop stops. */
  predicate EventuallyEnds(polls: seq<Poll>, target: string) {
    exists i :: 0 <= i < |polls| && Ends(polls[i], target)
  }

  /** The index of the poll that ends the wait. */
  function FirstEnd(polls: seq<Poll>, target: string): (k: nat)
    requires EventuallyEnds(polls, target)
    ensures k < |polls| && Ends(polls[k], target)
    ensures forall j :: 0 <= j < k ==> !Ends(polls[j], target)
    decreases |polls|
  {
    if Ends(polls[0], target) then 0
    else
      assert EventuallyEnds(polls[1..], target) by {
        var i :| 0 <= i < |polls| && Ends(polls[i], target);
        assert i > 0 && Ends(polls[1..][i - 1], target);
      }
      1 + FirstEnd(polls[1..], target)
  }

  /** `n` polling `get` calls on one group. */
  function Gets(key: GroupKey, n: nat): (calls: seq<Call>)
    ensures |calls| == n && forall i :: 0 <= i < n ==> calls[i] == Get(key)
  {
    seq(n, _ => Get(key))
  }

  /**
   * The plugin together with the container-instance service it drives:
   * the container groups that exist and every call made so far.
   */
  class Plugin {
    var groups: map<GroupKey, ContainerGroup>
    var calls: seq<Call>
    const resourceGroupName: Option<string>

    constructor (resourceGroupName: Option<string>, groups: map<GroupKey, ContainerGroup>)
      ensures this.groups == groups && calls == [] && this.resourceGroupName == resourceGroupName
    {
      this.resourceGroupName := resourceGroupName;
      this.groups := groups;
      calls := [];
    }

    /** `type()`: the provider tag. */
    function Type(): (tag: string)
      ensures tag == "Azure"
    {
      "Azure"
    }

    /**
     * `create_vm`: hands back the container group it is given and raises
     * ValueError when there is none.
     */
    static function CreateVm(containerGroup: Option<ContainerGroup>): (r: Result<ContainerGroup, ComputeError>)
      ensures r.Success? <==> containerGroup.Some?
      ensures r.Success? ==> r.value == containerGroup.value
      ensures r.Failure? ==> r.error == ValueError
    {
      match containerGroup
      case Some(g) => Success(g)
      case None => Failure(ValueError)
    }

    /**
     * `_create_container_group`: builds the request and submits it. When the
     * service accepts it the group exists under its key with that
     * definition; otherwise the service's exception propagates.
     */
    method CreateContainerGroup(
      resourceGroupName: string, name: string, location: string, image: string, memory: real, cpu: real,
      algorithm: string, asset: string, inputMountPoint: string, outputMountPoint: string,
      accountName: string, accountKey: string, shareNameInput: string, shareNameOutput: string,
      now: int, accepted: bool) returns (r: Result<string, ComputeError>)
      modifies this
      ensures var request := BuildContainerGroup(name, location, image, memory, cpu, algorithm, asset,
                                                 inputMountPoint, outputMountPoint, accountName, accountKey,
                                                 shareNameInput, shareNameOutput, now);
              && calls == old(calls) + [CreateOrUpdate(GroupKey(resourceGroupName, name), request.group)]
              && (accepted ==> r == Success(request.resultFile)
                               && groups == old(groups)[GroupKey(resourceGroupName, name) := request.group])
              && (!accepted ==> r == Failure(ServiceError) && groups == old(groups))
    {
      var request := BuildContainerGroup(name, location, image, memory, cpu, algorithm, asset,
                                         inputMountPoint, outputMountPoint, accountName, accountKey,
                                         shareNameInput, shareNameOutput, now);
      var key := GroupKey(resourceGroupName, name);
      calls := calls + [CreateOrUpdate(key, request.group)];
      if accepted {
        groups := groups[key := request.group];
        r := Success(request.resultFile);
      } else {
        r := Failure(ServiceError);
      }
    }

    /** `delete_vm`: the group no longer exists. */
    method DeleteVm(containerGroupName: string, resourceGroupName: string, accepted: bool)
      returns (r: Outcome<ComputeError>)
      modifies this
      ensures calls == old(calls) + [Delete(GroupKey(resourceGroupName, containerGroupName))]
      ensures accepted ==> r == Pass && groups == old(groups) - {GroupKey(resourceGroupName, containerGroupName)}
      ensures !accepted ==> r == Fail(ServiceError) && groups == old(groups)
    {
      var key := GroupKey(resourceGroupName, containerGroupName);
      calls := calls + [Delete(key)];
      if accepted {
        groups := groups - {key};
        r := Pass;
      } else {
        r := Fail(ServiceError);
      }
    }

    /**
     * One busy-wait loop of `exec_container`: `get` the group until a poll
     * ends the wait. Returns whether it ended by seeing `target` (rather
     * than by an exception) and logs one `get` per poll.
     */
    method Await(key: GroupKey, polls: seq<Poll>, target: string) returns (reached: bool)
      requires EventuallyEnds(polls, target)
      modifies this`calls
      ensures calls == old(calls) + Gets(key, FirstEnd(polls, target) + 1)
      ensures reached <==> polls[FirstEnd(polls, target)] == Observed(target)
    {
      var i := 0;
      calls := calls + [Get(key)];
      while !Ends(polls[i], target)
        invariant 0 <= i <= FirstEnd(polls, target)
        invariant calls == old(calls) + Gets(key, i + 1)
        decreases FirstEnd(polls, target) - i
      {
        i := i + 1;
        calls := calls + [Get(key)];
      }
      reached := polls[i] == Observed(target);
    }

    /**
     * The part of `exec_container` after the submit: wait for provisioning,
     * then for termination, then delete the group. The delete is issued only
     * when both waits saw their state; `completed` says that all three went
     * through without an exception.
     */
    method AwaitAndDelete(key: GroupKey, provisioning: seq<Poll>, running: seq<Poll>, deleteAccepted: bool)
      returns (completed: bool)
      requires EventuallyEnds(provisioning, "Succeeded")
      requires EventuallyEnds(running, "Terminated")
      modifies this
      ensures var p := FirstEnd(provisioning, "Succeeded");
              var t := FirstEnd(running, "Terminated");
              if provisioning[p] == Raised then
                !completed && calls == old(calls) + Gets(key, p + 1) && groups == old(groups)
              else if running[t] == Raised then
                !completed && calls == old(calls) + Gets(key, p + 1) + Gets(key, t + 1) && groups == old(groups)
              else
                calls == old(calls) + Gets(key, p + 1) + Gets(key, t + 1) + [Delete(key)]
                && completed == deleteAccepted
                && groups == if deleteAccepted then old(groups) - {key} else old(groups)
    {
      var provisioned := Await(key, provisioning, "Succeeded");
      if !provisioned {
        return false;
      }
      var terminated := Await(key, running, "Terminated");
      if !terminated {
        return false;
      }
      var deleted := DeleteVm(key.name, key.resourceGroupName, deleteAccepted);
      completed := deleted == Pass;
    }

    /**
     * `exec_container`. The group is named `'compute'` + the first clock
     * reading and the result file after the second; the mount points are
     * always `/input` and `/output`. On success the calls are exactly: the
     * submit, the provisioning polls, the termination polls, then the
     * delete; the group is gone and the result file name is returned. On
     * any exception the generic error is raised and no delete follows the
     * failing call, so a submitted group is left behind. The source's own
     * arguments come first, with its defaults; the two clock readings and
     * the service's answers follow and are passed by name.
     */
    method ExecContainer(
      assetUrl: string, algorithmUrl: string, resourceGroupName: string, accountName: string,
      accountKey: string, location: string,
      shareNameInput: string := DefaultShareNameInput, shareNameOutput: string := DefaultShareNameOutput,
      dockerImage: string := DefaultDockerImage, memory: real := DefaultMemory, cpu: real := DefaultCpu,
      nameonly groupClock: int, nameonly resultClock: int,
      nameonly submitAccepted: bool, nameonly provisioning: seq<Poll>, nameonly running: seq<Poll>,
      nameonly deleteAccepted: bool)
      returns (r: Result<string, ComputeError>)
      requires EventuallyEnds(provisioning, "Succeeded")
      requires EventuallyEnds(running, "Terminated")
      modifies this
      ensures r.Failure? ==> r.error == ExecutionError
      ensures var key := GroupKey(resourceGroupName, GroupName(groupClock));
              var request := ExecRequest(assetUrl, algorithmUrl, accountName, accountKey, location,
                                         shareNameInput, shareNameOutput, dockerImage, memory, cpu,
                                         groupClock, resultClock);
              var p := FirstEnd(provisioning, "Succeeded");
              var t := FirstEnd(running, "Terminated");
              var submitted := old(calls) + [CreateOrUpdate(key, request.group)];
              if !submitAccepted then
                r.Failure? && calls == submitted && groups == old(groups)
              else if provisioning[p] == Raised then
                r.Failure? && calls == submitted + Gets(key, p + 1) && groups == old(groups)[key := request.group]
              else if running[t] == Raised then
                r.Failure? && calls == submitted + Gets(key, p + 1) + Gets(key, t + 1)
                && groups == old(groups)[key := request.group]
              else
                calls == submitted + Gets(key, p + 1) + Gets(key, t + 1) + [Delete(key)]
                && (deleteAccepted ==> r == Success(request.resultFile) && groups == old(groups) - {key})
                && (!deleteAccepted ==> r.Failure? && groups == old(groups)[key := request.group])
    {
      var containerGroupName := GroupName(groupClock);
      var key := GroupKey(resourceGroupName, containerGroupName);
      var created := CreateContainerGroup(resourceGroupName, containerGroupName, location, dockerImage,
                                          memory, cpu, algorithmUrl, assetUrl, InputMountPoint, OutputMountPoint,
                                          accountName, accountKey, shareNameInput, shareNameOutput,
                                          resultClock, submitAccepted);
      if created.Failure? {
        return Failure(ExecutionError);
      }
      var completed := AwaitAndDelete(key, provisioning, running, deleteAccepted);
      if !completed {
        return Failure(ExecutionError);
      }
      r := Success(created.value);
    }
  }
}
