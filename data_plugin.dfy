/**
 * The data plugin of osmosis_azure_driver/data_plugin.py.
 *
 * The storage service is abstracted to a map from (account, container,
 * blob) to the blob's bytes, the set of containers that exist, and the
 * local file system as a map from path to bytes. The plugin decides which
 * side of a copy is remote by looking for the storage-domain marker, reads
 * the blob key off the URL with its own three-field parser, and performs
 * one read or one write on that key.
 */
module DataPlugin {
  import opened Wrappers
  import opened PyStrings
  import Utils

  type Bytes = seq<bv8>

  /** The three-field `azure_parameters` record of this module. */
  datatype BlobLocator = BlobLocator(account: string, container: string, blob: string)

  /** A container of a storage account. */
  datatype ContainerKey = ContainerKey(account: string, name: string)

  /**
   * What a call can raise: the plugin's own OsmosisError, Python's
   * IndexError from parsing a short URL, and the failures of the storage
   * service and of the local file system it runs into.
   */
  datatype DataError = OsmosisError | IndexError | MissingBlob | MissingContainer | MissingLocalFile

  /** A path names remote storage when it contains this marker. */
  const StorageMarker := "core.windows.net"
  /** `delete` accepts only URLs that contain this stricter marker. */
  const BlobMarker := "blob.core.windows.net"

  predicate IsRemote(path: string) {
    Contains(path, StorageMarker)
  }

  /**
   * The module's own `_parse_url`: segment 0 of `url[8:]` up to its first
   * '.', then segments 1 and 2. It fails (IndexError) exactly when there are
   * fewer than three segments; anything after segment 2 is ignored.
   */
  function ParseUrl(url: string): (r: Result<BlobLocator, DataError>)
    ensures r.Success? <==> Count(Utils.Rest(url), '/') >= 2
    ensures r.Failure? ==> r.error == IndexError
    ensures r.Success? ==> '.' !in r.value.account && '/' !in r.value.account
    ensures r.Success? ==> '/' !in r.value.container && '/' !in r.value.blob
  {
    var segments := Split(Utils.Rest(url), '/');
    if |segments| < 3 then
      Failure(IndexError)
    else
      Utils.PieceOfPiece(segments[0], '.', '/', 0);
      Success(BlobLocator(Split(segments[0], '.')[0], segments[1], segments[2]))
  }

  /**
   * What the parser reads off any URL of three or more '/'-segments: the
   * host segment up to its first '.' (all of it when it has none), then
   * segments 1 and 2; later segments play no part.
   */
  lemma GeneralParse(scheme: string, segs: seq<string>)
    requires |scheme| == 8 && |segs| >= 3
    requires forall i :: 0 <= i < |segs| ==> '/' !in segs[i]
    ensures ParseUrl(scheme + Join(segs, '/')) == Success(BlobLocator(Split(segs[0], '.')[0], segs[1], segs[2]))
  {
    assert Utils.Rest(scheme + Join(segs, '/')) == Join(segs, '/');
    SplitJoin(segs, '/');
  }

  /**
   * Where the five-field parser of utils.py succeeds, this one reads the
   * same account and container, and takes as blob the path segment when
   * there is one and the file otherwise.
   */
  lemma AgreesWithLocator(url: string)
    requires Utils.ParseUrl(url).Success?
    ensures var p := Utils.ParseUrl(url).value;
            ParseUrl(url) == Success(BlobLocator(p.account, p.containerOrShareName, p.path.GetOr(p.file)))
  {
  }

  /** With a sub-folder in the URL the blob read off it is the folder, not the file. */
  lemma SubfolderIsBlob(p: Utils.AzureParameters)
    requires Utils.WellFormed(p) && p.path.Some?
    ensures ParseUrl(Utils.LocatorUrl(p)) == Success(BlobLocator(p.account, p.containerOrShareName, p.path.value))
  {
    Utils.ParseLocatorUrl(p);
    AgreesWithLocator(Utils.LocatorUrl(p));
  }

  /** Without a sub-folder the blob is the URL's last segment. */
  lemma FlatUrlBlob(p: Utils.AzureParameters)
    requires Utils.WellFormed(p) && p.path.None?
    ensures ParseUrl(Utils.LocatorUrl(p)) == Success(BlobLocator(p.account, p.containerOrShareName, p.file))
  {
    Utils.ParseLocatorUrl(p);
    AgreesWithLocator(Utils.LocatorUrl(p));
  }

  /** The one transfer `copy` performs. */
  datatype Transfer =
    | Download(source: BlobLocator, localPath: string)
    | Upload(localPath: string, target: BlobLocator)

  /**
   * The decision `copy` takes before touching anything. It raises
   * OsmosisError exactly when neither path is remote; a remote source is
   * always downloaded to `dest`, even when `dest` is remote as well; only a
   * local source with a remote destination is uploaded. The blob key comes
   * from parsing the remote side, whose IndexError propagates.
   */
  function Route(source: string, dest: string): (r: Result<Transfer, DataError>)
    ensures r == Failure(OsmosisError) <==> !IsRemote(source) && !IsRemote(dest)
    ensures r.Success? && r.value.Download? <==> IsRemote(source) && ParseUrl(source).Success?
    ensures r.Success? && r.value.Download? ==> Success(r.value.source) == ParseUrl(source) && r.value.localPath == dest
    ensures r.Success? && r.value.Upload? <==> !IsRemote(source) && IsRemote(dest) && ParseUrl(dest).Success?
    ensures r.Success? && r.value.Upload? ==> Success(r.value.target) == ParseUrl(dest) && r.value.localPath == source
    ensures r == Failure(IndexError) <==>
            if IsRemote(source) then ParseUrl(source).Failure? else IsRemote(dest) && ParseUrl(dest).Failure?
  {
    if !IsRemote(source) && !IsRemote(dest) then
      Failure(OsmosisError)
    else if IsRemote(source) then
      match ParseUrl(source)
      case Success(key) => Success(Download(key, dest))
      case Failure(e) => Failure(e)
    else
      match ParseUrl(dest)
      case Success(key) => Success(Upload(source, key))
      case Failure(e) => Failure(e)
  }

  /** The remote storage the plugin talks to, together with the local file system. */
  datatype Store = Store(blobs: map<BlobLocator, Bytes>, files: map<string, Bytes>, containers: set<ContainerKey>)

  /** Every stored blob lives in a container that exists. */
  predicate Consistent(st: Store) {
    forall k :: k in st.blobs ==> ContainerKey(k.account, k.container) in st.containers
  }

  /** The store after a call, and whether the call returned or raised. */
  datatype Step = Step(store: Store, outcome: Outcome<DataError>)

  /** The effect of `copy(source, dest)`. */
  function CopyEffect(st: Store, source: string, dest: string): (r: Step)
    ensures r.outcome != Pass ==> r.store == st
    ensures Consistent(st) ==> Consistent(r.store)
  {
    match Route(source, dest)
    case Failure(e) => Step(st, Fail(e))
    case Success(Download(key, local)) =>
      if key in st.blobs then Step(st.(files := st.files[local := st.blobs[key]]), Pass)
      else Step(st, Fail(MissingBlob))
    case Success(Upload(local, key)) =>
      if local !in st.files then Step(st, Fail(MissingLocalFile))
      else if ContainerKey(key.account, key.container) !in st.containers then Step(st, Fail(MissingContainer))
      else Step(st.(blobs := st.blobs[key := st.files[local]]), Pass)
  }

  /** The effect of `delete(remote_file)`. */
  function DeleteEffect(st: Store, remoteFile: string): (r: Step)
    ensures r.outcome != Pass ==> r.store == st
    ensures Consistent(st) ==> Consistent(r.store)
  {
    if !Contains(remoteFile, BlobMarker) then Step(st, Fail(OsmosisError))
    else
      match ParseUrl(remoteFile)
      case Failure(e) => Step(st, Fail(e))
      case Success(key) =>
        if key in st.blobs then Step(st.(blobs := st.blobs - {key}), Pass)
        else Step(st, Fail(MissingBlob))
  }

  /** The effect of `create_directory(remote_folder)`: the container is named by the whole URL. */
  function CreateDirectoryEffect(st: Store, remoteFolder: string): (r: Step)
    ensures r.outcome != Pass ==> r.store == st
    ensures Consistent(st) ==> Consistent(r.store)
  {
    match ParseUrl(remoteFolder)
    case Failure(e) => Step(st, Fail(e))
    case Success(key) => Step(st.(containers := st.containers + {ContainerKey(key.account, remoteFolder)}), Pass)
  }

  /** Two local paths raise OsmosisError and leave everything as it was. */
  lemma CopyRejectsLocalPaths(st: Store, source: string, dest: string)
    requires !IsRemote(source) && !IsRemote(dest)
    ensures CopyEffect(st, source, dest) == Step(st, Fail(OsmosisError))
  {
  }

  /**
   * A remote source is downloaded: the remote side is untouched, and the
   * local file system changes at `dest` alone, which then holds the blob.
   */
  lemma DownloadFrame(st: Store, source: string, dest: string)
    requires IsRemote(source)
    ensures var after := CopyEffect(st, source, dest);
            && after.store.blobs == st.blobs
            && after.store.containers == st.containers
            && (forall p :: p != dest ==> (p in after.store.files <==> p in st.files))
            && (forall p :: p != dest && p in st.files ==> after.store.files[p] == st.files[p])
            && (after.outcome == Pass <==> ParseUrl(source).Success? && ParseUrl(source).value in st.blobs)
            && (after.outcome == Pass ==> after.store.files[dest] == st.blobs[ParseUrl(source).value])
            && (ParseUrl(source).Failure? ==> after.outcome == Fail(IndexError))
            && (ParseUrl(source).Success? && ParseUrl(source).value !in st.blobs ==> after.outcome == Fail(MissingBlob))
  {
  }

  /**
   * A local source with a remote destination is uploaded: the local side is
   * untouched, and the blobs change at the destination key alone. The upload
   * succeeds exactly when the URL parses, the local file exists and the
   * target container exists; otherwise the first of those that fails names
   * the error.
   */
  lemma UploadFrame(st: Store, source: string, dest: string)
    requires !IsRemote(source) && IsRemote(dest)
    ensures var after := CopyEffect(st, source, dest);
            && after.store.files == st.files
            && after.store.containers == st.containers
            && (after.outcome == Pass <==>
                  ParseUrl(dest).Success? && source in st.files
                  && ContainerKey(ParseUrl(dest).value.account, ParseUrl(dest).value.container) in st.containers)
            && (ParseUrl(dest).Failure? ==> after.outcome == Fail(IndexError))
            && (ParseUrl(dest).Success? && source !in st.files ==> after.outcome == Fail(MissingLocalFile))
            && (ParseUrl(dest).Success? && source in st.files
                && ContainerKey(ParseUrl(dest).value.account, ParseUrl(dest).value.container) !in st.containers
                ==> after.outcome == Fail(MissingContainer))
            && (after.outcome == Pass ==>
                  source in st.files && ParseUrl(dest).Success?
                  && after.store.blobs == st.blobs[ParseUrl(dest).value := st.files[source]])
            && (after.outcome != Pass ==> after.store == st)
  {
  }

  /**
   * Uploading a local file and then downloading the same URL to any local
   * path gives back exactly the uploaded bytes.
   */
  lemma UploadDownloadRoundTrip(st: Store, local: string, remote: string, copyPath: string)
    requires !IsRemote(local) && IsRemote(remote)
    requires CopyEffect(st, local, remote).outcome == Pass
    ensures var uploaded := CopyEffect(st, local, remote).store;
            var downloaded := CopyEffect(uploaded, remote, copyPath);
            downloaded.outcome == Pass && downloaded.store.files[copyPath] == st.files[local]
  {
    var key := ParseUrl(remote).value;
    assert Route(local, remote) == Success(Upload(local, key));
    assert Route(remote, copyPath) == Success(Download(key, copyPath));
  }

  /** `delete` raises OsmosisError, touching nothing, unless the URL contains the blob marker. */
  lemma DeleteNeedsBlobMarker(st: Store, remoteFile: string)
    requires !Contains(remoteFile, BlobMarker)
    ensures DeleteEffect(st, remoteFile) == Step(st, Fail(OsmosisError))
  {
  }

  /** Every URL `delete` accepts is one `copy` treats as remote: the blob marker is the stricter test. */
  lemma DeleteGuardStricter(remoteFile: string)
    requires Contains(remoteFile, BlobMarker)
    ensures IsRemote(remoteFile)
  {
    assert BlobMarker == "blob." + StorageMarker;
    ContainsSuffixOfMarker(remoteFile, "blob.", StorageMarker);
  }

  /** A successful `delete` removes exactly the parsed key, which was present. */
  lemma DeleteFrame(st: Store, remoteFile: string)
    ensures var after := DeleteEffect(st, remoteFile);
            && after.store.files == st.files
            && after.store.containers == st.containers
            && (after.outcome == Pass <==>
                  Contains(remoteFile, BlobMarker) && ParseUrl(remoteFile).Success? && ParseUrl(remoteFile).value in st.blobs)
            && (after.outcome == Pass ==> after.store.blobs == st.blobs - {ParseUrl(remoteFile).value})
            && (Contains(remoteFile, BlobMarker) && ParseUrl(remoteFile).Failure? ==> after.outcome == Fail(IndexError))
            && (Contains(remoteFile, BlobMarker) && ParseUrl(remoteFile).Success? && ParseUrl(remoteFile).value !in st.blobs
                ==> after.outcome == Fail(MissingBlob))
            && (after.outcome != Pass ==> after.store == st)
  {
  }

  /**
   * `create_directory` names the new container after the whole URL, so it
   * is never the container the URL itself designates (that one has no '/',
   * the URL has at least two). This is the request the code makes; the
   * storage service does not accept a container name holding '/'.
   */
  lemma CreateDirectoryWholeUrl(st: Store, remoteFolder: string)
    requires ParseUrl(remoteFolder).Success?
    ensures var key := ParseUrl(remoteFolder).value;
            var after := CreateDirectoryEffect(st, remoteFolder);
            && after.outcome == Pass
            && after.store.containers == st.containers + {ContainerKey(key.account, remoteFolder)}
            && remoteFolder != key.container
            && after.store.blobs == st.blobs && after.store.files == st.files
  {
    var key := ParseUrl(remoteFolder).value;
    var rest := Utils.Rest(remoteFolder);
    CountZero(rest, '/');
    assert |remoteFolder| > 8;
    assert remoteFolder == remoteFolder[..8] + rest;
  }

  /** A URL too short to parse makes `create_directory` raise IndexError and changes nothing. */
  lemma CreateDirectoryShortUrl(st: Store, remoteFolder: string)
    requires ParseUrl(remoteFolder).Failure?
    ensures CreateDirectoryEffect(st, remoteFolder) == Step(st, Fail(IndexError))
  {
  }

  /**
   * The plugin together with the storage account and local disk it works
   * on. Credential lookup and the storage-key round trip are not modelled.
   */
  class Plugin {
    var blobs: map<BlobLocator, Bytes>
    var files: map<string, Bytes>
    var containers: set<ContainerKey>
    const resourceGroupName: Option<string>

    function State(): Store
      reads this
    {
      Store(blobs, files, containers)
    }

    constructor (resourceGroupName: Option<string>, world: Store)
      ensures State() == world && this.resourceGroupName == resourceGroupName
    {
      this.resourceGroupName := resourceGroupName;
      blobs, files, containers := world.blobs, world.files, world.containers;
    }

    /** `type()`: the provider tag. */
    function Type(): (tag: string)
      ensures tag == "Azure"
    {
      "Azure"
    }

    method Copy(source: string, dest: string) returns (outcome: Outcome<DataError>)
      modifies this
      ensures Step(State(), outcome) == CopyEffect(old(State()), source, dest)
    {
      var route := Route(source, dest);
      match route
      case Failure(e) =>
        outcome := Fail(e);
      case Success(Download(key, local)) =>
        if key in blobs {
          files := files[local := blobs[key]];
          outcome := Pass;
        } else {
          outcome := Fail(MissingBlob);
        }
      case Success(Upload(local, key)) =>
        if local !in files {
          outcome := Fail(MissingLocalFile);
        } else if ContainerKey(key.account, key.container) !in containers {
          outcome := Fail(MissingContainer);
        } else {
          blobs := blobs[key := files[local]];
          outcome := Pass;
        }
    }

    /** `upload(local_file, remote_file)` is `copy(local_file, remote_file)`. */
    method Upload(localFile: string, remoteFile: string) returns (outcome: Outcome<DataError>)
      modifies this
      ensures Step(State(), outcome) == CopyEffect(old(State()), localFile, remoteFile)
    {
      outcome := Copy(localFile, remoteFile);
    }

    /** `download(remote_file, local_file)` is `copy(remote_file, local_file)`. */
    method Download(remoteFile: string, localFile: string) returns (outcome: Outcome<DataError>)
      modifies this
      ensures Step(State(), outcome) == CopyEffect(old(State()), remoteFile, localFile)
    {
      outcome := Copy(remoteFile, localFile);
    }

    method Delete(remoteFile: string) returns (outcome: Outcome<DataError>)
      modifies this
      ensures Step(State(), outcome) == DeleteEffect(old(State()), remoteFile)
    {
      if !Contains(remoteFile, BlobMarker) {
        return Fail(OsmosisError);
      }
      var parsed := ParseUrl(remoteFile);
      match parsed
      case Failure(e) =>
        outcome := Fail(e);
      case Success(key) =>
        if key in blobs {
          blobs := blobs - {key};
          outcome := Pass;
        } else {
          outcome := Fail(MissingBlob);
        }
    }

    method CreateDirectory(remoteFolder: string) returns (outcome: Outcome<DataError>)
      modifies this
      ensures Step(State(), outcome) == CreateDirectoryEffect(old(State()), remoteFolder)
    {
      var parsed := ParseUrl(remoteFolder);
      match parsed
      case Failure(e) =>
        outcome := Fail(e);
      case Success(key) =>
        containers := containers + {ContainerKey(key.account, remoteFolder)};
        outcome := Pass;
    }

    /** The repository's upload-then-download scenario, on one plugin. */
    method UploadThenDownload(localFile: string, remoteFile: string, copyPath: string)
      returns (up: Outcome<DataError>, down: Outcome<DataError>)
      requires !IsRemote(localFile) && IsRemote(remoteFile)
      modifies this
      ensures up == Pass ==> localFile in old(files) && down == Pass
                             && copyPath in files && files[copyPath] == old(files)[localFile]
    {
      ghost var before := State();
      up := Upload(localFile, remoteFile);
      down := Download(remoteFile, copyPath);
      if up == Pass {
        UploadDownloadRoundTrip(before, localFile, remoteFile, copyPath);
      }
    }
  }
}
