/**
 * The storage-content layer of the Proxmox client (storage.go): which
 * content classes may be uploaded or imported, the forms and endpoints of
 * the upload, URL-import, retrieval and delete requests, and how a volume
 * identifier is filled in or rebuilt.
 *
 * Each operation is a method over the client's request log (and, for upload,
 * the local file system's operation log); what the remote side and the file
 * system answer are parameters. The `...Effect` functions give the whole
 * observable outcome of an operation; the methods are proved to produce it.
 */
module Proxmox {
  import opened Common
  import opened Transport
  import opened LocalFs
  import opened VolumeIds
  import FilePath

  // ---------------------------------------------------------------- content gate

  /** The content classes that may be uploaded or imported (`validContent`). */
  const ValidContentClasses: set<string> := {"iso", "vztmpl"}

  predicate ValidContent(content: string)
    ensures ValidContent(content) <==> content == "iso" || content == "vztmpl"
  {
    content in ValidContentClasses
  }

  const ContentClassError := Error("only iso and vztmpl allowed")

  const MissingVolumeError := Error("volid or path required for a delete")

  /**
   * The error for an upload of a directory: `file is a directory ` followed by
   * the path; it is neither the class error nor the delete path's error.
   */
  function DirectoryError(file: string): (e: Error)
    ensures |e.message| == 20 + |file|
    ensures e.message[..20] == "file is a directory " && e.message[20..] == file
    ensures e != ContentClassError && e != MissingVolumeError
  {
    var e := Error("file is a directory " + file);
    assert e.message[0] == 'f';
    e
  }

  // ---------------------------------------------------------------- endpoints

  /** The path of storage `storage` on node `node`: `/nodes/<node>/storage/<storage>`. */
  function StoragePath(node: string, storage: string): (p: string)
    ensures |p| == |node| + |storage| + 16
    ensures p[..7] == "/nodes/" && p[7..7 + |node|] == node
    ensures p[7 + |node|..16 + |node|] == "/storage/" && p[16 + |node|..] == storage
  {
    "/nodes/" + node + "/storage/" + storage
  }

  /**
   * The upload endpoint: the storage's path followed by `/upload`; it is not
   * the URL-import endpoint.
   */
  function UploadEndpoint(node: string, storage: string): (e: string)
    ensures StoragePath(node, storage) < e && |e| == |StoragePath(node, storage)| + 7
    ensures e[|e| - 7..] == "/upload"
    ensures e != DownloadEndpoint(node, storage)
  {
    var p := StoragePath(node, storage);
    assert (p + "/upload")[|p| + 1] == 'u' && (p + "/download-url")[|p| + 1] == 'd';
    p + "/upload"
  }

  /** The URL-import endpoint: the storage's path followed by `/download-url`. */
  function DownloadEndpoint(node: string, storage: string): (e: string)
    ensures StoragePath(node, storage) < e && |e| == |StoragePath(node, storage)| + 13
    ensures e[|e| - 13..] == "/download-url"
  {
    StoragePath(node, storage) + "/download-url"
  }

  /**
   * The endpoint of one volume: the storage's path, `/content/`, then the
   * identifier; never one of the upload or URL-import endpoints.
   */
  function ContentEndpoint(node: string, storage: string, volId: string): (e: string)
    ensures StoragePath(node, storage) < e && |e| == |StoragePath(node, storage)| + 9 + |volId|
    ensures e[|StoragePath(node, storage)|..|StoragePath(node, storage)| + 9] == "/content/"
    ensures e[|e| - |volId|..] == volId
    ensures e != UploadEndpoint(node, storage) && e != DownloadEndpoint(node, storage)
  {
    var p := StoragePath(node, storage);
    var e := p + "/content/" + volId;
    assert e[|p| + 1] == 'c';
    assert UploadEndpoint(node, storage)[|p| + 1] == 'u';
    assert DownloadEndpoint(node, storage)[|p| + 1] == 'd';
    e
  }

  // ---------------------------------------------------------------- forms

  /** `base` with the optional `extras` written over it, key by key. */
  function Overlay(base: map<string, string>, extras: Option<map<string, string>>): (r: map<string, string>)
    ensures extras.None? ==> r == base
    ensures extras.Some? ==> r.Keys == base.Keys + extras.value.Keys
    ensures extras.Some? ==> forall k :: k in extras.value ==> r[k] == extras.value[k]
    ensures extras.Some? ==> forall k :: k in base && k !in extras.value ==> r[k] == base[k]
  {
    match extras
    case None => base
    case Some(e) => base + e
  }

  /**
   * The merge loop of `upload` and `downloadURL`: copies each entry of the
   * optional extras into `data`, in any order.
   */
  method MergeExtras(data: map<string, string>, extraArgs: Option<map<string, string>>)
    returns (merged: map<string, string>)
    ensures merged == Overlay(data, extraArgs)
  {
    merged := data;
    if extraArgs.Some? {
      var extras := extraArgs.value;
      var pending := extras.Keys;
      while pending != {}
        invariant pending <= extras.Keys
        invariant merged == data + (extras - pending)
        decreases pending
      {
        var k :| k in pending;
        merged := merged[k := extras[k]];
        pending := pending - {k};
      }
      assert extras - {} == extras;
    }
  }

  /** The form of an upload: `content` set to the class, then the extras. */
  function UploadForm(content: string, extras: Option<map<string, string>>): (form: map<string, string>)
    ensures extras.None? ==> form == map["content" := content]
    ensures extras.Some? ==> form.Keys == {"content"} + extras.value.Keys
    ensures extras.Some? ==> forall k :: k in extras.value ==> form[k] == extras.value[k]
    ensures extras.Some? && "content" !in extras.value ==> form["content"] == content
  {
    Overlay(map["content" := content], extras)
  }

  /** The form of a URL import: `content`, `filename` and `url`, then the extras. */
  function DownloadForm(content: string, filename: string, url: string, extras: Option<map<string, string>>)
    : (form: map<string, string>)
    ensures {"content", "filename", "url"} <= form.Keys
    ensures extras.None? ==> form.Keys == {"content", "filename", "url"}
    ensures extras.Some? ==> form.Keys == {"content", "filename", "url"} + extras.value.Keys
    ensures extras.Some? ==> forall k :: k in extras.value ==> form[k] == extras.value[k]
    ensures extras.None? || "content" !in extras.value ==> form["content"] == content
    ensures extras.None? || "filename" !in extras.value ==> form["filename"] == filename
    ensures extras.None? || "url" !in extras.value ==> form["url"] == url
  {
    Overlay(map["content" := content, "filename" := filename, "url" := url], extras)
  }

  /** The extras `UploadWithName` passes: the single field `filename`. */
  function FilenameExtras(storageFilename: string): (extras: map<string, string>)
    ensures extras.Keys == {"filename"} && extras["filename"] == storageFilename
  {
    map["filename" := storageFilename]
  }

  /** The extras `UploadWithHash` passes as written: the file name alone, when one is given. */
  function UploadWithHashExtras(storageFilename: Option<string>): (extras: Option<map<string, string>>)
    ensures extras.Some? <==> storageFilename.Some?
    ensures extras.Some? ==> extras.value.Keys == {"filename"} && extras.value["filename"] == storageFilename.value
  {
    match storageFilename
    case None => None
    case Some(n) => Some(FilenameExtras(n))
  }

  /** The checksum fields of `DownloadURLWithHash` (and of the map `UploadWithHash` builds). */
  function ChecksumExtras(checksum: string, checksumAlgorithm: string): (extras: map<string, string>)
    ensures extras.Keys == {"checksum", "checksum-algorithm"}
    ensures extras["checksum"] == checksum && extras["checksum-algorithm"] == checksumAlgorithm
  {
    map["checksum" := checksum, "checksum-algorithm" := checksumAlgorithm]
  }

  /**
   * The map `UploadWithHash` builds and then does not use: the checksum
   * fields, plus `filename` when a file name is given. The corrected upload
   * passes it.
   */
  function HashUploadExtras(storageFilename: Option<string>, checksum: string, checksumAlgorithm: string)
    : (extras: map<string, string>)
    ensures extras.Keys == {"checksum", "checksum-algorithm"} + (if storageFilename.Some? then {"filename"} else {})
    ensures extras["checksum"] == checksum && extras["checksum-algorithm"] == checksumAlgorithm
    ensures storageFilename.Some? ==> extras["filename"] == storageFilename.value
  {
    var extras := ChecksumExtras(checksum, checksumAlgorithm);
    match storageFilename
    case None => extras
    case Some(n) => extras["filename" := n]
  }

  // ---------------------------------------------------------------- outcomes

  /** What one operation does: the file-system operations and requests it issues, and what it returns. */
  datatype Effect = Effect(fsOps: seq<FsOp>, calls: seq<Call>, task: Option<Task>, err: Option<Error>)

  /**
   * The outcome of `upload` on storage `storage` of node `node`, given what
   * `os.Stat`, `os.Open` and the transport answer.
   */
  function UploadEffect(client: Client, node: string, storage: string, content: string, file: string,
                        extras: Option<map<string, string>>, stat: StatResult, openErr: Option<Error>,
                        reply: Response<Upid>): (e: Effect)
    // the content gate comes first and touches nothing
    ensures !ValidContent(content) <==> e.fsOps == []
    ensures !ValidContent(content) ==> e.calls == [] && e.task == None && e.err == Some(ContentClassError)
    // local failures are returned unchanged, before any request
    ensures ValidContent(content) && stat.StatFailed? ==> e.calls == [] && e.err == Some(stat.err)
    ensures ValidContent(content) && stat == Found(true) ==> e.calls == [] && e.err == Some(DirectoryError(file))
    ensures ValidContent(content) && stat == Found(false) && openErr.Some? ==> e.calls == [] && e.err == openErr
    // the stat is of `file`, and a failed stat or a directory stops before the open
    ensures ValidContent(content) && (stat.StatFailed? || stat == Found(true)) ==> e.fsOps == [StatOp(file)]
    ensures ValidContent(content) && stat == Found(false) ==>
      e.fsOps == [StatOp(file), OpenOp(file)] + (if openErr.None? then [CloseOp(file)] else [])
    // one request exactly when every local check passes
    ensures e.calls != [] <==> ValidContent(content) && stat == Found(false) && openErr.None?
    ensures e.calls != [] ==> e.calls == [UploadCall(UploadEndpoint(node, storage), UploadForm(content, extras), file)]
    ensures e.calls != [] ==> e.err == reply.err
    // a task exactly when there is no error, built from the returned identifier
    ensures e.task.Some? <==> e.err.None?
    ensures e.task.Some? ==> e.task == Some(Task(reply.value, client))
    // the file is closed exactly when it was opened successfully, and after the request
    ensures CloseOp(file) in e.fsOps <==> OpenOp(file) in e.fsOps && openErr.None?
    ensures CloseOp(file) in e.fsOps ==> e.fsOps[|e.fsOps| - 1] == CloseOp(file) && e.calls != []
  {
    if !ValidContent(content) then Effect([], [], None, Some(ContentClassError))
    else match stat
      case StatFailed(statErr) => Effect([StatOp(file)], [], None, Some(statErr))
      case Found(true) => Effect([StatOp(file)], [], None, Some(DirectoryError(file)))
      case Found(false) =>
        if openErr.Some? then Effect([StatOp(file), OpenOp(file)], [], None, openErr)
        else
          var ops := [StatOp(file), OpenOp(file), CloseOp(file)];
          var calls := [UploadCall(UploadEndpoint(node, storage), UploadForm(content, extras), file)];
          match reply.err
          case Some(_) => Effect(ops, calls, None, reply.err)
          case None => Effect(ops, calls, Some(Task(reply.value, client)), None)
  }

  /** The outcome of `downloadURL` on storage `storage` of node `node`, given the transport's answer. */
  function DownloadEffect(client: Client, node: string, storage: string, content: string, filename: string,
                          url: string, extras: Option<map<string, string>>, reply: Response<Upid>): (e: Effect)
    ensures e.fsOps == []
    ensures !ValidContent(content) <==> e.calls == []
    ensures !ValidContent(content) ==> e.task == None && e.err == Some(ContentClassError)
    ensures ValidContent(content) ==>
      e.calls == [PostCall(DownloadEndpoint(node, storage), DownloadForm(content, filename, url, extras))]
      && e.err == reply.err
    ensures e.task.Some? <==> e.err.None?
    ensures e.task.Some? ==> e.task == Some(Task(reply.value, client))
  {
    if !ValidContent(content) then Effect([], [], None, Some(ContentClassError))
    else
      var calls := [PostCall(DownloadEndpoint(node, storage), DownloadForm(content, filename, url, extras))];
      match reply.err
      case Some(_) => Effect([], calls, None, reply.err)
      case None => Effect([], calls, Some(Task(reply.value, client)), None)
  }

  /**
   * The outcome of `deleteVolume` for an item of class `content` with
   * identifier `volId` and path `path` on storage `storage` of node `node`.
   */
  function DeleteEffect(client: Client, node: string, storage: string, volId: string, path: string,
                        content: string, reply: Response<Upid>): (e: Effect)
    ensures e.fsOps == []
    ensures e.calls == [] <==> volId == [] && path == []
    ensures e.calls == [] ==> e.task == None && e.err == Some(MissingVolumeError)
    ensures volId != [] ==> e.calls == [DeleteCall(ContentEndpoint(node, storage, volId))]
    ensures volId == [] && path != [] ==>
      e.calls == [DeleteCall(ContentEndpoint(node, storage, VolumeId(storage, content, FilePath.Base(path))))]
    // once the request is made, a task comes back together with whatever error the transport gave
    ensures e.calls != [] ==> e.task == Some(Task(reply.value, client)) && e.err == reply.err
  {
    match ResolveVolId(storage, content, volId, path)
    case None => Effect([], [], None, Some(MissingVolumeError))
    case Some(v) =>
      Effect([], [DeleteCall(ContentEndpoint(node, storage, v))], Some(Task(reply.value, client)), reply.err)
  }

  // ---------------------------------------------------------------- properties of the forms

  /** `Upload` sends the class alone; `UploadWithName` sends the class and the file name, nothing else. */
  lemma UploadWrapperForms(content: string, storageFilename: string)
    ensures UploadForm(content, None) == map["content" := content]
    ensures UploadForm(content, Some(FilenameExtras(storageFilename)))
      == map["content" := content, "filename" := storageFilename]
  {
  }

  /**
   * `UploadWithHash` as written: the form carries `filename` exactly when a
   * file name is given and never carries a checksum field, so it never
   * equals the form built from the map the method prepares.
   */
  lemma UploadWithHashDropsChecksum(content: string, storageFilename: Option<string>, checksum: string,
                                    checksumAlgorithm: string)
    ensures var form := UploadForm(content, UploadWithHashExtras(storageFilename));
      && "checksum" !in form && "checksum-algorithm" !in form
      && ("filename" in form <==> storageFilename.Some?)
      && (storageFilename.Some? ==> form["filename"] == storageFilename.value)
      && form != UploadForm(content, Some(HashUploadExtras(storageFilename, checksum, checksumAlgorithm)))
  {
  }

  /**
   * The corrected `UploadWithHash` sends the class, both checksum fields and,
   * when given, the file name: exactly the fields a URL import with a
   * checksum sends besides its `url`.
   */
  lemma UploadWithHashFixedSendsChecksum(content: string, storageFilename: Option<string>, checksum: string,
                                         checksumAlgorithm: string)
    ensures var form := UploadForm(content, Some(HashUploadExtras(storageFilename, checksum, checksumAlgorithm)));
      && form.Keys == {"content", "checksum", "checksum-algorithm"}
                      + (if storageFilename.Some? then {"filename"} else {})
      && form["content"] == content
      && form["checksum"] == checksum && form["checksum-algorithm"] == checksumAlgorithm
      && (storageFilename.Some? ==> form["filename"] == storageFilename.value)
  {
  }

  /** `DownloadURL` sends content, filename and url; `DownloadURLWithHash` adds the two checksum fields. */
  lemma DownloadWrapperForms(content: string, filename: string, url: string, checksum: string,
                             checksumAlgorithm: string)
    ensures DownloadForm(content, filename, url, None)
      == map["content" := content, "filename" := filename, "url" := url]
    ensures DownloadForm(content, filename, url, Some(ChecksumExtras(checksum, checksumAlgorithm)))
      == map["content" := content, "filename" := filename, "url" := url,
             "checksum" := checksum, "checksum-algorithm" := checksumAlgorithm]
  {
  }

  // ---------------------------------------------------------------- retrieval and delete together

  /**
   * An ISO or container template as retrieved is always deletable, and when
   * the response had no identifier the DELETE goes to the very path the
   * GET was sent to.
   */
  lemma RetrievedItemIsDeletable(client: Client, node: string, storage: string, content: string, name: string,
                                 d: Decoded, reply: Response<Upid>)
    requires content == "iso" || content == "vztmpl"
    ensures var e := DeleteEffect(client, node, storage, FilledVolId(d.volId, storage, content, name), d.path,
                                  content, reply);
      && e.calls != [] && e.task.Some?
      && (d.volId == [] ==> e.calls == [DeleteCall(ContentEndpoint(node, storage, VolumeId(storage, content, name)))])
  {
  }

  /**
   * Backups get no such fallback: a backup whose response carried neither an
   * identifier nor a path cannot be deleted, while an ISO retrieved from the
   * same response can.
   */
  lemma BackupWithoutIdIsNotDeletable(client: Client, node: string, storage: string, name: string,
                                      reply: Response<Upid>)
    ensures DeleteEffect(client, node, storage, "", "", "backup", reply)
      == Effect([], [], None, Some(MissingVolumeError))
    ensures DeleteEffect(client, node, storage, FilledVolId("", storage, "iso", name), "", "iso", reply).calls
      == [DeleteCall(ContentEndpoint(node, storage, VolumeId(storage, "iso", name)))]
  {
  }

  /** Retrieving `debian.iso` from `local` without an identifier gives it `local:iso/debian.iso`. */
  lemma RetrievalExample()
    ensures FilledVolId("", "local", "iso", "debian.iso") == "local:iso/debian.iso"
  {
  }

  /** A template known only by its path under `local` is deleted as `local:vztmpl/foo.tar.gz`. */
  lemma DeleteExample(client: Client, node: string, path: string, reply: Response<Upid>)
    requires path == "/mnt/pve/local/template/cache/foo.tar.gz"
    ensures DeleteEffect(client, node, "local", "", path, "vztmpl", reply).calls
      == [DeleteCall(ContentEndpoint(node, "local", "local:vztmpl/foo.tar.gz"))]
  {
    ResolveVolIdExample(path);
  }

  // ---------------------------------------------------------------- delete

  /** `deleteVolume`: the routine shared by the three `Delete` methods. */
  method DeleteVolume(client: Client, node: string, storage: string, volId: string, path: string,
                      content: string, reply: Response<Upid>)
    returns (task: Option<Task>, err: Option<Error>)
    modifies client
    ensures var e := DeleteEffect(client, node, storage, volId, path, content, reply);
      client.calls == old(client.calls) + e.calls && task == e.task && err == e.err
  {
    if volId == [] && path == [] {
      return None, Some(MissingVolumeError);
    }
    var v := volId;
    if v == [] {
      // the content listings do not return an identifier: rebuild it from the path
      v := VolumeId(storage, content, FilePath.Base(path));
    }
    var upid, deleteErr := client.Delete(ContentEndpoint(node, storage, v), reply);
    return Some(Task(upid, client)), deleteErr;
  }

  /** The fields of a content item that the body of a content-detail response fills in. */
  datatype Decoded = Decoded(node: string, storage: string, volId: string, path: string)

  class ISO {
    var client: Client?
    var node: string
    var storage: string
    var volId: string
    var path: string

    /** An ISO as decoded from a response body, before the storage attaches itself. */
    constructor FromBody(d: Decoded)
      ensures client == null && node == d.node && storage == d.storage && volId == d.volId && path == d.path
    {
      client, node, storage, volId, path := null, d.node, d.storage, d.volId, d.path;
    }

    method Delete(reply: Response<Upid>) returns (task: Option<Task>, err: Option<Error>)
      requires client != null
      modifies client
      ensures var e := DeleteEffect(client, node, storage, volId, path, "iso", reply);
        client.calls == old(client.calls) + e.calls && task == e.task && err == e.err
    {
      task, err := DeleteVolume(client, node, storage, volId, path, "iso", reply);
    }
  }

  class VzTmpl {
    var client: Client?
    var node: string
    var storage: string
    var volId: string
    var path: string

    /** A container template as decoded from a response body, before the storage attaches itself. */
    constructor FromBody(d: Decoded)
      ensures client == null && node == d.node && storage == d.storage && volId == d.volId && path == d.path
    {
      client, node, storage, volId, path := null, d.node, d.storage, d.volId, d.path;
    }

    method Delete(reply: Response<Upid>) returns (task: Option<Task>, err: Option<Error>)
      requires client != null
      modifies client
      ensures var e := DeleteEffect(client, node, storage, volId, path, "vztmpl", reply);
        client.calls == old(client.calls) + e.calls && task == e.task && err == e.err
    {
      task, err := DeleteVolume(client, node, storage, volId, path, "vztmpl", reply);
    }
  }

  class Backup {
    var client: Client?
    var node: string
    var storage: string
    var volId: string
    var path: string

    /** A backup as decoded from a response body, before the storage attaches itself. */
    constructor FromBody(d: Decoded)
      ensures client == null && node == d.node && storage == d.storage && volId == d.volId && path == d.path
    {
      client, node, storage, volId, path := null, d.node, d.storage, d.volId, d.path;
    }

    method Delete(reply: Response<Upid>) returns (task: Option<Task>, err: Option<Error>)
      requires client != null
      modifies client
      ensures var e := DeleteEffect(client, node, storage, volId, path, "backup", reply);
        client.calls == old(client.calls) + e.calls && task == e.task && err == e.err
    {
      task, err := DeleteVolume(client, node, storage, volId, path, "backup", reply);
    }
  }

  // ---------------------------------------------------------------- storage

  /** A storage pool `name` on node `node`, reached through `client`. */
  class Storage {
    const client: Client
    const node: string
    const name: string

    constructor (client: Client, node: string, name: string)
      ensures this.client == client && this.node == node && this.name == name
    {
      this.client, this.node, this.name := client, node, name;
    }

    /** `upload`: the routine shared by the three upload methods. */
    method DoUpload(content: string, file: string, extraArgs: Option<map<string, string>>, fs: FileSystem,
                    stat: StatResult, openErr: Option<Error>, reply: Response<Upid>)
      returns (task: Option<Task>, err: Option<Error>)
      modifies client, fs
      ensures var e := UploadEffect(client, node, name, content, file, extraArgs, stat, openErr, reply);
        fs.ops == old(fs.ops) + e.fsOps && client.calls == old(client.calls) + e.calls
        && task == e.task && err == e.err
    {
      if !ValidContent(content) {
        return None, Some(ContentClassError);
      }
      var info := fs.Stat(file, stat);
      if info.StatFailed? {
        return None, Some(info.err);
      }
      if info.isDir {
        return None, Some(DirectoryError(file));
      }
      var openFailure := fs.Open(file, openErr);
      if openFailure.Some? {
        return None, openFailure;
      }
      var data := MergeExtras(map["content" := content], extraArgs);
      var upid, uploadErr := client.Upload(UploadEndpoint(node, name), data, file, reply);
      fs.Close(file);  // the deferred close, on both returns below
      if uploadErr.Some? {
        return None, uploadErr;
      }
      return Some(Task(upid, client)), None;
    }

    method Upload(content: string, file: string, fs: FileSystem, stat: StatResult, openErr: Option<Error>,
                  reply: Response<Upid>)
      returns (task: Option<Task>, err: Option<Error>)
      modifies client, fs
      ensures var e := UploadEffect(client, node, name, content, file, None, stat, openErr, reply);
        fs.ops == old(fs.ops) + e.fsOps && client.calls == old(client.calls) + e.calls
        && task == e.task && err == e.err
    {
      task, err := DoUpload(content, file, None, fs, stat, openErr, reply);
    }

    method UploadWithName(content: string, file: string, storageFilename: string, fs: FileSystem,
                          stat: StatResult, openErr: Option<Error>, reply: Response<Upid>)
      returns (task: Option<Task>, err: Option<Error>)
      modifies client, fs
      ensures var e := UploadEffect(client, node, name, content, file, Some(FilenameExtras(storageFilename)),
                                    stat, openErr, reply);
        fs.ops == old(fs.ops) + e.fsOps && client.calls == old(client.calls) + e.calls
        && task == e.task && err == e.err
    {
      task, err := DoUpload(content, file, Some(FilenameExtras(storageFilename)), fs, stat, openErr, reply);
    }

    /**
     * As written: the checksum map is built and then dropped, so only the
     * optional file name reaches the request (see `UploadWithHashFixed`).
     */
    method UploadWithHash(content: string, file: string, storageFilename: Option<string>, checksum: string,
                          checksumAlgorithm: string, fs: FileSystem, stat: StatResult, openErr: Option<Error>,
                          reply: Response<Upid>)
      returns (task: Option<Task>, err: Option<Error>)
      modifies client, fs
      ensures var e := UploadEffect(client, node, name, content, file, UploadWithHashExtras(storageFilename),
                                    stat, openErr, reply);
        fs.ops == old(fs.ops) + e.fsOps && client.calls == old(client.calls) + e.calls
        && task == e.task && err == e.err
    {
      var extraArgs := HashUploadExtras(storageFilename, checksum, checksumAlgorithm);
      if storageFilename.Some? {
        task, err := DoUpload(content, file, Some(FilenameExtras(storageFilename.value)), fs, stat, openErr, reply);
      } else {
        task, err := DoUpload(content, file, None, fs, stat, openErr, reply);
      }
    }

    /** `UploadWithHash` as evidently intended: the map it builds is the one it passes. */
    method UploadWithHashFixed(content: string, file: string, storageFilename: Option<string>, checksum: string,
                               checksumAlgorithm: string, fs: FileSystem, stat: StatResult,
                               openErr: Option<Error>, reply: Response<Upid>)
      returns (task: Option<Task>, err: Option<Error>)
      modifies client, fs
      ensures var e := UploadEffect(client, node, name, content, file,
                                    Some(HashUploadExtras(storageFilename, checksum, checksumAlgorithm)),
                                    stat, openErr, reply);
        fs.ops == old(fs.ops) + e.fsOps && client.calls == old(client.calls) + e.calls
        && task == e.task && err == e.err
    {
      var extraArgs := HashUploadExtras(storageFilename, checksum, checksumAlgorithm);
      task, err := DoUpload(content, file, Some(extraArgs), fs, stat, openErr, reply);
    }

    /** `downloadURL`: the routine shared by the two URL-import methods. */
    method DoDownloadURL(content: string, filename: string, url: string, extraArgs: Option<map<string, string>>,
                         reply: Response<Upid>)
      returns (task: Option<Task>, err: Option<Error>)
      modifies client
      ensures var e := DownloadEffect(client, node, name, content, filename, url, extraArgs, reply);
        client.calls == old(client.calls) + e.calls && task == e.task && err == e.err
    {
      if !ValidContent(content) {
        return None, Some(ContentClassError);
      }
      var data := MergeExtras(map["content" := content, "filename" := filename, "url" := url], extraArgs);
      var upid, postErr := client.Post(DownloadEndpoint(node, name), data, reply);
      if postErr.Some? {
        return None, postErr;
      }
      return Some(Task(upid, client)), None;
    }

    method DownloadURL(content: string, filename: string, url: string, reply: Response<Upid>)
      returns (task: Option<Task>, err: Option<Error>)
      modifies client
      ensures var e := DownloadEffect(client, node, name, content, filename, url, None, reply);
        client.calls == old(client.calls) + e.calls && task == e.task && err == e.err
    {
      task, err := DoDownloadURL(content, filename, url, None, reply);
    }

    method DownloadURLWithHash(content: string, filename: string, url: string, checksum: string,
                               checksumAlgorithm: string, reply: Response<Upid>)
      returns (task: Option<Task>, err: Option<Error>)
      modifies client
      ensures var e := DownloadEffect(client, node, name, content, filename, url,
                                      Some(ChecksumExtras(checksum, checksumAlgorithm)), reply);
        client.calls == old(client.calls) + e.calls && task == e.task && err == e.err
    {
      task, err := DoDownloadURL(content, filename, url, Some(ChecksumExtras(checksum, checksumAlgorithm)), reply);
    }

    /** Fetches ISO `name`; a missing identifier is filled in as `<storage>:iso/<name>`. */
    method ISO(name: string, reply: Response<Decoded>) returns (iso: ISO?, err: Option<Error>)
      modifies client
      ensures client.calls == old(client.calls) + [GetCall(ContentEndpoint(node, this.name, VolumeId(this.name, "iso", name)))]
      ensures err == reply.err
      ensures err.Some? ==> iso == null
      ensures err.None? ==> (
        iso != null && fresh(iso)
        && iso.client == client && iso.node == node && iso.storage == this.name
        && iso.volId == FilledVolId(reply.value.volId, this.name, "iso", name) && iso.path == reply.value.path)
    {
      var decoded, getErr := client.Get(ContentEndpoint(node, this.name, VolumeId(this.name, "iso", name)), reply);
      if getErr.Some? {
        return null, getErr;
      }
      iso := new ISO.FromBody(decoded);
      iso.client := client;
      iso.node := node;
      iso.storage := this.name;
      if iso.volId == [] {
        iso.volId := VolumeId(iso.storage, "iso", name);
      }
      err := None;
    }

    /** Fetches container template `name`; a missing identifier is filled in as `<storage>:vztmpl/<name>`. */
    method VzTmpl(name: string, reply: Response<Decoded>) returns (vztmpl: VzTmpl?, err: Option<Error>)
      modifies client
      ensures client.calls == old(client.calls) + [GetCall(ContentEndpoint(node, this.name, VolumeId(this.name, "vztmpl", name)))]
      ensures err == reply.err
      ensures err.Some? ==> vztmpl == null
      ensures err.None? ==> (
        vztmpl != null && fresh(vztmpl)
        && vztmpl.client == client && vztmpl.node == node && vztmpl.storage == this.name
        && vztmpl.volId == FilledVolId(reply.value.volId, this.name, "vztmpl", name) && vztmpl.path == reply.value.path)
    {
      var decoded, getErr := client.Get(ContentEndpoint(node, this.name, VolumeId(this.name, "vztmpl", name)), reply);
      if getErr.Some? {
        return null, getErr;
      }
      vztmpl := new VzTmpl.FromBody(decoded);
      vztmpl.client := client;
      vztmpl.node := node;
      vztmpl.storage := this.name;
      if vztmpl.volId == [] {
        vztmpl.volId := VolumeId(vztmpl.storage, "vztmpl", name);
      }
      err := None;
    }

    /** Fetches backup `name`; unlike ISO and VzTmpl, the identifier is left as decoded. */
    method Backup(name: string, reply: Response<Decoded>) returns (backup: Backup?, err: Option<Error>)
      modifies client
      ensures client.calls == old(client.calls) + [GetCall(ContentEndpoint(node, this.name, VolumeId(this.name, "backup", name)))]
      ensures err == reply.err
      ensures err.Some? ==> backup == null
      ensures err.None? ==> (
        backup != null && fresh(backup)
        && backup.client == client && backup.node == node && backup.storage == this.name
        && backup.volId == reply.value.volId && backup.path == reply.value.path)
    {
      var decoded, getErr := client.Get(ContentEndpoint(node, this.name, VolumeId(this.name, "backup", name)), reply);
      if getErr.Some? {
        return null, getErr;
      }
      backup := new Backup.FromBody(decoded);
      backup.client := client;
      backup.node := node;
      backup.storage := this.name;
      err := None;
    }
  }
}
