# Storage content lifecycle of a Proxmox VE API client, in Dafny

This project models the storage-content layer of a Go client for the Proxmox VE
management API (`storage.go`). It covers the following:

- The **content-class gate**. Only `iso` and `vztmpl` may be uploaded or imported from a URL.
- **Upload** of a local file. The file is checked with `os.Stat` and opened, then a form is
  built from `content=<class>` plus optional extras and sent to
  `/nodes/<node>/storage/<storage>/upload`. It has three public wrappers.
- **URL import**. A form of `content`, `filename`, `url` plus optional checksum fields is
  POSTed to `/nodes/<node>/storage/<storage>/download-url`. It has two public wrappers.
- **Retrieval** of one ISO, container template (VzTmpl) or backup. For ISO and VzTmpl a
  missing volume identifier is filled in as `<storage>:<class>/<name>`. Backup retrieval
  leaves the identifier as decoded.
- **Delete** of an item. Each of the three item types calls one shared routine. It refuses an
  item with neither identifier nor path. Otherwise it uses the item's identifier, or rebuilds one
  as `<storage>:<class>/<Base(path)>`, where `Base` is Go's `filepath.Base` on `/`-separated
  paths. A task comes back together with the transport's error.

The HTTP client and the local file system are objects that log what is asked of them:
`Transport.Client.calls` and `LocalFs.FileSystem.ops`. What they answer is a parameter of each
operation: the `os.Stat` result, the `os.Open` error, and the transport's reply. So every
behaviour of the remote side is covered. For each operation, a function (`UploadEffect`,
`DownloadEffect`, `DeleteEffect`) gives the whole observable outcome:

- the file operations performed,
- the requests issued,
- the task returned,
- the error returned.

The imperative methods, which mirror the Go code statement by statement, are proved to produce
exactly that outcome. The properties of the outcome are proved about those functions.

Files:

- `common.dfy`: `Option` and Go's `error`.
- `filepath.dfy`: `filepath.Base`.
- `transport.dfy`: the client and its request log.
- `localfs.dfy`: `os.Stat`/`os.Open`/`Close`.
- `volumeids.dfy`: building, reading back and choosing volume identifiers.
- `proxmox.dfy`: everything in `storage.go`.

Two behaviours of the code are stated as written:

- `UploadWithHash` does not send the checksum fields, although the map it builds holds them. See Findings.
- The merge of extras overwrites keys already in the form. Nothing checks that the keys are disjoint. `Overlay` states the overwrite.

## Model

| member | source | states |
|---|---|---|
| Proxmox.ValidContent | storage.go:9-12 | a class is accepted exactly when it is `iso` or `vztmpl` (so `backup` is refused) |
| Proxmox.Overlay | storage.go:59-64 | the merged form has the base's keys plus the extras' keys; extras' values win, other base values are kept; no extras leaves the base unchanged |
| Proxmox.MergeExtras | storage.go:60-63 | the loop copying each extra into `data`, in any key order, yields `Overlay(data, extras)` |
| Proxmox.UploadForm | storage.go:59-64 | the upload form is `{content}` alone without extras; with extras its keys are `content` plus the extras' keys, each extra copied, and `content` is the class unless an extra overrides it |
| Proxmox.DownloadForm | storage.go:91-101 | the URL-import form always holds `content`, `filename`, `url` (set to the arguments unless an extra overrides them); its keys are those three plus the extras' keys, each extra copied |
| Proxmox.HashUploadExtras | storage.go:23-29 | the map `UploadWithHash` builds holds `checksum` and `checksum-algorithm` with the given values, and `filename` exactly when a file name is given |
| Proxmox.DirectoryError | storage.go:48-50 | the error for a directory is exactly `file is a directory ` followed by the file's path, and is neither the class error nor the missing-identifier error |
| Proxmox.StoragePath | storage.go:66 | every request path starts `/nodes/<node>/storage/<storage>`: node after `/nodes/`, storage after `/storage/`, nothing else |
| Proxmox.UploadEndpoint | storage.go:66 | the upload endpoint is exactly the storage's path followed by `/upload`, and is not the URL-import endpoint |
| Proxmox.DownloadEndpoint | storage.go:102 | the URL-import endpoint is exactly the storage's path followed by `/download-url` |
| Proxmox.ContentEndpoint | storage.go:174 | a volume's endpoint is exactly the storage's path, `/content/`, then the identifier, and is never the upload or URL-import endpoint |
| Proxmox.FilenameExtras | storage.go:18-20 | the extras of `UploadWithName` (and of `UploadWithHash` as written) hold exactly the key `filename`, set to the given name |
| Proxmox.UploadWithHashExtras | storage.go:31-35 | as written, `UploadWithHash` passes extras exactly when a name is given, and then only `filename` with that name |
| Proxmox.ChecksumExtras | storage.go:79-82 | the extras of `DownloadURLWithHash` hold exactly `checksum` and `checksum-algorithm`, with the given values |
| Proxmox.UploadEffect | storage.go:38-72 | invalid class: no file operation, no request, the class error, no task; stat error, directory, open error: returned unchanged (the directory error names the file), no request; a failed stat or a directory performs only the stat of the file; a regular file gets exactly a stat, an open and, only when the open succeeded, a close after the request; one upload request, with `UploadForm` to the upload endpoint, exactly when all local checks pass; its error returned unchanged; a task exactly when there is no error; the file is closed exactly when it was opened successfully, last |
| Proxmox.DownloadEffect | storage.go:85-107 | no file operation; no request exactly when the class is invalid, which returns the class error and no task; otherwise one POST of `DownloadForm` to the download-url endpoint whose error is returned unchanged; a task exactly when there is no error |
| Proxmox.DeleteEffect | storage.go:163-176 | no request exactly when identifier and path are both empty, which returns the missing-identifier error and no task; a non-empty identifier is used verbatim; otherwise the DELETE goes to `<storage>:<class>/<Base(path)>`; once a request is made a task is returned together with the transport's error |
| Proxmox.DeleteVolume | storage.go:163-176 | logs exactly the requests of `DeleteEffect` and returns its task and error |
| Proxmox.ISO.Delete | storage.go:159-161 | deletes with class tag `iso`: the outcome of `DeleteEffect` on the item's fields |
| Proxmox.VzTmpl.Delete | storage.go:151-153 | deletes with class tag `vztmpl`: the outcome of `DeleteEffect` on the item's fields |
| Proxmox.Backup.Delete | storage.go:155-157 | deletes with class tag `backup`: the outcome of `DeleteEffect` on the item's fields |
| Proxmox.Storage.DoUpload | storage.go:38-72 | logs exactly the file operations and requests of `UploadEffect` and returns its task and error |
| Proxmox.Storage.Upload | storage.go:14-16 | the outcome of `UploadEffect` with no extras |
| Proxmox.Storage.UploadWithName | storage.go:18-20 | the outcome of `UploadEffect` with the single extra `filename` |
| Proxmox.Storage.UploadWithHash | storage.go:22-36 | as written: the outcome of `UploadEffect` with `filename` alone when a name is given, and no extras otherwise |
| Proxmox.Storage.UploadWithHashFixed | storage.go:22-29 | the outcome of `UploadEffect` with the map built at lines 23-29 as extras |
| Proxmox.Storage.DoDownloadURL | storage.go:85-107 | logs exactly the requests of `DownloadEffect` and returns its task and error; touches no file |
| Proxmox.Storage.DownloadURL | storage.go:74-76 | the outcome of `DownloadEffect` with no extras |
| Proxmox.Storage.DownloadURLWithHash | storage.go:78-83 | the outcome of `DownloadEffect` with `checksum` and `checksum-algorithm` as extras |
| Proxmox.Storage.ISO | storage.go:109-122 | one GET to `.../content/<storage>:iso/<name>`; on error that error and no item; otherwise a new item carrying the client, the storage's node and name, the decoded path, and the decoded identifier or `<storage>:iso/<name>` when it was empty |
| Proxmox.Storage.VzTmpl | storage.go:124-137 | the same as `ISO` with class `vztmpl` |
| Proxmox.Storage.Backup | storage.go:139-149 | the same GET with class `backup`; the new item's identifier is exactly the decoded one (no fill-in) |
| Proxmox.UploadWrapperForms | storage.go:14-20 | `Upload` sends exactly `{content}`; `UploadWithName` sends exactly `{content, filename}` |
| Proxmox.UploadWithHashDropsChecksum | storage.go:22-36 | as written, the form never holds `checksum` or `checksum-algorithm`, holds `filename` exactly when a name is given, and differs from the form of the map the method builds |
| Proxmox.UploadWithHashFixedSendsChecksum | storage.go:23-29 | the corrected form holds exactly `content`, both checksum fields and the optional `filename`, with the given values |
| Proxmox.DownloadWrapperForms | storage.go:74-83 | `DownloadURL` sends exactly `{content, filename, url}`; `DownloadURLWithHash` adds exactly `checksum` and `checksum-algorithm` |
| Proxmox.RetrievedItemIsDeletable | storage.go:118-174 | an ISO or VzTmpl as retrieved always leads to a DELETE request with a task; with no decoded identifier, the DELETE goes to the path the GET used |
| Proxmox.BackupWithoutIdIsNotDeletable | storage.go:139-167 | a backup decoded with neither identifier nor path cannot be deleted (missing-identifier error, no request), while an ISO from the same response can |
| Proxmox.RetrievalExample | storage.go:118-120 | `debian.iso` on `local`, retrieved without an identifier, gets `local:iso/debian.iso` |
| Proxmox.DeleteExample | storage.go:169-174 | a template with no identifier at `/mnt/pve/local/template/cache/foo.tar.gz` on `local` is deleted at `.../content/local:vztmpl/foo.tar.gz` |
| VolumeIds.VolumeId | storage.go:171 | an identifier is the storage, a `:` right after it, the class, a `/` right after it, then the name, and nothing more |
| VolumeIds.FilledVolId | storage.go:118-120 | the identifier after retrieval is never empty: the decoded one when present, `<storage>:<class>/<name>` otherwise |
| VolumeIds.ResolveVolId | storage.go:165-172 | no identifier exactly when identifier and path are both empty; a non-empty identifier is kept verbatim; an empty identifier with a path becomes `<storage>:<class>/<Base(path)>`; the chosen identifier is never empty |
| VolumeIds.SplitVolumeIdOfVolumeId | storage.go:171 | a built identifier reads back to its storage, class and name, when the storage has no `:` and the class no `/` |
| VolumeIds.VolumeIdOfSplitVolumeId | storage.go:171 | every identifier that reads back is the one built from its parts, and those parts obey the separator rules |
| VolumeIds.ResolveVolIdFromPath | storage.go:169-172 | an item known only by path `dir/file` is deleted as `<storage>:<class>/file`, which reads back to those parts |
| VolumeIds.ResolveVolIdExample | storage.go:169-172 | identifier empty, path `/mnt/pve/local/template/cache/foo.tar.gz`, storage `local`, class `vztmpl`: resolves to `local:vztmpl/foo.tar.gz` |
| FilePath.TrimTrailingSlashes | storage.go:171 | the result is a prefix of the path, does not end in `/`, and only `/` was removed |
| FilePath.LastElement | storage.go:171 | the result holds no `/`, is a suffix of the path, and is preceded by a `/` when shorter than the path |
| FilePath.Base | storage.go:171 | never empty; `.` for the empty path; `/` exactly for a non-empty path of separators only; otherwise free of `/` |
| FilePath.BaseOfJoin | storage.go:171 | `Base(dir + "/" + name)` is `name` for every non-empty name without `/` |
| FilePath.BaseOfName | storage.go:171 | a non-empty name without `/` is its own `Base` |
| FilePath.BaseIgnoresTrailingSlash | storage.go:171 | an extra trailing `/` does not change `Base` of a non-empty path |
| FilePath.BaseIdempotent | storage.go:171 | `Base(Base(p)) == Base(p)` |

## Left out

- The HTTP transport is left out: requests, multipart upload, authentication, retries and JSON decoding. `client.go` is not part of this model. `Transport.Client` records each request and returns the reply it is given.
- Task handling is left out: `NewTask` and the polling of UPIDs. A task is the pair of the returned UPID and the client.
- A response body that decodes to JSON `null` is not modelled. In Go it leaves the item pointer nil and the retrieval methods then dereference it. The model always decodes an object.
- The decoded fields of ISO, VzTmpl and Backup other than node, storage, identifier and path are not modelled. The type definitions are not part of this model, and nothing in `storage.go` reads those fields.
- The open file handle is left out as an object. It is represented by the file name passed to the upload request. The deferred `Close` is one log entry, made after the request on both returns.
- `fmt.Sprintf` with `%s` is plain string concatenation.
- Go strings are bytes and the model works on characters. `/` and `:` never occur inside a multi-byte UTF-8 sequence, so `Base` and the identifier format are unaffected.
- Go's map iteration order in the merge loops is left out. `MergeExtras` takes the keys in an arbitrary order, and the result is proved independent of it.
- The SDN listing calls (`sdn.go`) are left out. They are pass-through GETs that only attach the client to each decoded element.
- Proxmox.ISO.Delete, Proxmox.VzTmpl.Delete and Proxmox.Backup.Delete require an attached client. In this model an item is deleted only after retrieval has attached the storage's client. A Go item built by hand with a nil client and neither identifier nor path still gets the missing-identifier error; what Go does with a nil client past that check depends on `client.go`, which is not part of this model.
- Storage fields other than its client, node and name are left out. No operation here reads them.

## Findings

| source | as written | input that shows it | evidently intended | confidence | as-written member | corrected member |
|---|---|---|---|---|---|---|
| storage.go:22-36 | `UploadWithHash` builds `extraArgs` with `checksum`, `checksum-algorithm` and the optional `filename`, then calls `upload` with a fresh map holding only `filename` (or with no extras) | `UploadWithHash("iso", f, nil, "abc", "sha256")` sends the form `{content: iso}` with no checksum | pass `extraArgs` to `upload`, so the checksum fields are sent | high; not executed | Proxmox.UploadWithHashDropsChecksum | Proxmox.UploadWithHashFixedSendsChecksum |
