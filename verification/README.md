# A model of CBB, proved in Dafny

CBB is a burst buffer in two tiers. Each server has a private local store; all servers see one slower secondary
store. A client routes every path to a server with a hash ring. A background exporter on each server copies
local files to the secondary tier, a prefetcher copies them back, and open files are tracked in a table.

## What is modelled

A tier is a map from paths to files (bytes and a modification time). The classes `Storage`, `Process`,
`MetaDataManager`, `LocalFileExporter`, `BurstBuffer` and `BurstBufferClient` hold the state that the program's
objects hold and change it step by step. Each of their methods is proved equal to a function on plain values
(`Servers`, `Descriptors`, `Clusters`), and the theorems are about those functions and about runs of them.

| file | contents |
|---|---|
| `Basics`, `Descriptors`, `Servers`, `Clusters` | file bytes, the descriptor table, one server's requests, the cluster's requests and the flat file system it stands for |
| `Storages`, `MetaDataManagers`, `LocalFileExporters`, `BurstBuffers`, `BurstBufferClients` | the objects, proved against those functions |
| `Attributes` | what a server reports of a path |
| `Refinement` | every run of the cluster is a run of one flat file system |
| `FileLaws` | what each request does, said of what the paths show and of the flag bits alone |
| `Durability` | which files the exporter will reach, the write window, and when the secondary tier alone is the whole view |
| `Interleaving`, `Atomicity` | exporters and prefetches interleaved with a request, one file-system call at a time: no resurrection; and uninterrupted steps are the whole requests of `Servers` |
| `Hazards` | when such an interleaving crashes an exporter, blocks an unlink for ever, or brings a file back |
| `Overlaps` | when an export and a prefetch of one file that overlap lose its bytes |
| `DirectoryWalks`, `DirectoryRenames` | the directory rename: its walk with a prefix that only grows, and the fan-out over all servers |
| `BrokenRenames` | what a directory rename leaves on the cluster when a server throws |
| `VirtualNames`, `Links`, `Listings`, `TreeWalks` | virtual links, directory listings, searches by string slicing |
| `HashRing`, `Digests`, `SelectServers` | routing |
| `Handles` | 64-bit handles and the client's file table |
| `Counterexamples` | the smallest inputs for the findings below |

The main results are `Refinement.RunRefinesFlat`, `FileLaws.AccessLaw`, `Durability.EverythingReachesSecondary`,
`Durability.StepDurableIff`, `Durability.WriteAfterExportReachesIff`, `Interleaving.NoResurrection`,
`Hazards.UnlinkCrashesIff`, `Hazards.UnlinkStuckIff`, `Hazards.ComesBackIff`, `Overlaps.SpoilsIff`,
`DirectoryRenames.DirectoryRenameExact`, `BrokenRenames.BrokenRenameExact`, `DirectoryWalks.EveryFileFoundIff`,
`Links.ReadLinkReturnsTarget`,
`Listings.ListingAgreesWithView`, `HashRing.AddingMovesOneIff`, `SelectServers.Md5ReachIff`, `SelectServers.Sha1ReachIff` and
`Handles.HandlesSoundIff`.

Clocks, the descriptor the kernel hands out, the order of a directory, digests and `inet_aton` are parameters.
Modification times are whole seconds and any number of requests may share one: the clock never goes back, and
that is all that is assumed of it.

## What the proofs found

Where the code does not do what is expected of it, the model follows the code, and a lemma states exactly when
the expectation holds.

- Creation looks at the local tier only: a name that only the secondary tier has is shadowed by an empty file
  (`Refinement.CreateExact`, `Counterexamples.CreateShadows`).
- Renaming a file onto a visible name, unless that one is only secondary and so is the renamed file, leaves the
  old file in place and loses the renamed one (`Refinement.RenameExact`, `Counterexamples.RenameLoses`).
- A creation, or a write-only open, that fails because the name exists has already taken the file away from the
  exporter; a truncation by path and a new link entry are not registered at all (`Durability.StepDurableIff`,
  `Counterexamples.FailedCreateUnregisters`).
- `flags & (O_WRONLY | O_RDWR) != 0` is `flags & 1`, so a file opened for reading and writing stays registered
  and can be copied half written (`Durability.OpenClosesWindow`, `Counterexamples.ReadWriteStaysRegistered`).
- A file written in the second in which it was exported counts as exported: its new bytes reach the secondary
  tier only if it is written again later (`Durability.WriteAfterExportReachesIff`).
- An export and a prefetch each empty their destination before they read their source, and no lock keeps them
  apart. If they overlap on one file, the file can end up empty on both tiers though no client writes. This can
  happen exactly to a registered, non-empty file whose two copies have different time stamps or one of which is
  missing (`Overlaps.SpoilsIff`); an export leaves almost every file so (`Overlaps.ExportExposes`).
- An unlink visits the servers in list order, and each one removes the shared secondary file without the mutex of
  the exporter that owns the path. If the owner is not the first server, its exporter may be about to ask for the
  time stamp of that file: it throws, with the mutex locked (`Hazards.UnlinkCrashesIff`). A pass on the exporter's
  own thread then ends the server process, for the thread catches nothing. A pass that a `LocalFileExport` request
  started is caught where requests are dispatched; the mutex stays locked, and an unlink that needs it waits for
  ever (`Hazards.UnlinkStuckIff`).
- On a server with more than one thread a prefetch can make a file again after its unlink has completed
  (`Hazards.ComesBackIff`). A client process sends one request at a time under `g_fuse_mutex`, so the two come from
  two clients, or one is a retry after a timeout.
- The prefetch thread puts directory and name together without a slash: it prefetches the siblings of an opened
  file only in the root directory (`BurstBufferClients.PrefetchesSiblingsIff`).
- A directory rename loses each unexported local file that follows a subdirectory in the walk, and rebuilds the
  local directories correctly only for chains (`DirectoryWalks.EveryFileFoundIff`,
  `DirectoryRenames.DirectoriesRecreatedIff`, `Counterexamples.DirectoryRenameLoses`). A local subdirectory that
  the secondary tier lacks makes it throw half way (`DirectoryRenames.DirectoryRenameExact`,
  `Counterexamples.StrayDirectoryThrows`). Then the files of the servers it got past are under the new name, the
  others under the old, and the server that threw has forgotten what it had to export
  (`BrokenRenames.BrokenRenameExact`).
- The SHA-1 digest is folded with signed bytes: each path whose digest starts with a set bit goes to the first
  server, and the second half of the servers gets no path at all (`SelectServers.Sha1ReachesHalf`,
  `SelectServers.Sha1ReachIff`). With MD5, which the client uses, every server is reached
  (`SelectServers.Md5ReachesAllIff`).
- Servers configured by host name all get the address -1, so their handles clash (`Handles.NamedHostsClash`).
- `remove_storage_path` drops the leading slash (`TreeWalks.RemoveStoragePathInverse`), so a link to a directory
  is read back without it (`Attributes.RealLinkLosesSlash`).

## Model

| member | source | states |
|---|---|---|
| Basics.WriteAt | src/util/file_control.cc:136-146 | a write at an offset: every byte of the result is the buffer's, the file's, or a zero in the gap; an empty write changes nothing |
| Basics.ReadAt | src/util/file_control.cc:117-127 | a read at an offset gives the bytes from there, cut at the end of the file |
| Basics.Resize | src/cbb/meta_data_manager.cc:262-264 | truncation keeps the bytes below the new size and fills with zeros above |
| Descriptors.PartitionMeans | src/cbb/meta_data_manager.h:109-110 | the partition invariant in the table's own terms: no empty entry, disjoint sets, and their union is the open descriptors |
| Descriptors.AddKeepsPartition | src/cbb/meta_data_manager.cc:34-37 | registering a fresh descriptor keeps the partition |
| Descriptors.DropKeepsPartition | src/cbb/meta_data_manager.cc:395-400 | closing a descriptor under the path it is listed for keeps the partition |
| Descriptors.DropKeepsPartitionIff | src/cbb/meta_data_manager.cc:63-72 | closing under any path keeps it exactly when the descriptor is listed there or not open at all |
| Descriptors.DropPathKeepsPartition | src/cbb/meta_data_manager.cc:44-55 | dropping a path closes exactly its descriptors and keeps the partition |
| Descriptors.DetachKeepsPartition | src/cbb/burst_buffer.cc:287-293 | removing a renamed file under its open descriptors keeps the partition |
| MetaDataManagers.MetaDataManager.Register | src/cbb/meta_data_manager.cc:34-37 | the descriptor joins the path's set |
| MetaDataManagers.MetaDataManager.Unregister | src/cbb/meta_data_manager.cc:44-55 | the loop closes exactly the descriptors of the path, whatever their order, and the path leaves the table |
| MetaDataManagers.MetaDataManager.UnregisterFd | src/cbb/meta_data_manager.cc:63-72 | the descriptor leaves its set and an empty set leaves the table |
| MetaDataManagers.MetaDataManager.OpenFile | src/util/file_control.cc:50-108 | what `open` does to one tier: exclusive creation fails on an existing name, a missing name needs creation, truncation empties |
| MetaDataManagers.MetaDataManager.Create | src/cbb/meta_data_manager.cc:301-312 | creation acts on the local tier only and registers the descriptor on success |
| MetaDataManagers.MetaDataManager.Open | src/cbb/meta_data_manager.cc:320-336 | a file that only the secondary tier has is fetched before it is opened locally |
| MetaDataManagers.MetaDataManager.CopySecondaryToLocal | src/cbb/meta_data_manager.cc:407-437 | the local file is replaced exactly when the secondary one is strictly newer or there is none |
| MetaDataManagers.MetaDataManager.Close | src/cbb/meta_data_manager.cc:395-400 | the descriptor is closed and leaves the table |
| MetaDataManagers.MetaDataManager.GetFileStat | src/cbb/meta_data_manager.cc:81-139 | a path exists if either tier has it, the local one first; if it is one thing only, it is a file, a directory or a real link exactly as the tiers have it; a file has its size and the second of its last write; an entry with an extension reports its first line, and a symlink entry is marked |
| LocalFileExporters.LocalFileExporter.Register | src/cbb/local_file_exporter.cc:65-86 | only an existing local file is registered, with its modification time |
| LocalFileExporters.LocalFileExporter.Unregister | src/cbb/local_file_exporter.cc:92-99 | the entry is gone, the others stay |
| LocalFileExporters.LocalFileExporter.UnregisterAll | src/cbb/local_file_exporter.cc:104-110 | nothing is registered |
| LocalFileExporters.LocalFileExporter.Create | src/cbb/local_file_exporter.cc:37-49 | a new exporter watches exactly the local files, each with its time |
| LocalFileExporters.LocalFileExporter.CheckLocalFiles | src/cbb/local_file_exporter.cc:123-166 | in whatever order the entries are visited, the two loops do one export pass |
| LocalFileExporters.LocalFileExporter.SearchLocalFiles | src/cbb/local_file_exporter.cc:184-213 | the recursive search registers exactly the files of the tree, under their slash-rooted paths |
| LocalFileExporters.LocalFileExporter.ReSearchLocalFiles | src/cbb/local_file_exporter.cc:115-118 | afterwards exactly the local files are registered |
| LocalFileExporters.ExportNext | src/cbb/local_file_exporter.cc:131-156 | visiting one more entry changes that entry's secondary file only, and only if it is missing or older |
| BurstBuffers.BurstBuffer.Unlink | src/cbb/burst_buffer.cc:135-154 | a local file goes with its registration and descriptors, then the secondary file goes |
| BurstBuffers.BurstBuffer.Symlink | src/cbb/burst_buffer.cc:181-207 | a virtual link is one line in the local tier; a link to a directory is a real one on each tier that has the directory, the local one fails on an existing name, and reads back as the directory |
| BurstBuffers.BurstBuffer.Link | src/cbb/burst_buffer.cc:312-338 | a virtual hard link is one line in the local tier; a directory is refused |
| BurstBuffers.BurstBuffer.GetAttr | src/cbb/burst_buffer.cc:65-72 | whether the path is a file, a directory or a link, its size and time, and where it points |
| BurstBuffers.BurstBuffer.ReadLink | src/cbb/burst_buffer.cc:81-103 | what a real link says, cut to the buffer, without the storage root |
| BurstBuffers.BurstBuffer.RenameFile | src/cbb/burst_buffer.cc:279-307 | the file branch: a local file moves to the secondary tier unless the new name exists there, a secondary file is renamed |
| BurstBuffers.BurstBuffer.Truncate | src/cbb/meta_data_manager.cc:251-253 | truncation by path acts on the local file if there is one, else on the secondary file |
| BurstBuffers.BurstBuffer.Open | src/cbb/burst_buffer.cc:385-396 | only the write-only bit unregisters, and before the open is tried |
| BurstBuffers.BurstBuffer.Create | src/cbb/burst_buffer.cc:704-712 | the path is unregistered before the creation is tried |
| BurstBuffers.BurstBuffer.Read | src/cbb/burst_buffer.cc:406-418 | reads the local file behind a readable descriptor |
| BurstBuffers.BurstBuffer.Write | src/cbb/burst_buffer.cc:428-436 | writes the local file behind a writable descriptor and nothing else |
| BurstBuffers.BurstBuffer.FTruncate | src/cbb/burst_buffer.cc:721-725 | resizes the local file behind a writable descriptor |
| BurstBuffers.BurstBuffer.Release | src/cbb/burst_buffer.cc:470-475 | closes, forgets, then registers the path for export |
| BurstBuffers.BurstBuffer.FilePrevRead | src/cbb/burst_buffer.cc:776-786 | a prefetch is a copy from the secondary tier if that is newer |
| BurstBuffers.BurstBuffer.LocalFileExport | src/cbb/burst_buffer.cc:805-811 | one export pass |
| BurstBuffers.BurstBuffer.DuplicateDirSecondaryToLocal | src/cbb/burst_buffer.cc:1041-1073 | the recursive walk makes, parents first, what `Duplicated` says |
| BurstBuffers.BurstBuffer.constructor | src/cbb/burst_buffer.cc:46-50 | a new server has made the secondary directories in its local tier, watches every local file and has nothing open: it is what a restart leaves |
| BurstBufferClients.BurstBufferClient.UnlinkInternal | src/cbb/burst_buffer_client.cc:269-307 | the fan-out removes the path on every server, the other branch on its owner only |
| BurstBufferClients.BurstBufferClient.FindEntry | src/cbb/burst_buffer_client.cc:319-331 | a symlink entry stands for a path before a link entry, and that before the path |
| BurstBufferClients.BurstBufferClient.Unlink | src/cbb/burst_buffer_client.cc:314-337 | the whole cluster after an unlink |
| BurstBufferClients.BurstBufferClient.GetAttrExInternal | src/cbb/burst_buffer_client.cc:122-149 | the owner's answer: file, directory, link or nothing as its two tiers have it, an entry's first line, and size and first line as in the cluster's state |
| BurstBufferClients.BurstBufferClient.GetAttrEx | src/cbb/burst_buffer_client.cc:157-180 | a path without entries has its own attributes; a symlink entry stands for it with its first line and the mark of a link; a link entry alone stands for it with the attributes of what its first line names |
| BurstBufferClients.BurstBufferClient.ReadLink | src/cbb/burst_buffer_client.cc:189-237 | the symlink entry's line, else the link entry's, else the real link on the path's own server; if the entries are no directories, that is the virtual link of the cluster's state |
| BurstBufferClients.BurstBufferClient.Symlink | src/cbb/burst_buffer_client.cc:369-413 | where one of the path's tiers has a directory of that name the link is made by every server on both tiers and no file changes, or, if its own name has the extension, becomes a line on every server; for any other path it is one entry on the entry's own server |
| BurstBufferClients.BurstBufferClient.FoundIsDirectory | src/cbb/burst_buffer_client.cc:374-377 | the directory branch is taken exactly for paths that one of the two tiers has as a directory |
| BurstBufferClients.BurstBufferClient.Create | src/cbb/burst_buffer_client.cc:1103-1133 | creation changes only the owner and the secondary tier, and a success gives the path, the owner's host, the server's descriptor and the handle packed of the two |
| BurstBufferClients.BurstBufferClient.Open | src/cbb/burst_buffer_client.cc:617-650 | opening changes only the owner and the secondary tier; a success gives path, host, descriptor and handle and points the prefetch thread at the path's directory, a failure leaves the thread alone |
| BurstBufferClients.BurstBufferClient.FilePrevRead | src/cbb/burst_buffer_client.cc:1257-1276 | a prefetch runs on the owner of the path |
| BurstBufferClients.BurstBufferClient.ThreadCall | src/cbb/burst_buffer_client.cc:1336-1374 | in whatever order and at whatever times the thread asks, each server has fetched exactly its own of the paths asked for |
| BurstBufferClients.PrefetchesSiblingsIff | src/cbb/burst_buffer_client.cc:1361-1370 | the paths asked for are those of the directory's files if and only if the directory is the root |
| BurstBufferClients.ParentAndName | src/cbb/burst_buffer_client.cc:1401-1406 | directory and name, joined with a slash, are the path again, and the name has no slash |
| BurstBufferClients.BurstBufferClient.AskedAfterOpen | src/cbb/burst_buffer_client.cc:1361-1370 | after the open of a file in the root directory exactly the other names of the directory are asked for; after the open of any other file nothing in its directory is |
| BurstBufferClients.BurstBufferClient.Rename | src/cbb/burst_buffer_client.cc:449-466 | a file rename runs on the owner of the old name only |
| BurstBufferClients.BurstBufferClient.LocalFileExport | src/cbb/burst_buffer_client.cc:1310-1327 | the loop over the servers is one pass on each, in list order |
| Refinement.PutKeepsInv | src/cbb/burst_buffer_client.cc:1383-1395 | a change at one path on the path's owner keeps ownership, the descriptor partition and coherence on all servers |
| Refinement.CreateSimulates | src/cbb/burst_buffer.cc:704-712 | a faithful creation is a flat `open` |
| Refinement.OpenSimulates | src/cbb/meta_data_manager.cc:320-336 | every open, fetching or not, is a flat `open` |
| Refinement.ReadSimulates | src/cbb/meta_data_manager.cc:347-350 | a read returns the flat file's bytes |
| Refinement.WriteSimulates | src/cbb/meta_data_manager.cc:361-364 | a write is a write to the flat file |
| Refinement.UnlinkEverywhereIsAtOwner | src/cbb/burst_buffer_client.cc:272-285 | sending an unlink to every server has the effect of sending it to the owner alone |
| Refinement.UnlinkSimulates | src/cbb/burst_buffer_client.cc:314-337 | an unlink, resolved through links and sent to all servers, removes one flat file and its handles |
| Refinement.RenameSimulates | src/cbb/burst_buffer.cc:279-301 | a faithful file rename moves one flat file, though it may change servers |
| Refinement.PrefetchSimulates | src/cbb/meta_data_manager.cc:407-437 | a prefetch, even over an older local copy, changes nothing that is seen, and keeps coherence |
| Refinement.ExportSimulates | src/cbb/local_file_exporter.cc:123-166 | a pass on any server changes nothing that any server shows, and keeps coherence on all |
| Refinement.RestartSimulates | src/cbb/local_file_exporter.cc:37-49 | a restart of a server without open files changes nothing that is seen |
| Refinement.StepSimulates | src/cbb/meta_data_manager.h:90-92 | every allowed request keeps the invariant and does what it would do on one flat file system, reply included |
| Refinement.RunRefinesFlat | src/cbb/burst_buffer_client.cc:1383-1395 | over every allowed run on any number of servers: the replies, the bytes at each path and the handles are those of one flat file system |
| Refinement.StartShows | src/cbb/local_file_exporter.cc:37-49 | fresh servers over any secondary tier satisfy the invariant and show that tier |
| FileLaws.OpenLaw | src/util/file_control.cc:50-108 | an open is refused if and only if it must create a name that is there or may not create one that is not; otherwise it hands out the descriptor, and empties the file if it is new or to be truncated, and no other path changes |
| FileLaws.OpenFetchLaw | src/cbb/meta_data_manager.cc:320-336 | what an open leaves in the local tier: a local file is taken as it is, and only a file that is not there is fetched; a creation fetches nothing |
| FileLaws.AccessLaw | src/util/file_control.cc:117-146 | through a descriptor that nothing has closed since, after any run, writes and truncations succeed if and only if exactly one access bit was set, reads if and only if the write-only bit was clear; what they change and return is said on the bytes shown, and what is refused changes nothing |
| FileLaws.RunKeepsHandle | src/cbb/burst_buffer.cc:470-475 | a descriptor keeps its path and flags over every run that does not release it or remove its file |
| FileLaws.ReleaseLaw | src/cbb/burst_buffer.cc:470-475 | a release closes one descriptor and changes no path |
| FileLaws.UnlinkLaw | src/cbb/burst_buffer_client.cc:314-337 | an unlink removes the symlink entry, else the link entry, else the path, and closes what was open of it, and nothing else |
| FileLaws.RenameLaw | src/cbb/burst_buffer.cc:279-301 | a faithful rename moves the bytes over the new name and changes no other path |
| FileLaws.TruncateLaw | src/cbb/meta_data_manager.cc:251-253 | a truncation by path resizes what the path shows, or fails where it shows nothing |
| FileLaws.LinkLaw | src/cbb/burst_buffer_client.cc:369-413 | a link is one line in the entry with its own extension |
| FileLaws.BackgroundLaw | src/cbb/local_file_exporter.cc:123-166 | prefetches, passes and restarts change no path and close nothing |
| Refinement.CreateExact | src/cbb/meta_data_manager.cc:301-312 | creation is faithful if and only if the name is local, or not secondary, or meant to be emptied |
| Refinement.RenameExact | src/cbb/burst_buffer.cc:279-301 | every path shows what it should after a file rename if and only if the new name was free or had the same bytes; otherwise the renamed file is lost |
| Durability.PassExports | src/cbb/local_file_exporter.cc:142-155 | a pass leaves a registered file's bytes in the secondary tier if and only if that file was missing, older or equal |
| Durability.PassKeepsTheRest | src/cbb/local_file_exporter.cc:131-163 | a pass erases exactly the entries whose file vanished, touches no other secondary file and changes no view |
| Durability.SecondPassIsIdle | src/cbb/local_file_exporter.cc:146-150 | a second pass does nothing if and only if no copied file is stamped after its copy, or both passes stamp alike |
| Durability.WriteAfterExportReachesIff | src/cbb/local_file_exporter.cc:146-150 | a write after an export reaches the secondary tier, whatever passes follow and whenever, if and only if it came in a later second or changed nothing |
| Durability.StepDurableIff | src/cbb/burst_buffer.cc:470-475 | a request leaves every local file exported, or newer than its copy and registered or open, if and only if `KeepsReach` holds before it |
| Durability.RunDurable | src/cbb/local_file_exporter.cc:65-86 | so does every run of such requests |
| Durability.FlushMakesSecondaryWhole | src/cbb/burst_buffer_client.cc:1310-1327 | from a durable state, one pass per server gives the secondary tier the bytes of the view at every path without an open handle |
| Durability.FlushClosedClusterIff | src/cbb/burst_buffer_client.cc:1310-1327 | with everything closed, one pass per server makes the secondary tier alone the whole flat file system if and only if every unexported file is reached |
| Durability.EverythingReachesSecondary | src/cbb/local_file_exporter.cc:123-166 | from fresh servers, after any allowed run with everything closed, one pass per server makes the secondary tier alone equal to the flat file system if and only if the run ends with every unexported file reached; a run that keeps `KeepsReach` ends so |
| Durability.OpenClosesWindow | src/cbb/burst_buffer.cc:385-396 | a successful open leaves the path unregistered if and only if it was, or the write-only bit is set |
| Durability.CreateClosesWindow | src/cbb/burst_buffer.cc:704-712 | a creation leaves the path unregistered |
| Durability.WriteWindow | src/cbb/local_file_exporter.cc:92-99 | from then on no pass of any run touches the path's secondary file until it is closed or its server restarts |
| Interleaving.StepKeepsSafe | src/cbb/burst_buffer.cc:141-151 | every file-system call of any exporter, of the client or of a prefetch keeps what an exporter is visiting registered and in place |
| Hazards.UnlinkCrashesIff | src/cbb/local_file_exporter.cc:142-145 | some run that unlinks only this path makes an exporter throw with the mutex locked if and only if the path is not owned by the first server |
| Hazards.ExportersDoNotCrash | src/cbb/burst_buffer.cc:141-151 | runs that unlink only files of the first server, with any renames and prefetches and any number of threads, never make an exporter throw |
| Interleaving.NoResurrection | src/cbb/local_file_exporter.cc:92-99 | over every interleaving on serial servers, once an unlink has completed the path is on no tier until it is created anew or renamed to |
| Hazards.ExporterAdvances | src/cbb/local_file_exporter.cc:131-165 | an exporter holding its mutex has a step towards releasing it unless its next time stamp is of a file that is gone |
| Hazards.UnlinkStuckIff | src/cbb/burst_buffer.cc:142-146 | no run moves an unlink on if and only if it needs the mutex of an exporter that has thrown or is about to |
| Hazards.ComesBackIff | src/cbb/cbb.cc:82 | a completed unlink is final in every run if and only if servers run one handler at a time |
| Overlaps.SpoilsIff | src/cbb/local_file_exporter.cc:142-155 | some run of export and prefetch calls alone changes what a file shows, and some such run empties it on both tiers, if and only if it is registered, not empty, and its two time stamps differ or one copy is missing |
| Overlaps.BytesStay | src/cbb/meta_data_manager.cc:416-431 | for every other file no such run changes what it shows |
| Overlaps.StepMoves | src/cbb/local_file_exporter.cc:131-157 | what one call of any exporter or prefetch can do to one path |
| Overlaps.ExportExposes | src/cbb/local_file_exporter.cc:146-155 | a pass leaves a file that it copies in that state if and only if it runs in another second than the last write |
| Atomicity.ScanIsExport | src/cbb/local_file_exporter.cc:123-166 | a scan that nothing interrupts, all calls of each visit in any order of the entries, is one export pass |
| Atomicity.TurnIsUnlink | src/cbb/burst_buffer.cc:141-151 | an unlink's steps on one server are the server's Unlink, and the next server follows |
| Atomicity.StepsAreRename | src/cbb/burst_buffer.cc:279-301 | a rename's steps are the server's Rename |
| Atomicity.StepsArePrefetch | src/cbb/meta_data_manager.cc:407-437 | a prefetch that nothing interrupts is the server's Prefetch |
| VirtualNames.SymlinkRoundTrip | src/common/common.h:229-258 | decoding undoes symlink encoding if and only if the extension occurs in the path only as a run at its end |
| VirtualNames.LinkRoundTrip | src/common/common.h:238-258 | the same for link encoding, and the symlink extension must not occur at all |
| VirtualNames.EncodingsNeverCollide | src/common/common.h:229-241 | the two encodings are injective and disjoint |
| VirtualNames.Recognisers | src/common/common.h:234-245 | a link name is taken for a symlink if and only if its path already was one, and the other way round |
| VirtualNames.FindInAppended | src/common/common.h:247-258 | the first occurrence of an extension in an encoded name is the path's own, or the appended one: none straddles |
| Attributes.FirstLine | src/common/common.h:260-268 | what `getline` returns: the longest prefix without a newline |
| Attributes.RootDoesNotMatter | src/common/common.h:234-245 | the recognisers, which look at storage paths, see an extension in one if and only if the root or the path has it: none straddles |
| Attributes.RealLinkLosesSlash | src/cbb/burst_buffer.cc:190-203 | a link to a directory is read back without its leading slash, and cut if the buffer does not hold the storage path |
| Attributes.SecondaryLinkLosesSlash | src/cbb/burst_buffer.cc:81-103 | so is a link that only the secondary tier has; where there is no real link nothing is read |
| Attributes.FileStatTells | src/cbb/meta_data_manager.cc:90-117 | the attributes are a file's, a directory's or a link's exactly where the tiers have one |
| BurstBufferClients.FileStatIsLinkPath | src/cbb/meta_data_manager.cc:120-134 | the attributes of a plain path are what the cluster's state says of it, and the size is that of the bytes seen |
| Links.ReadLinkReturnsTarget | src/cbb/burst_buffer_client.cc:189-237 | after a symlink request and any run that does not name the link, reading it gives the target's first line: the target itself if and only if it has no newline |
| Links.ReadLinkReturnsHardLink | src/cbb/burst_buffer_client.cc:189-237 | the same for a hard link that no symlink stands before |
| Links.UnlinkRemovesOnlyTheLink | src/cbb/burst_buffer_client.cc:314-337 | unlinking the link removes its entry, keeps the invariant and changes no other view |
| Listings.ReadDirInternal | src/cbb/burst_buffer.cc:499-541 | the loop adds each decoded name that is not there yet; a failing `closedir` empties the listing |
| Listings.ReadDir | src/cbb/burst_buffer.cc:549-581 | the local directory is read before the secondary one, the last error is returned, and a secondary stream that does not close takes the local names along |
| Listings.ReadDirOfAll | src/cbb/burst_buffer_client.cc:824-849 | inserting the servers' listings is merging all entries in reading order |
| Listings.ListingHas | src/cbb/burst_buffer.cc:534-536 | a name is listed if and only if some directory has an entry that decodes to it, with the attributes of the first; a stream that does not close has none |
| Listings.ListedAttributes | src/cbb/burst_buffer.cc:510-531 | a listed name has the inode and kind of the first entry of the first server that has it, local before secondary; a symlink entry shows the link bits as well, and no other bit changes |
| Listings.OrderDoesNotMatter | src/cbb/burst_buffer_client.cc:829-846 | the names listed do not depend on the order of the servers |
| Listings.ListingAgreesWithView | src/cbb/burst_buffer_client.cc:824-849 | a name is listed if and only if it decodes a file of the cluster's view, a directory of some tier, or a dot name |
| TreeWalks.RemoveStoragePathInverse | src/cbb/meta_data_manager.h:94-101 | `remove_storage_path` undoes `local_path` if and only if the path is relative |
| TreeWalks.SliceOfWalk | src/cbb/local_file_exporter.cc:196-202 | slicing the root off a walked name gives the path in the form the requests use |
| TreeWalks.DuplicatedIff | src/cbb/burst_buffer.cc:1041-1073 | every secondary directory exists locally afterwards if and only if no local file has the name of one |
| DirectoryWalks.DuplicatedAt | src/cbb/burst_buffer.cc:1041-1073 | a directory of the secondary tier exists locally afterwards exactly where no local file has its name or that of a directory on the way to it |
| DirectoryWalks.FilesAre | src/cbb/local_file_exporter.cc:184-212 | the files and directories of a walked tree are those that a look from its top finds, at any depth |
| DirectoryWalks.PathsAre | src/cbb/local_file_exporter.cc:196-202 | the path strings of a search are those names joined by slashes |
| TreeWalks.SliceOfDuplicate | src/cbb/burst_buffer.cc:1059-1063 | the local name is the secondary one under the other root |
| DirectoryWalks.EveryFileFoundIff | src/cbb/burst_buffer.cc:241-253 | the walk looks for every file in its place if and only if no file follows a directory that was left |
| DirectoryWalks.DeepFileIsFound | src/cbb/burst_buffer.cc:241-253 | a file below all directories of a tree is always found |
| DirectoryWalks.EveryDirEnteredIff | src/cbb/burst_buffer.cc:268-274 | the second walk meets every directory in its place if and only if the directories are a chain |
| DirectoryWalks.JoinInjective | src/cbb/burst_buffer.cc:239-251 | sequences of slash-free names and path strings are the same thing |
| DirectoryRenames.RenameServer.Rename | src/cbb/burst_buffer.cc:223-277 | the directory branch on one server: no exception if and only if every copy fits, the secondary rename can be done and no local file is in the way of a new directory; then the state is `Renamed`, and else one that `Broken` describes |
| DirectoryRenames.RenameServer.MakeDirectories | src/cbb/burst_buffer.cc:265-274 | `create_directories` makes every prefix, or throws if and only if a local file has the name of one |
| DirectoryRenames.RenameServer.RenameSecondary | src/cbb/burst_buffer.cc:257-262 | `rename` of a directory works if and only if it is there, the new name is free and has a parent, and is not inside it |
| DirectoryRenames.RenameServer.CopyOut | src/cbb/burst_buffer.cc:238-253 | the loop with its two growing strings copies exactly the local files found where it looks, up to the first that does not fit |
| DirectoryRenames.RenameServer.Recreate | src/cbb/burst_buffer.cc:265-274 | the loop makes the directories it takes its entries for, or throws if and only if a local file is in the way of one |
| DirectoryRenames.MoveAt | src/cbb/burst_buffer.cc:258-262 | a renamed secondary directory has each file under the new name and none under the old |
| DirectoryRenames.FirstTurn | src/cbb/burst_buffer.cc:227-236 | the first server with the directory renames it in the secondary tier |
| DirectoryRenames.LaterTurn | src/cbb/burst_buffer.cc:229-233 | each later one merges its local files into the new directory |
| DirectoryRenames.AfterIs | src/cbb/burst_buffer_client.cc:434-447 | the request gets through any number of servers if and only if `GetsThrough` held before it, and then the state is known in closed form |
| DirectoryRenames.SmoothIff | src/cbb/burst_buffer.cc:249-261 | whether a server throws in the middle of a request is decided by the tiers as they were before it |
| DirectoryRenames.DirectoryRenameExact | src/cbb/burst_buffer_client.cc:434-447 | the rename gets through all servers if and only if each copy fitted and the new name could be taken before it; then nothing is left under the old name on any tier, other files and directories are as they were, the new secondary tree has the directories of the old, and the new name shows every file of the old if and only if each local file a walk misses had been exported |
| DirectoryRenames.DirectoryRenameMovesAll | src/cbb/burst_buffer.cc:223-277 | with files first in every local tree no server throws and no file is lost |
| BrokenRenames.ThrownStops | src/cbb/burst_buffer_client.cc:434-447 | a rename that does not get through breaks on one server, at a copy, at the secondary rename or at a local directory |
| BrokenRenames.ViewLeft | src/cbb/burst_buffer.cc:223-277 | what every name shows after a rename that broke on a given server |
| BrokenRenames.BrokenRenameExact | src/cbb/burst_buffer.cc:223-277 | after it every file still shows under one of the two names if and only if each local file missed by the walks so far had been exported; other files and directories are as they were, and the server has forgotten its registrations |
| DirectoryRenames.DirectoriesRecreatedIff | src/cbb/burst_buffer.cc:265-274 | a server ends with exactly the directories of the new secondary tree if and only if that tree is a chain |
| HashRing.ConsistentHash.CalcNodePointValue | src/util/hash/consistent_hash.h:85-106 | the points of the ring; no node is a division by zero |
| HashRing.ConsistentHash.Create | src/util/hash/consistent_hash.h:45-55 | the ring of the given infos, or the old one if there is none |
| HashRing.ConsistentHash.GetNode | src/util/hash/consistent_hash.h:62-76 | the first node whose point the key does not exceed |
| HashRing.Arc | src/util/hash/consistent_hash.h:69-73 | the least index whose point reaches the key |
| HashRing.ScanIsSlot | src/util/hash/consistent_hash.h:62-106 | the scan equals the closed form for every key and every number of nodes |
| HashRing.ArcSizes | src/util/hash/consistent_hash.h:85-106 | how many keys each node gets |
| HashRing.Balanced | src/util/hash/consistent_hash.h:85-106 | every key has a node, the arcs hold all keys between them, and two nodes differ by fewer keys than there are nodes |
| HashRing.AddingNeverMovesBack | src/util/hash/consistent_hash.h:62-106 | one more node never moves a key to an earlier node |
| HashRing.AddingMovesOneIff | src/util/hash/consistent_hash.h:62-106 | one more node moves every key by at most one place if and only if the last but one arc ends no later than that of the larger ring |
| HashRing.ManyKeysAreGentle | src/util/hash/consistent_hash.h:85-106 | (n + 1) n (n - 1) keys are enough for that |
| Digests.CalcHashMd5 | src/util/hash/hash_calc_md5.cc:34-55 | the loop folds the digest in base 256; an error of the library gives the key 0 |
| Digests.Md5IsBijection | src/util/hash/hash_calc_md5.cc:46-49 | each key from 0 to 2^128 - 1 belongs to exactly one digest |
| Digests.CalcHashSha1 | src/util/hash/hash_calc_sha1.cc:34-57 | the two loops turn the words round and fold the bytes as signed |
| Digests.Sha1Injective | src/util/hash/hash_calc_sha1.cc:43-54 | different digests have different keys |
| Digests.Sha1KeysAre | src/util/hash/hash_calc_sha1.cc:51-54 | a number is the key of some digest if and only if it lies between the two bounds: every number between them is one |
| Digests.Sha1Range | src/util/hash/hash_calc_sha1.cc:51-54 | the bounds of a SHA-1 key, and a set first bit makes it negative |
| SelectServers.SelectServer.Init | src/util/select_server.cc:32-50 | one entry per host, and the ring of them unless there is none |
| SelectServers.SelectServer.GetInfo | src/util/select_server.cc:58-73 | the assertions hold if and only if the routed server has a host and a port; with MD5 that is the server in whose arc the digest, read as an unsigned number, lies |
| SelectServers.CalcHash | src/util/select_server.cc:65 | the key is the one that the digest's own loop computes |
| SelectServers.Md5ReachIff | src/util/hash/hash_calc_md5.cc:46-49 | with MD5 a path goes to server k or beyond if and only if its digest lies beyond the arcs before k of the ring of 2^128 keys |
| SelectServers.Md5ReachesAllIff | src/util/hash/hash_calc_md5.cc:46-49 | every server is reached by some MD5 digest if and only if there are fewer servers than keys |
| SelectServers.Sha1RouteIff | src/util/hash/hash_calc_sha1.cc:51-54 | the same as for MD5 with the bytes read as signed and 2^160 keys |
| SelectServers.RouteInRange | src/util/select_server.cc:65-69 | every path has a server: the scan never falls through, for either digest |
| SelectServers.RingRoutesCluster | src/cbb/burst_buffer_client.cc:1383-1395 | a ring of the cluster's servers is a routing for it |
| SelectServers.Sha1ReachesHalf | src/util/hash/hash_calc_sha1.cc:51-54 | every path goes to the strictly first half of the servers, and a set first bit means the first server |
| SelectServers.Sha1ReachIff | src/util/hash/hash_calc_sha1.cc:51-54 | exactly which servers a digest can reach: server k or beyond if and only if 255 (end of arc k - 1, plus 1) is at most 127 times the largest key |
| Handles.PackInjective | src/cbb/burst_buffer_client.cc:640-644 | the handle determines the address and a non-negative descriptor |
| Handles.PackTellsServersIff | src/cbb/burst_buffer_client.cc:640-644 | a handle tells two servers apart if and only if the descriptor is not negative |
| Handles.PackHalves | src/cbb/burst_buffer_client.cc:640-644 | the upper half of a handle is the address, the lower half the descriptor |
| Handles.HandleTable.Opened | src/cbfs/cbb_client_wrapper.cc:134-144 | a successful open files path, host and descriptor under its handle; a negative descriptor leaves the table alone |
| Handles.HandleTable.At | src/cbfs/cbb_client_wrapper.cc:147-155 | an operation finds the handle's file; an unknown handle springs up as an empty one |
| Handles.RunSound | src/cbfs/cbb_client_wrapper.cc:134-183 | over every run with reused descriptors each open handle leads to its path, host and descriptor |
| Handles.HandlesSoundIff | src/cbb/burst_buffer_client.cc:640-644 | so for all runs if and only if no two hosts have the same address, a host without one counting as 255.255.255.255 |
| Handles.NamedHostsClash | src/cbb/burst_buffer_client.cc:76-83 | two servers that are not dotted addresses always clash |
| Counterexamples.CreateShadows | src/cbb/meta_data_manager.cc:301-312 | a creation that hides existing bytes |
| Counterexamples.RenameLoses | src/cbb/burst_buffer.cc:287-292 | a rename that loses a file |
| Counterexamples.FailedCreateUnregisters | src/cbb/burst_buffer.cc:704-712 | a failed creation whose file never reaches the secondary tier |
| Counterexamples.ReadWriteStaysRegistered | src/cbb/burst_buffer.cc:387-389 | a file open for reading and writing that a pass copies |
| Counterexamples.DirectoryRenameLoses | src/cbb/burst_buffer.cc:241-255 | a directory rename that loses a file |
| Counterexamples.StrayDirectoryThrows | src/cbb/burst_buffer.cc:249 | a local subdirectory that makes a directory rename throw |
| Counterexamples.SmallRingSkips | src/util/hash/consistent_hash.h:85-106 | a ring on which one more node moves a key two places |

## Left out

- RPC dispatch, sessions, retries, FUSE options, settings, logging and thread start-up: plumbing around the state modelled here.
- Exact error codes: several client functions shadow their error variable, so a reply is only success or failure.
- MD5 and SHA-1 themselves: a digest is any 16 bytes, or five words; `char` is signed and words are stored lowest byte first.
- Chmod, Chown, Utimens, xattr, StatFs, Access, MkDir, RmDir, flock, FSync and Flush: wrappers of one call each; Utimens would also break the clock assumption.
- FileFlush: it closes descriptors behind the handles' backs.
- BurstBuffers.BurstBuffer.RenameFile: the file branch only; the directory branch is `DirectoryRenames.RenameServer.Rename`, over another form of paths.
- O_APPEND, permissions, full disks and real hard links; real symbolic links exist only in `Attributes` and the link requests, and always lead to a directory.
- The bytes of a file that was removed while open: such a descriptor reads nothing and its writes are dropped. No run of the theorems has one.
- Directories in `Clusters` and `Refinement`: a missing parent directory never makes a file request fail there.
- MetaDataManagers.MetaDataManager.GetFileStat: owner, permissions, inode, block counts and the two other times are not modelled, nor are they in the attributes of `GetAttr` and `GetAttrEx`.
- BurstBufferClients.BurstBufferClient.ThreadCall: the names found are a parameter, the union of the servers' listings of the secondary directory.
- Two client requests at once, other than prefetches: `Interleaving` runs the exporters and prefetches of all servers against one unlink or rename at a time.
- Passes and prefetches in pieces: `Refinement`, `Durability` and `Links` take each as one indivisible request. `Atomicity` shows that this is what they are when nothing interrupts them, and `Overlaps` what they can do when they overlap.
- Which bytes a prefetch reads when its file is unlinked and made again under it: `Interleaving` takes those of the new file.
- Interleaving.NoResurrection: it is about serial servers; `Hazards.ComesBackIff` shows that this is necessary.
- Key widths of 256 bits and more, which would wrap in `int256_t`; the two digests use 128 and 160.
- Listings.ReadDirInternal: `seekdir` offsets are opaque to the program; a stream is what `readdir` yields from the offset on.
- DirectoryRenames.RenameServer.Rename: if `create_directories` throws, nothing is said of which local directories it has made.
- Paths in `DirectoryRenames` are sequences of names and modification times are dropped, because the copies there overwrite whatever their age; the program's two path strings are these sequences joined by slashes.
- `MetaDataManager::Rename`: nothing calls it.
