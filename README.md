# aws-chiles02: execution graphs, chunked reads and checksums

This project models the logic of aws-chiles02, the pipeline that runs CHILES radio-astronomy
reductions on Amazon Web Services with the dfms execution engine. The model covers four areas:

- **Building execution graphs.** A graph is a list of drops: 'plain' and 'container' data
  drops, and 'app' drops, each a dfms `dropdict` whose inputs and outputs name other drops' uids.
  - `BuildGraphCommon.AbstractBuildGraph` models the builder base class. It keeps per-type oid
    counters, the growing drop list, the drop factories, and the per-node log copy and shutdown
    apps. It also tags the app drops.
  - `CleanGraph` models the clean graph: one chain of copy / clean / upload steps per group of
    frequency pairs, ending in a barrier.
  - `MsTransformGraph` models the mstransform graph: a fixed fan-out over three bands, with a
    barrier.
- **The stats work list.** `StatsGraph` models how the work-to-do list is worked out from an S3
  listing.
- **The uvsub apps.** `Uvsub` models the names these apps give files, the spectral window they
  choose, and the exit codes of the two copy apps.
- **Supporting helpers.**
  - `FileChunk` models the windowed reader `FileChunkIO`.
  - `CopyS3` models the S3 URL splitting of the Java copy tools.
  - `HexDigest`, `JavaIo`, `GetMd5` and `GetMd5ToS3` model the two Java MD5 programs. They cover
    the fixed-width hex rendering of a digest, the chunked read loops that feed every byte of a
    file to the digest, and the `.md5` files their `main` methods write.

The Python graph builders only compute, so they become datatypes, functions and lemmas. Their
loops become methods proved against those functions. The builder base class and `WorkToDo` update
their own fields, so they become Dafny classes. The Java read loops become methods over
`array<int8>` buffers. They drive small models of `FileInputStream`, `FileChannel`, `ByteBuffer`
and `MessageDigest`.

Some properties of the code as written:

- In the clean graph, a group with no pairs leaves `None` among the chain ends. The barrier's
  `addInput(None)` then fails, so `CleanGraph.BuildGraph` reports an error exactly when some
  group is empty.
- `FileChunkIO.read(n)` past the chunk's end computes a negative size. The real file then reads
  to its own end, so bytes outside the chunk are returned. `FileChunk.ReadPastChunkEndReadsToEof` states
  this for every file and size, and `FileChunk.ReadPastChunkEnd` gives a concrete case. `readall`
  past the end recurses until Python 2 raises RuntimeError.
- `getBucketName` throws when no `/` follows `s3://`. `getKeyName` then returns the whole input.
- The spectral window uses Python 2's flooring division: the pair 940/944 is in window -1.

## Model

| member | source | states |
|---|---|---|
| BuildGraphCommon.AbstractBuildGraph.constructor | pipeline/aws_chiles02/build_graph_common.py:41-55 | the fields take the arguments; the drop list, start oids and counters start empty; the carry-over map has an entry exactly for each ip_address listed in node_details, each holding the subclass's fresh carry-over value |
| BuildGraphCommon.AbstractBuildGraph.Append | pipeline/aws_chiles02/build_graph_common.py:65-66 | the drop list becomes the old list followed by the drop |
| BuildGraphCommon.AbstractBuildGraph.GetOid | pipeline/aws_chiles02/build_graph_common.py:68-76 | only the counter of count_type changes, by exactly one (from 1 if absent); the oid is '<type>__<count>' with six zero-padded digits, so a type's first oid ends "__000001"; the oid was never issued before, and every earlier oid stays issued |
| BuildGraphCommon.AbstractBuildGraph.GetUuid | pipeline/aws_chiles02/build_graph_common.py:78-80 | returns a uid this builder has not handed out before (the k-th call returns k) |
| BuildGraphCommon.NextOidIsFresh | pipeline/aws_chiles02/build_graph_common.py:68-76 | the next oid of any type differs from every oid the counters have issued, of every type |
| BuildGraphCommon.IssuedGrows | pipeline/aws_chiles02/build_graph_common.py:69-74 | bumping a counter keeps every oid issued before it issued |
| BuildGraphCommon.OidInjective | pipeline/aws_chiles02/build_graph_common.py:76 | equal oids come from the same type and count, even for types ending in '_' or holding "__" |
| BuildGraphCommon.OidDigits | pipeline/aws_chiles02/build_graph_common.py:76 | the count part of an oid is all decimal digits |
| BuildGraphCommon.Bump | pipeline/aws_chiles02/build_graph_common.py:69-74 | the bumped type's count is its old count (0 when absent) plus one; every other type's count is unchanged |
| BuildGraphCommon.AbstractBuildGraph.CreateMemoryDrop | pipeline/aws_chiles02/build_graph_common.py:132-140 | one oid of its type and one uid are issued; the drop is a plain memory drop on the node, with no edges |
| BuildGraphCommon.AbstractBuildGraph.CreateBashShellApp | pipeline/aws_chiles02/build_graph_common.py:142-152 | one oid and one uid are issued; the drop is a BashShellApp app with the command, the input error threshold and the node |
| BuildGraphCommon.AbstractBuildGraph.CreateBarrierApp | pipeline/aws_chiles02/build_graph_common.py:154-163 | one oid and one uid are issued; the drop is a Chiles02BarrierAppDROP app on the node |
| BuildGraphCommon.AbstractBuildGraph.CreateApp | pipeline/aws_chiles02/build_graph_common.py:165-175 | one oid and one uid are issued; the app's keys are the fixed ones overridden by the keyword arguments, as dict.update does |
| BuildGraphCommon.AbstractBuildGraph.CreateDockerApp | pipeline/aws_chiles02/build_graph_common.py:177-189 | as CreateApp, with image and user set before the keyword arguments are merged |
| BuildGraphCommon.AbstractBuildGraph.CreateDirectoryContainer | pipeline/aws_chiles02/build_graph_common.py:191-204 | one oid and one uid are issued; the container's dirname is the volume joined with its own oid |
| BuildGraphCommon.AbstractBuildGraph.CreateS3Drop | pipeline/aws_chiles02/build_graph_common.py:206-219 | one oid and one uid are issued; a plain s3 drop with the bucket, key, profile and node |
| BuildGraphCommon.AbstractBuildGraph.CreateJsonDrop | pipeline/aws_chiles02/build_graph_common.py:221-233 | one oid and one uid are issued; a plain json drop whose dirname is the volume joined with its oid |
| Drops.AddInput | pipeline/aws_chiles02/build_graph_common.py:96 | addInput appends the other drop's uid to the inputs unless they already name it; nothing else about the drop changes |
| Drops.AddOutput | pipeline/aws_chiles02/build_graph_common.py:108 | addOutput appends the other drop's uid to the outputs unless they already name it; nothing else about the drop changes |
| BuildGraphCommon.AbstractBuildGraph.WireDataInputs | pipeline/aws_chiles02/build_graph_common.py:94-96 | the app gains, in list order, an input from every 'plain' and 'container' drop of the list, and from nothing else |
| BuildGraphCommon.DataInputsExactly | pipeline/aws_chiles02/build_graph_common.py:94-96 | a uid is among the copy-log inputs exactly when some data drop of the list has it |
| BuildGraphCommon.NoAppInputs | pipeline/aws_chiles02/build_graph_common.py:94-96 | when the list's uids are distinct, no app drop of the list is a copy-log input |
| BuildGraphCommon.DataInputsIgnoresApps | pipeline/aws_chiles02/build_graph_common.py:90-96 | the apps appended during the call do not change the inputs, so every node's copy-log app reads the data drops listed before the call |
| BuildGraphCommon.AbstractBuildGraph.AddCopyLog | pipeline/aws_chiles02/build_graph_common.py:90-108 | exactly one app is appended: a CopyLogFilesApp reading every data drop and writing the node's log drop, an s3 drop under '<session_id>/<node_id>.tar' that is not listed; only the copy_log_files_app and s3_out counters move |
| BuildGraphCommon.AbstractBuildGraph.AddNodeLogs | pipeline/aws_chiles02/build_graph_common.py:88-113 | the list grows by 1, or by 2 when shutdown is set, all apps; earlier drops are kept; when shutdown is set, the second app is the shutdown bash app whose single input is the node's log drop |
| BuildGraphCommon.AbstractBuildGraph.AppendCopyLogApp | pipeline/aws_chiles02/build_graph_common.py:90-96 | the list becomes the old list followed by the returned app, a CopyLogFilesApp on the node with no outputs, the next copy_log_files_app oid and the next uid, whose inputs are exactly DataInputs of the drops listed before the call; the listed element is the wired app, as the shared dict is in the source |
| BuildGraphCommon.AbstractBuildGraph.CopyLogsOfNode | pipeline/aws_chiles02/build_graph_common.py:87-113 | the list becomes NodesDrops of the ips so far and this one, numbered from the counts before the call; the counters and the uid count are those after one more node |
| BuildGraphCommon.AbstractBuildGraph.CopyLogsOfList | pipeline/aws_chiles02/build_graph_common.py:87-113 | every instance of one list, in order, appends its node's drops as NodesDrops describes, and the counts advance by one node each |
| BuildGraphCommon.AbstractBuildGraph.NodesDropsSnoc | pipeline/aws_chiles02/build_graph_common.py:86-113 | one more ip appends its node's drops after those of the ips before it, numbered after them |
| BuildGraphCommon.AbstractBuildGraph.NodeAt | pipeline/aws_chiles02/build_graph_common.py:86-113 | the i-th ip's copy-log app sits at slot i (2i with shutdown), its shutdown app right after it, and the i-th log drop is its; each carries the oids and uids of the i-th node |
| BuildGraphCommon.AbstractBuildGraph.NodesDropsAreApps | pipeline/aws_chiles02/build_graph_common.py:90-113 | every listed drop is an app, so the data inputs stay those listed before the call |
| BuildGraphCommon.AbstractBuildGraph.NodesIdsDistinct | pipeline/aws_chiles02/build_graph_common.py:68-113 | the listed drops have strictly increasing uids and pairwise different oids, so do the log drops, and no log drop shares an oid or uid with a listed one |
| BuildGraphCommon.AbstractBuildGraph.NodesIdsFresh | pipeline/aws_chiles02/build_graph_common.py:68-113 | every new drop, listed or log drop, has a uid not below the uid count before the call and an oid that get_oid had not issued before it |
| BuildGraphCommon.OidsDiffer | pipeline/aws_chiles02/build_graph_common.py:76 | different (type, count) pairs give different oids |
| BuildGraphCommon.AbstractBuildGraph.CopyLogfilesAndShutdown | pipeline/aws_chiles02/build_graph_common.py:82-113 | the list is the old list followed by NodesDrops: for every ip of node_details in order, that node's copy-log app and, iff shutdown, its shutdown app, each with the next oid of its type and the next uid; the log drops returned are LogDrops; the counters grow by one copy-log oid and one s3_out oid per node, plus one bash oid iff shutdown, and the uid count by 2 per node, 3 with shutdown; no other counter moves |
| BuildGraphCommon.Tagged | pipeline/aws_chiles02/build_graph_common.py:116-118 | an app drop's keys become its old keys updated by the tags; any other drop is unchanged |
| BuildGraphCommon.AbstractBuildGraph.TagAllAppDrops | pipeline/aws_chiles02/build_graph_common.py:115-118 | the list keeps its length, and each drop is its old self as Tagged gives it: only app drops change |
| GraphNaming.CallOidInjective | pipeline/aws_chiles02/generate_clean_graph.py:42-47 | oids of different get_oid calls differ |
| GraphNaming.PairNameInjective | pipeline/aws_chiles02/generate_clean_graph.py:141-144 | different frequency pairs have different '<min>_<max>' names |
| CleanGraph.NumberInChain | pipeline/aws_chiles02/generate_clean_graph.py:39 | zero cores raise; otherwise the chain length is the floor of the group count over the cores (Python 2 division) |
| CleanGraph.CleanKeyInjective | pipeline/aws_chiles02/generate_clean_graph.py:141-144 | different pairs upload to different keys 'clean/<min>_<max>/<min>_<max>.tar' |
| CleanGraph.WirePair | pipeline/aws_chiles02/generate_clean_graph.py:59-153 | one pass of the inner loop gives the four listed drops of the step and the two unlisted ones (clean app and result), and returns the S3 output as the chain's new end |
| CleanGraph.ChainGroup | pipeline/aws_chiles02/generate_clean_graph.py:56-155 | the inner loop over one group appends that group's steps to the list, and its last S3 output becomes end_of_last_element |
| CleanGraph.WireBarrier | pipeline/aws_chiles02/generate_clean_graph.py:157-167 | the barrier reads the chain end of every group, in group order, and writes nothing |
| CleanGraph.BuildChains | pipeline/aws_chiles02/generate_clean_graph.py:40-169 | for non-empty groups the list is CleanGraphNodes: the file drop, four drops per pair, the barrier; the start list is [file_drop uid] |
| CleanGraph.BuildGraph | pipeline/aws_chiles02/generate_clean_graph.py:38-169 | fails exactly when cores is 0 or some group is empty; otherwise returns the dropdicts of CleanGraphNodes and the start list [file_drop uid] |
| CleanGraph.GraphEnds | pipeline/aws_chiles02/generate_clean_graph.py:52-164 | the list has 2 + 4 × pairs drops, the file drop first and the barrier last |
| CleanGraph.GraphStep | pipeline/aws_chiles02/generate_clean_graph.py:91-152 | the n-th pair's copy_from_s3, measurement_sets, copy_to_s3 and s3_drop_out sit at 1 + 4n .. 4 + 4n |
| CleanGraph.StepPipeline | pipeline/aws_chiles02/generate_clean_graph.py:84-149 | each pair is wired copy_from_s3 → measurement_sets → clean → result → copy_to_s3 → s3_drop_out |
| CleanGraph.ChainStart | pipeline/aws_chiles02/generate_clean_graph.py:84-86 | the first pair of a group reads the file drop |
| CleanGraph.ChainLink | pipeline/aws_chiles02/generate_clean_graph.py:87-153 | every later pair reads the previous pair's S3 output |
| CleanGraph.BarrierReadsChainEnds | pipeline/aws_chiles02/generate_clean_graph.py:155-167 | the barrier has one input per group, that group's last S3 output, and no output |
| CleanGraph.TailUidsFresh | pipeline/aws_chiles02/generate_clean_graph.py:166-167 | with non-empty groups, each group's end is new to the barrier, so no addInput is absorbed |
| CleanGraph.ListedCallsIncrease | pipeline/aws_chiles02/generate_clean_graph.py:42-164 | the listed drops' get_oid/get_uid call numbers increase strictly along the list |
| CleanGraph.GraphCallsDistinct | pipeline/aws_chiles02/generate_clean_graph.py:42-164 | no two listed drops share a call, so none share an oid or a uid |
| CleanGraph.GraphDictsDistinct | pipeline/aws_chiles02/generate_clean_graph.py:42-164 | the returned dropdicts have pairwise different oids and uids |
| CleanGraph.S3OutKey | pipeline/aws_chiles02/generate_clean_graph.py:133-147 | a pair's S3 output is a plain s3 drop in the bucket under 'clean/<min>_<max>/<min>_<max>.tar' |
| CleanGraph.GraphS3Out | pipeline/aws_chiles02/generate_clean_graph.py:133-152 | in the returned list, the n-th pair's S3 output is the dropdict at 4 + 4n |
| CleanGraph.DirectoriesNamedByOid | pipeline/aws_chiles02/generate_clean_graph.py:49-112 | every directory of the graph is the volume joined with the drop's own oid |
| CleanGraph.DictOidsDiffer | pipeline/aws_chiles02/generate_clean_graph.py:42-160 | drops of different get_oid calls have different oids |
| CleanGraph.StepOf | pipeline/aws_chiles02/generate_clean_graph.py:55-58 | pair p of group g is step Offset(g) + p of the build, and it opens its chain exactly when p is 0 |
| MsTransformGraph.OutKeyInjective | pipeline/aws_chiles02/generate_mstransform_graph.py:120-124 | different bands or observations give different keys '<min>_<max>/<observation>' |
| MsTransformGraph.BandKeysDiffer | pipeline/aws_chiles02/generate_mstransform_graph.py:79-124 | the three bands' outputs never share a key |
| MsTransformGraph.WireInput | pipeline/aws_chiles02/generate_mstransform_graph.py:42-76 | s3_drop → copy_from_s3 → measurement_set, all three listed in that order |
| MsTransformGraph.WireBand | pipeline/aws_chiles02/generate_mstransform_graph.py:80-131 | one band appends its mstransform app (reading measurement_set and writing its result), the result, copy_to_s3 and the S3 output, the last two with no edges |
| MsTransformGraph.WireBarrier | pipeline/aws_chiles02/generate_mstransform_graph.py:133-144 | the barrier reads measurement_set, then each output in order, and writes nothing |
| MsTransformGraph.BuildNodes | pipeline/aws_chiles02/generate_mstransform_graph.py:39-146 | the list is GraphNodes, and the start list is [s3_drop uid] |
| MsTransformGraph.BuildGraph | pipeline/aws_chiles02/generate_mstransform_graph.py:39-146 | returns the dropdicts of GraphNodes and the start list [s3_drop uid] |
| MsTransformGraph.GraphShape | pipeline/aws_chiles02/generate_mstransform_graph.py:71-140 | 16 drops in construction order, opening with s3_drop → copy_from_s3 → measurement_set and closing with the barrier |
| MsTransformGraph.GraphBand | pipeline/aws_chiles02/generate_mstransform_graph.py:79-131 | band b sits at 3 + 4b .. 6 + 4b; its app reads measurement_set and writes its own result; copy_to_s3 and the S3 output have no edges |
| MsTransformGraph.BarrierInputs | pipeline/aws_chiles02/generate_mstransform_graph.py:140-144 | the barrier reads measurement_set and then the three S3 outputs, in band order, and writes nothing |
| MsTransformGraph.ListedCalls | pipeline/aws_chiles02/generate_mstransform_graph.py:42-117 | the i-th listed drop comes from the i-th get_oid/get_uid call |
| MsTransformGraph.GraphDictsDistinct | pipeline/aws_chiles02/generate_mstransform_graph.py:42-139 | the returned dropdicts have pairwise different oids and uids |
| MsTransformGraph.S3InKey | pipeline/aws_chiles02/generate_mstransform_graph.py:42-51 | s3_drop is the object ms_set of the bucket |
| MsTransformGraph.S3OutKey | pipeline/aws_chiles02/generate_mstransform_graph.py:113-128 | band outputs are s3 drops in the bucket under '<min>_<max>/<observation>' |
| StatsGraph.ItemOf | pipeline/aws_chiles02/generate_stats_graph.py:74-75 | a key with fewer than three '/' fields, or no '_' in the second, raises IndexError |
| StatsGraph.ItemOfLayout | pipeline/aws_chiles02/generate_stats_graph.py:74-88 | a key '<dir>/<min>_<max>/<day>/<file>' names the item [day, min, max] |
| StatsGraph.WorkToDo.constructor | pipeline/aws_chiles02/generate_stats_graph.py:51-58 | the input directory and bucket are kept, and the work list starts empty |
| StatsGraph.WorkToDo.CalculateWorkToDo | pipeline/aws_chiles02/generate_stats_graph.py:71-89 | the work list becomes the old list followed by ScanKeys' items; IndexError is raised exactly when the scan fails, keeping the items appended before it |
| StatsGraph.ScanKeys | pipeline/aws_chiles02/generate_stats_graph.py:71-89 | the scan adds at most one item per key |
| StatsGraph.ScanStops | pipeline/aws_chiles02/generate_stats_graph.py:74-75 | after an IndexError, later keys change nothing |
| StatsGraph.TarKeys | pipeline/aws_chiles02/generate_stats_graph.py:72 | a key is kept exactly when it is in the listing and ends in ".tar" |
| StatsGraph.OnlyTarKeysMatter | pipeline/aws_chiles02/generate_stats_graph.py:64-73 | keys not ending in .tar, the .csv files among them, never change the outcome |
| StatsGraph.ScanAppend | pipeline/aws_chiles02/generate_stats_graph.py:71-89 | items are appended key by key, in order, never removed or de-duplicated |
| StatsGraph.ScanAddsExactly | pipeline/aws_chiles02/generate_stats_graph.py:76-89 | an item is added iff some .tar key names it and '<input_dir> <day> <min> <max>' is not among the recorded rows |
| StatsGraph.ScanFailsExactly | pipeline/aws_chiles02/generate_stats_graph.py:72-75 | the scan fails iff some .tar key is too short to name an item |
| StatsGraph.GetNodesRequired | pipeline/aws_chiles02/generate_stats_graph.py:96-103 | one request for node_count i2.2xlarge instances at the spot price given, and node_count unchanged |
| Uvsub.TildePairInjective | pipeline/aws_chiles02/apps_uvsub.py:66 | different pairs give different '<min>~<max>' texts |
| Uvsub.VisNameInjective | pipeline/aws_chiles02/apps_uvsub.py:66-235 | different pairs read different 'vis_<min>~<max>' sets |
| Uvsub.UvsubTarName | pipeline/aws_chiles02/apps_uvsub.py:178 | the tar name is the 'uvsub_<min>~<max>' stem followed by ".tar" |
| Uvsub.UvsubTarNameInjective | pipeline/aws_chiles02/apps_uvsub.py:164-178 | different pairs write different uvsub tar files |
| Uvsub.VisIsNotUvsub | pipeline/aws_chiles02/apps_uvsub.py:66-164 | a vis_ input name never equals a uvsub_ output name |
| PyArith.FloorDiv | pipeline/aws_chiles02/apps_uvsub.py:238 | Python 2's // on ints: the quotient rounded toward minus infinity, for either sign of the divisor |
| Uvsub.SpectralWindowRange | pipeline/aws_chiles02/apps_uvsub.py:238 | the window is w exactly when min + max lies in [1892 + 64w, 1956 + 64w), with flooring division |
| Uvsub.SpectralWindowBelowBase | pipeline/aws_chiles02/apps_uvsub.py:238 | the pair 940/944 is in window -1 |
| Uvsub.SpectralWindowMonotonic | pipeline/aws_chiles02/apps_uvsub.py:238 | raising the bounds never lowers the window |
| Uvsub.UvsubCommandShape | pipeline/aws_chiles02/apps_uvsub.py:233-247 | the command starts with uvsub.sh and the pair's vis_ set, and ends with the window's tt1 sky-model term |
| Uvsub.CopyUvsubFromS3Run | pipeline/aws_chiles02/apps_uvsub.py:56-133 | returns 0 iff the vis_ set already exists, or the tar arrived, matches the S3 size, extracts with code 0 and leaves the set; an existing set means no action; an error is sent iff the result is 1; the tar is removed iff the vis_ set was absent, the tar arrived, matched the S3 size and extracted with code 0, and the set exists afterwards (the result is 0 and no set existed beforehand) |
| Uvsub.CopyUvsubToS3Run | pipeline/aws_chiles02/apps_uvsub.py:155-213 | a missing uvsub_ set sends an error and returns 0; otherwise the tar is made first, a failed or missing tar sends an error, the upload runs when a tar file exists and tar's code is returned; with no tar file, sizing it raises OSError |
| FileChunk.FileRead | python/src/helpers/file_chunk_io.py:80 | io.FileIO.read: a run of the file from the position, at most m bytes, exactly m when they fit, the rest of the file for a negative m |
| FileChunk.FileChunkIO.Open | python/src/helpers/file_chunk_io.py:40-54 | a mode not starting with 'r' raises ValueError, and so does one io.FileIO refuses; a missing byte_size means file size minus offset; the chunk opens with tell() 0; a negative offset makes the opening seek fail with IOError |
| FileChunk.FileChunkIO.Seek | python/src/helpers/file_chunk_io.py:56-65 | SEEK_SET gives tell() == k, SEEK_CUR tell() + k, SEEK_END bytes + k; any other whence leaves the position alone; a target before the file's start raises IOError |
| FileChunk.FileChunkIO.Tell | python/src/helpers/file_chunk_io.py:67-71 | offset + tell() is the real file's position, so tell() counts from the chunk's start |
| FileChunk.FileIoReadModes | python/src/helpers/file_chunk_io.py:53 | io.FileIO accepts r, rb, r+, rb+ and r+b and refuses rt, rU, rw and r++ with ValueError |
| FileChunk.FileChunkIO.Read | python/src/helpers/file_chunk_io.py:73-82 | for n ≥ 0, the file read at the position of min(n, bytes − tell()) bytes, with the position moved by what was read; a negative n is readall() |
| FileChunk.FileChunkIO.ReadAll | python/src/helpers/file_chunk_io.py:84-88 | inside the chunk, read(bytes − tell()); past its end, unbounded recursion, modelled as RuntimeError |
| FileChunk.FileChunkIO.ReadInto | python/src/helpers/file_chunk_io.py:90-103 | the data read is written to b[:n] and n is returned, with b[n:] unchanged; data longer than b fails and leaves b as it was |
| FileChunk.ReadStaysInChunk | python/src/helpers/file_chunk_io.py:77-80 | inside the chunk, read(n) returns at most min(n, bytes − tell()) bytes and leaves tell() ≤ bytes |
| FileChunk.ReadAllIsRestOfChunk | python/src/helpers/file_chunk_io.py:84-88 | inside the chunk, readall() returns the rest of the chunk, cut short only by the end of the file |
| FileChunk.ReadPastChunkEndReadsToEof | python/src/helpers/file_chunk_io.py:77-80 | past the chunk's end, read(n) for any n ≥ 0 returns the whole rest of the real file, more than n bytes whenever more than n remain, all of them after the chunk's last byte |
| FileChunk.ReadPastChunkEnd | python/src/helpers/file_chunk_io.py:77-80 | one instance: in a 10-byte file with a 4-byte chunk at offset 0, read(1) at chunk position 6 returns 4 bytes |
| FileChunk.FileReadSplit | python/src/helpers/file_chunk_io.py:80 | two reads in a row return what one larger read would |
| CopyS3.GetBucketName | java/src/org/icrar/awsChiles02/copyS3/AbstractCopyS3.java:24-30 | null exactly when the string does not start with "s3://"; a returned bucket holds no '/' |
| CopyS3.GetKeyName | java/src/org/icrar/awsChiles02/copyS3/AbstractCopyS3.java:62-68 | null exactly when the string does not start with "s3://"; a returned key is a suffix of the input |
| CopyS3.SplitThenJoin | java/src/org/icrar/awsChiles02/copyS3/AbstractCopyS3.java:26-65 | when a '/' follows the scheme, "s3://" + bucket + "/" + key gives back the input |
| CopyS3.JoinThenSplit | java/src/org/icrar/awsChiles02/copyS3/AbstractCopyS3.java:26-65 | a bucket without '/' and any key, even one holding '/', split back into themselves |
| CopyS3.NoSlashAfterScheme | java/src/org/icrar/awsChiles02/copyS3/AbstractCopyS3.java:26-65 | with no '/' after the scheme, getBucketName throws StringIndexOutOfBoundsException and getKeyName returns the whole input |
| Text.IndexOfFrom | java/src/org/icrar/awsChiles02/copyS3/AbstractCopyS3.java:26 | String.indexOf(c, 5): -1 when c does not occur at or after from, else its first index there |
| Text.JoinSplit | pipeline/aws_chiles02/generate_stats_graph.py:74 | joining the fields of key.split('/') gives the key back |
| HexDigest.ByteHex | java/src/org/icrar/awsChiles02/copyS3/GetMD5.java:65 | a byte becomes the two lower-case hex digits of its unsigned value, high digit first |
| HexDigest.ByteHexExamples | java/src/org/icrar/awsChiles02/copyS3/GetMD5.java:65 | -1 renders as "ff" and 10 as "0a" |
| HexDigest.HexOfAt | java/src/org/icrar/awsChiles02/copyS3/GetMD5.java:64-66 | byte i occupies characters 2i and 2i + 1, and every character is a lower-case hex digit |
| HexDigest.DecodeHexOf | java/src/org/icrar/awsChiles02/copyS3/GetMD5.java:65 | decoding the rendering two characters at a time gives back the bytes |
| HexDigest.HexOfInjective | java/src/org/icrar/awsChiles02/copyS3/GetMD5.java:62-68 | different digests never render alike |
| HexDigest.OnlyRegularFilesGetChecksums | java/src/org/icrar/awsChiles02/copyS3/GetMD5.java:45-52 | every path main creates or changes is '<arg>.md5' for an argument naming a regular file, and holds that file's checksum |
| HexDigest.FailureStops | java/src/org/icrar/awsChiles02/copyS3/GetMD5.java:45-53 | once Files.write has thrown, the later arguments change no file |
| HexDigest.FailsExactly | java/src/org/icrar/awsChiles02/copyS3/GetMD5.java:45-53 | main throws exactly when, for some argument naming a regular file while main still runs, '<name>.md5' names something other than a regular file |
| JavaIo.FileSystem.Write | java/src/org/icrar/awsChiles02/copyS3/GetMD5.java:51 | Files.write replaces or creates a regular file, and throws IOException, changing nothing, when the path names something else |
| JavaIo.FileInputStream.Read | java/src/org/icrar/awsChiles02/copyToS3/getMD5.java:115 | fills b from its start with the next bytes of the file and returns how many, or -1 at the end of the file |
| JavaIo.FileChannel.Read | java/src/org/icrar/awsChiles02/copyS3/GetMD5.java:83 | fills the buffer from its position with the next bytes of the file, moving both positions; -1 at the end of the file |
| JavaIo.MessageDigest.Update | java/src/org/icrar/awsChiles02/copyS3/GetMD5.java:84 | the digest has been fed b[off..off + len] after what it had |
| JavaIo.MessageDigest.Digest | java/src/org/icrar/awsChiles02/copyS3/GetMD5.java:89 | returns the hash of everything fed, and starts over |
| GetMd5.DigestDecimalToHex | java/src/org/icrar/awsChiles02/copyS3/GetMD5.java:62-68 | the bytes rendered two hex digits each, in order; its length is 2 × bytes.length |
| GetMd5.GetFileChecksum | java/src/org/icrar/awsChiles02/copyS3/GetMD5.java:77-94 | every byte of the file is fed exactly once, in order, so the result is the hex checksum of the whole content |
| GetMd5.ChecksumArguments | java/src/org/icrar/awsChiles02/copyS3/GetMD5.java:44-54 | the files become WriteChecksums of the arguments: '<name>.md5' is written with the checksum for each argument naming a regular file, other arguments are skipped, and main throws IOException, leaving later arguments unprocessed, exactly when WriteChecksums fails |
| GetMd5ToS3.GetFileChecksum02 | java/src/org/icrar/awsChiles02/copyToS3/getMD5.java:74-97 | through the channel, clearing the buffer after each chunk, the result is the hex checksum of the whole content |
| GetMd5ToS3.GetFileChecksum01 | java/src/org/icrar/awsChiles02/copyToS3/getMD5.java:106-134 | straight from the stream, the result is the hex checksum of the whole content, the same as GetFileChecksum02 |
| GetMd5ToS3.ChecksumArguments | java/src/org/icrar/awsChiles02/copyToS3/getMD5.java:45-65 | the files written, and whether main throws IOException, are those WriteChecksums gives, as for the copyS3 GetMD5 |

## Left out

- get_oid and get_uid of aws_chiles02.common are not part of this model. In the two standalone graphs, the k-th get_oid/get_uid call of a build is taken to give the oid CallOid(type, k) and the uid k. Only the distinctness of the calls is relied on.
- BuildGraphCommon.AbstractBuildGraph.GetUuid: uuid4 randomness is modelled as a counter, so the contract states freshness within one builder rather than a random string.
- The dict literals of the standalone graphs are built as records with a role, and `DictOf` renders them as dropdicts. Their keys are checked against the source by their definitions, not by separate lemmas for each key.
- make_groups_of_frequencies, FREQUENCY_GROUPS and get_observation come from aws_chiles02.common, which is not part of this model. They are parameters (a grouping function, the group count, an observation string).
- The clean graph's `ms_set` argument is parsed but never read by build_graph, so it is not modelled.
- Both standalone builders append the barrier to drop_list before adding its inputs, and the shared dict makes the edges visible in the list. The model appends the barrier once it is wired, which gives the same list.
- The first loop of calculate_work_to_do only collects `found_csv`, which is never read. It is left out.
- The boto3 listing of the bucket is the `keys` parameter. `visstat_data_rows`, a name the source never binds, is the `visstatDataRows` parameter. The WorkToDo fields `_connection`, `_work_already_done`, `_bucket` and `_list_frequencies` are never read by the modelled code and are left out.
- StatsGraph.ItemOf: a malformed .tar key is modelled as an IndexError outcome that stops the scan, not as a precondition, because the source raises it to its caller.
- get_nodes_required's dict entries are a record `NodeRequest`, not a dict.
- The MD5 algorithm itself is the function parameter `hash`. The checksums are stated in terms of it.
- Logging (LOG.info, LOG.debug, LOG.error) and timing (System.currentTimeMillis) are left out. They affect no result.
- fis.close() and the closing of file handles are left out.
- The S3 transfers, the tar and Docker commands and the send_error_message calls are observations or actions in Uvsub: environment fields in, an action list out. They are not performed.
- setupAWS and the rest of the Java copy tools' AWS plumbing are left out.
- FileChunk.FileChunkIO.Open: the file's content is given as a sequence, which stands for os.stat and io.FileIO's opening. `closefd` and the extra arguments are left out.
- FileChunk.FileChunkIO.ReadInto: when the data outruns `b`, a bytearray would grow and a fixed buffer would raise. The model takes the fixed-buffer case (an array) and returns ValueError with b unchanged.
- FileChunk.FileChunkIO.ReadAll: Python 2's unbounded recursion past the chunk's end is modelled directly as a RuntimeError outcome.
- JavaIo.FileInputStream.Read and JavaIo.FileChannel.Read always return min(room, bytes left), where a real stream may return fewer. The read loops do not depend on this: their invariants hold for any chunk size.
- A ByteBuffer's limit and mark are left out. The buffer's limit stays at its capacity throughout the programs.
- new_carry_over_data is abstract in the source. Its value is a constructor argument.
- BuildGraphCommon.Tagged: a drop's type, oid, uid, inputs and outputs are record fields, so tags named 'type', 'oid', 'uid', 'inputs' or 'outputs' land among the other keys instead of overwriting them as dict.update would.
- BuildGraphCommon.AbstractBuildGraph.TagAllAppDrops: the same holds for the tags it applies through Tagged.
- BuildGraphCommon.AbstractBuildGraph.CreateApp: keyword arguments named 'type', 'oid', 'uid', 'inputs' or 'outputs' land among the other keys instead of overwriting those entries as dict.update would.
- BuildGraphCommon.AbstractBuildGraph.CreateDockerApp: the same holds for its keyword arguments.
- BuildGraphCommon.AbstractBuildGraph.CopyLogfilesAndShutdown: node_details is a dict whose values are iterated in Python 2's arbitrary order; the model takes a sequence of its entries, which stands for that iteration order.
- The drop factories' oid parameter names their count type, so their defaults are modelled as Dafny default arguments.
