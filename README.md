# mycedrive-k8s in Dafny

This project models the core of mycedrive-k8s, a container-migration system for Kubernetes, and
proves properties of the model.

- **The controller** (`go-server`):
  - keeps a registry of pods that agents register with;
  - on a migration request, moves a node label from the origin node to the destination node,
    scales the deployment up and deletes the old pod.
- **The agent** (`go-agent`):
  - registers its container with the controller;
  - then, depending on the reply, restores a migrated container, initialises a fresh overlay
    stack, or stacks new overlay layers and ships each one.
- **The vendored overlay2 graph driver**: random link identifiers, option parsing, lower-layer
  chains and layer metadata.

Each core source file has its own module:

- `Manager` models `go-server/api/manager.go`: `Registry`, a class holding the global `pods` slice and the global `clientset`; `Migrate`, a method against a `Kub.Cluster` oracle; the trace functions that specify it.
- `Kub` models `go-server/kub/kub.go`: `Cluster`, a class whose fixed fields say what each request returns and whose `calls` log records the requests; `Node`, a class holding the in-memory label and annotation maps.
- `Layers` models `go-agent/overlay/layers.go`: `Layer`, a datatype (the Go methods have value receivers); methods returning the commands they hand to `utils.Run`.
- `Agent` models `go-agent/main.go`: `Start` and `Dispatch`, methods producing the sequence of actions the program performs.
- `RandomId` models `go-agent/overlay/lib/randomid.go`: `GenerateId`, a retry loop that fills an `array` in place; `RetryOnError`, a recursive function.
- `Overlay2` models `go-agent/overlay/lib/overlay.go`: `ParseOptions` and `GetLower`, loop and append methods; the rest are functions.

The Go libraries the core relies on are modelled in helper modules:

- `GoStrings`:
  - `strings`: `Fields`, `Split`, `Join`, `Index`, `TrimSpace`, `ToLower`;
  - `strconv`: `Itoa`, `ParseBool`;
  - UTF-8 byte widths.
- `GoPath`: `path.Clean` and `path.Join`.
- `Base32`: `base32.StdEncoding`, the padded encoding of section 6 of RFC 4648.
- `Wrappers`: the `Option` and `Result` datatypes.

External effects are inputs:

- The Kubernetes clientset is a `Cluster` value fixed in advance.
- `filepath.Glob` is a `GlobResult`. In the agent, `globAt(k)` is the result the k-th layer
  operation sees.
- The TCP connection is a `Network` value, and the decoded reply is a parameter.
- The random source is a function from (attempt, bytes wanted) to what `io.ReadFull` returns.
- `time.Sleep` is recorded, not performed.
- What overlay2 reads from disk (the parent's link and lower files, `os.Stat`, `getLowerDirs`) is
  passed in.

The model states these facts about the source:

- **`MigratePod` never reaches its lookup.** It lists the pods through the package-level
  `clientset`, which only `migrate` assigns, and `migrate` runs only after the lookup. On a
  server as started that variable is nil, so every request dereferences nil and gin's recovery
  answers 500 (`Manager.FreshServerRecovers`). When `expK8sClient` fails, the listing through
  the nil `inter` panics the same way.
- **The route has no parameters.** `go-server/main.go` registers `"/migrate"` without path
  parameters, so `c.Param` returns "" for the deployment, the origin and the destination
  (`Manager.MigrateRouteParametersEmpty`).
- **`migrate` would panic as called.** Past the listing, `MigratePod` calls `migrate` with the
  label `"mig-ready"`, which has no `':'`. The format check logs an error; the missing second
  piece is then indexed and panics, unless writing the origin label into a nil map panics first.
  No scale or delete request is ever sent (`Manager.MigrateAsCalledPanics`).
- **`AddNodeLabels` never reaches the cluster.** It changes only the node object in memory and
  sends no request.
- **The helpers' results are inverted.** `ScaleUp`, `ScaleDown` and `DeletePod` return true
  exactly when the client reported an error, so `migrate` logs "executed" on failure
  (`Manager.ScaleUpLogInverted`).
- **The agent loops once per character.** It runs its layer loop once per code point of its
  count argument, not the number of times the argument says (`Agent.CountIsNotParsed`).
- **Both `Message` types have only unexported fields.**
  - The agent's JSON decode leaves its outgoing record in place. With that reply it only
    initialises its overlay (`Agent.EchoedReplyOnlyInits`).
  - The controller's `BindJSON` likewise leaves the request's name and address empty. The model
    takes the bound message as an input.
- **Every `CreateLayer` call in the agent's loop builds level 1.** It runs on the agent's
  level-0 `Layer` value, whose fields the value receiver never changes
  (`Agent.LoopBuildsLevelOne`).

## Model

| member | source | states |
|---|---|---|
| `Manager.Registry.constructor` | go-server/api/manager.go:21-42 | the registry starts empty and the package clientset nil |
| `Manager.Lookup` | go-server/api/manager.go:52-58 | the index of the first record with the name, or None exactly when no record has it |
| `Manager.RegisterKnown` | go-server/api/manager.go:52-57 | a known name leaves the records unchanged and answers not new, echoing name and address with the stored migration flag |
| `Manager.RegisterFresh` | go-server/api/manager.go:59-62 | a new name appends exactly one record {name, address, mig false, metaData ""} after the existing ones and answers 201 with it |
| `Manager.RegisterBindFailed` | go-server/api/manager.go:48-50 | a request that fails to bind changes nothing and gets a 400 |
| `Manager.RegisterKeepsUnique` | go-server/api/manager.go:52-61 | registration preserves "at most one record per pod name" |
| `Manager.RegisterTwice` | go-server/api/manager.go:44-63 | registering the same request again appends nothing and answers "not new" |
| `Manager.Registry.RegisterPod` | go-server/api/manager.go:44-63 | the linear search and append produce the records and reply of `Registered` and `RegisterAnswer`; the clientset is untouched |
| `Manager.MarkMigrating` | go-server/api/manager.go:82-85 | the records with the name get mig = true, and every other record is unchanged |
| `Manager.MigrateRouteParametersEmpty` | go-server/main.go:23 | the "/migrate" route gives "" for all three parameters, and a migrate run on them starts by logging "Missing parameters" |
| `Manager.Registry.MigratePod` | go-server/api/manager.go:65-98 | the records are unchanged; a failed `expK8sClient` or a nil package clientset is a nil-pointer panic answered 500, sending nothing and leaving the clientset as it was; otherwise the lookup and migrate of `LookupAndMigrate` on the route's three parameters |
| `Manager.Registry.MigratePodWithClient` | go-server/api/manager.go:65-98 | with the clientset assigned before the listing, a working `expK8sClient` always reaches the lookup: 404 exactly when no record has the name, otherwise the migrate trace and requests |
| `Manager.FreshServerRecovers` | go-server/api/manager.go:75 | on a server as started, after any registrations, a migration request is answered 500 and sends no request |
| `Manager.Registry.LookupAndMigrate` | go-server/api/manager.go:80-98 | the records are unchanged (the flag is set on a copy); 404 "Pod doesn't exist" and no request exactly when no record has the name; otherwise migrate assigns the clientset, and its trace and requests follow, with a 500 if migrate panicked |
| `Manager.Registry.LookupAndMigrateMarked` | go-server/api/manager.go:80-98 | as LookupAndMigrate, but the stored records are marked as migrating |
| `Manager.MigrationNotReported` | go-server/api/manager.go:82-85 | as written, a pod registered and then migrated is still reported as not migrating when it registers again |
| `Manager.MarkThenRegister` | go-server/api/manager.go:52-57 | once the stored record is marked, the next registration reports isMig = true |
| `Manager.ContainsEmpty` | go-server/api/manager.go:151-158 | true exactly when some argument is "", so false for no arguments |
| `Manager.Migrate` | go-server/api/manager.go:100-138 | the steps performed are `MigrateTrace`, and the requests appended to the clientset log are `MigrateRequests` |
| `Manager.MigrateOrder` | go-server/api/manager.go:100-136 | with a label having one ':' and writable nodes, migrate does not panic, and its operations are, in order: two node fetches, origin label blanked, destination label set, scale-up to fetched + 1, pod deletion; the validation logs do not stop it |
| `Manager.OnwardOperations` | go-server/api/manager.go:116-136 | from the origin write onward, the operations are the two label writes, the scale-up and the deletion |
| `Manager.LabelCheckPasses` | go-server/api/manager.go:112 | the format check passes exactly for labels with one ':' |
| `Manager.MigrateAsCalledPanics` | go-server/api/manager.go:94 | with the label "mig-ready", the format error is logged and migrate panics; it never scales, and the only requests are the two node fetches |
| `Manager.ReachesScalingIffNoPanic` | go-server/api/manager.go:117-125 | migrate reaches the scale-up exactly when it does not panic |
| `Manager.MigrateStopsAtOrigin` | go-server/api/manager.go:117-122 | a nil map on the origin node, or a label without a second piece, ends migrate after the origin write, with no scale or delete request |
| `Manager.MigrateStopsAtDestination` | go-server/api/manager.go:121-122 | a nil map on the destination node ends migrate after the destination write |
| `Manager.MigrateCompletes` | go-server/api/manager.go:116-137 | when both writes succeed: the two writes, then ScaleUp and DeletePod with their log lines, and the GetScale, UpdateScale and Delete requests |
| `Manager.ScaleUpLogInverted` | go-server/api/manager.go:125-129 | "Scale up executed" is logged exactly when the update failed |
| `Manager.MigrateRequestsInNamespace` | go-server/kub/kub.go:10 | every namespaced request migrate sends goes to "mig-ready" |
| `Kub.Wrap32` | go-server/kub/kub.go:47 | int32 arithmetic: the result is congruent to the exact sum modulo 2^32, and equal to it within range |
| `Kub.DeletePod` | go-server/kub/kub.go:30-40 | exactly one Delete request in "mig-ready"; true exactly when it failed |
| `Kub.ScaleUp` | go-server/kub/kub.go:42-60 | GetScale then UpdateScale in "mig-ready" with the fetched count + 1 (int32, unguarded); true exactly when the update failed |
| `Kub.ScaleDown` | go-server/kub/kub.go:62-80 | as ScaleUp with the fetched count − 1 |
| `Kub.ScaleDownUndoesScaleUp` | go-server/kub/kub.go:47 | ScaleDown's replica arithmetic inverts ScaleUp's, wrap-around included |
| `Kub.NoReplicaBounds` | go-server/kub/kub.go:67 | scaling down from 0 writes −1, and scaling up from the largest int32 wraps |
| `Kub.FindNode` | go-server/kub/kub.go:90-98 | one GetNode request; the stored node's maps, or nil maps when the node is missing |
| `Kub.AddNodeLabels` | go-server/kub/kub.go:83-88 | the node's maps and the panic flag are those of running the loop over some order that visits every key exactly once; nothing else changes and no request is sent |
| `Kub.WriteAllHas` | go-server/kub/kub.go:84-86 | on a node with both maps, every entry ends up under "mig-ready"+name in the labels and "mig-ready-mig-ready"+name in the annotations |
| `Kub.WriteAllKeepsLabel` | go-server/kub/kub.go:85 | a label key that no entry maps to keeps its presence and value |
| `Kub.WriteAllKeepsAnnotation` | go-server/kub/kub.go:86 | an annotation key that no entry maps to keeps its presence and value |
| `Kub.LabelKeyInjective` | go-server/kub/kub.go:85-86 | distinct names give distinct label keys and distinct annotation keys |
| `Kub.WriteAllOrderIrrelevant` | go-server/kub/kub.go:84-87 | on a node with both maps, any two visiting orders give the same labels and annotations |
| `Kub.WriteAllStaysOpen` | go-server/kub/kub.go:84-87 | a node with both maps never panics |
| `Kub.WriteAllNilMap` | go-server/kub/kub.go:85-86 | with a nil map the loop panics exactly when there is an entry: nil labels stay nil, and with nil annotations only the first entry reaches the labels |
| `Kub.VisitsSingle` | go-server/kub/kub.go:84 | a one-entry map is visited in a single order |
| `Layers.CreateLayer` | go-agent/overlay/layers.go:17-37 | true exactly when the glob succeeds; a failed glob runs nothing; otherwise the commands for level + 1, in order: mkdir, overlay mount, umount of the root, bind of that level's merged directory (the one just mounted) onto the root |
| `Layers.Init` | go-agent/overlay/layers.go:39-59 | true exactly when the glob succeeds; a failed glob runs nothing; otherwise mkdir and overlay mount for level = the number of globbed layers + 1, with no umount and no bind |
| `Layers.InitMkdirFields` | go-agent/overlay/layers.go:54 | the doubled space in Init's mkdir argument string gives the same argument vector |
| `Layers.MountFields` | go-agent/overlay/layers.go:30 | the mount argument string splits into -t overlay overlay -o1, the option's words, and /data/o1 followed by the level |
| `Layers.BindFields` | go-agent/overlay/layers.go:34 | the bind argument string splits into --bind, /data/o1 followed by the level, and the root's words |
| `Layers.Finish` | go-agent/overlay/layers.go:61-65 | true, and no command |
| `Layers.OverlayOptionIsOneWord` | go-agent/overlay/layers.go:30 | with globbed paths free of white space, the mount option reaches mount as one word |
| `Layers.LowerDirsInGlobOrder` | go-agent/overlay/layers.go:30 | the lowerdir value splits back at ':' into the globbed paths in glob order; upperdir and workdir are /data/u and /data/w followed by the level |
| `Layers.CreateLayerRebindsRoot` | go-agent/overlay/layers.go:28-34 | from level k with a one-word root: mkdir of u/w/o1 for level k+1, `umount -l root`, and `mount --bind /data/o1` followed by k+1, then root |
| `Layers.InitOnEmptyDataIsLevelOne` | go-agent/overlay/layers.go:49-54 | with no existing layers, Init creates level 1's directories |
| `Agent.Outgoing` | go-agent/main.go:28-29 | the registration record is new, not migrating, and has name from env "name" and address from env "ip" |
| `Agent.Start` | go-agent/main.go:21-75 | the actions are `StartPlan`: an argument panic; or dial, write, read, each fatal on failure; then the dispatch |
| `Agent.Dispatch` | go-agent/main.go:63-75 | the actions are `DispatchPlan`; the loop keeps num equal to the byte offset of the current code point |
| `Agent.Iterations` | go-agent/main.go:70-73 | two actions per loop iteration |
| `Agent.RegistrationMessage` | go-agent/main.go:28-43 | the message written to the controller is {name, ip, isNew true, isMig false} |
| `Agent.FatalBeforeLayers` | go-agent/main.go:35-57 | a failed dial, write or read (or missing arguments) ends the program before any layer action |
| `Agent.MigratedReceivesThenInits` | go-agent/main.go:63-65 | with isMig: ReceiveData then Init, and never CreateLayer or SendFile |
| `Agent.NewOnlyInits` | go-agent/main.go:66-68 | with isNew and not isMig: Init only |
| `Agent.IterationShape` | go-agent/main.go:70-73 | iteration k runs CreateLayer on the level-0 layer, then SendFile(rootDir, address, byte offset of code point k) |
| `Agent.LoopBuildsLevelOne` | go-agent/main.go:71 | every successful CreateLayer in the loop issues the level-1 plan on the root directory |
| `Agent.AsciiCountLoops` | go-agent/main.go:70-73 | for an ASCII count of length n: n CreateLayer/SendFile pairs, numbered 0 … n−1 |
| `Agent.CountIsNotParsed` | go-agent/main.go:70 | the count "3" gives one iteration and "10" gives two |
| `Agent.LoopNumbersIncrease` | go-agent/main.go:70-72 | the numbers sent are strictly increasing and below the byte length of the count |
| `Agent.RuneStartStep` | go-agent/main.go:70 | each code point advances the range index by its UTF-8 width |
| `Agent.RuneStartsIncrease` | go-agent/main.go:70 | the range indices strictly increase and stay below the string's byte length |
| `Agent.AsciiRuneStart` | go-agent/main.go:70 | for ASCII text the range index of code point k is k |
| `Agent.EchoedReplyOnlyInits` | go-agent/main.go:53 | when decoding leaves the outgoing record as the reply, the agent registers, then only runs Init |
| `RandomId.RetryOnlyOnEperm` | go-agent/overlay/lib/randomid.go:77-90 | retrying is chosen exactly when the error, under any number of PathError wrappers, is EPERM |
| `RandomId.Unwrap` | go-agent/overlay/lib/randomid.go:79-80 | the error under the path-error wrappers is not itself a path error |
| `RandomId.SizeIsCeiling` | go-agent/overlay/lib/randomid.go:42 | for l ≥ 0, (l*5+7)/8 is ⌈5l/8⌉: 5l ≤ 8·size < 5l + 8 |
| `RandomId.GoDiv` | go-agent/overlay/lib/randomid.go:42 | Go's truncating division agrees with Dafny's on non-negative operands |
| `RandomId.BackoffBound` | go-agent/overlay/lib/randomid.go:31-35 | ten attempts sleep at most 10ms × (0+…+9) = 450ms |
| `RandomId.LinearBackoffSum` | go-agent/overlay/lib/randomid.go:51-53 | the sleeps 0, 10, 20, … ms sum to the running total, at most 450ms |
| `RandomId.Backoff` | go-agent/overlay/lib/randomid.go:51-53 | the sleep before attempt k is k × 10ms, and the running total stays the sum 0 + 10 + … of the sleeps so far |
| `RandomId.Place` | go-agent/overlay/lib/randomid.go:55 | the read bytes land right after the `count` bytes already there, which are kept |
| `RandomId.Attempt` | go-agent/overlay/lib/randomid.go:55-59 | one io.ReadFull into u[count:]: a full read completes the buffer; a failed one leaves it short with the partial bytes in place |
| `RandomId.Attempts` | go-agent/overlay/lib/randomid.go:47-69 | the loop makes between 1 and 10 attempts: it goes on exactly while the error is worth retrying and fewer than 9 retries were made |
| `RandomId.AttemptsExactly` | go-agent/overlay/lib/randomid.go:56-61 | n attempts whose first n − 1 are retryable and whose last is the tenth or not retryable are exactly the loop's attempts |
| `RandomId.AttemptsLast` | go-agent/overlay/lib/randomid.go:57 | the loop's last attempt is the tenth or one not worth retrying |
| `RandomId.DeliveredBounded` | go-agent/overlay/lib/randomid.go:55-58 | the bytes the retries collect never exceed the buffer |
| `RandomId.DeliveredFills` | go-agent/overlay/lib/randomid.go:55-68 | a read without an error completes the buffer |
| `RandomId.FirstReadSucceeds` | go-agent/overlay/lib/randomid.go:55-68 | a first read that fills the buffer ends the loop after one attempt, without an error |
| `RandomId.FirstReadFatal` | go-agent/overlay/lib/randomid.go:56-65 | a first error other than EPERM ends the loop after one attempt, with that error |
| `RandomId.EpermExhausts` | go-agent/overlay/lib/randomid.go:56-65 | a source that always fails with EPERM is tried ten times and the tenth error is reported |
| `RandomId.FillRandom` | go-agent/overlay/lib/randomid.go:47-69 | the loop stops after exactly the attempts `StopsAfter` describes, sleeping 0, 10, … ms; the error returned is the last attempt's; success leaves the buffer holding the bytes delivered, in order; a failure is an error not worth retrying, or comes after 9 retries; an empty buffer succeeds |
| `RandomId.GenerateId` | go-agent/overlay/lib/randomid.go:29-74 | the outcome is `IdResult` of the source: a make panic exactly for a negative size, otherwise a read panic exactly when the last attempt fails, reporting the total backoff and that error; one sleep per attempt |
| `RandomId.IdResultMeaning` | go-agent/overlay/lib/randomid.go:29-74 | make panics exactly when l ≤ −3 and s[:l] exactly when −3 < l < 0; a read panic comes after at most 450ms and an error not worth retrying or ten attempts; otherwise exactly l symbols of the alphabet |
| `RandomId.LinkIdSize` | go-agent/overlay/lib/overlay.go:268 | the 26-symbol link identifiers come from 17 random bytes, whose encoding has 28 symbols before padding |
| `Base32.Encode` | go-agent/overlay/lib/randomid.go:71 | the length is a multiple of 8; the first ⌈8n/5⌉ characters are alphabet symbols and the rest, fewer than 8, are '=' |
| `Base32.EncodeF` | go-agent/overlay/lib/randomid.go:71 | "f" encodes to "MY======", the first test vector of section 10 of RFC 4648 |
| `Base32.EncodeFo` | go-agent/overlay/lib/randomid.go:71 | "fo" encodes to "MZXQ====", the second test vector of section 10 of RFC 4648 |
| `Base32.DecodeEncode` | go-agent/overlay/lib/randomid.go:71 | decoding the encoding gives the bytes back |
| `Base32.SymbolPrefix` | go-agent/overlay/lib/randomid.go:73 | when 5l ≤ 8n, the first l characters exist and are symbols, never '=' |
| `Base32.SymbolsAreTheAlphabet` | go-agent/overlay/lib/randomid.go:71 | value v maps to the v-th character of "A…Z2…7", and back |
| `Base32.SymbolCount` | go-agent/overlay/lib/randomid.go:71 | n bytes need ⌈8n/5⌉ five-bit symbols |
| `Base32.PadCount` | go-agent/overlay/lib/randomid.go:71 | the padding brings the text to a multiple of 8 with fewer than 8 '=' |
| `Base32.ValuesOfSymbols` | go-agent/overlay/lib/randomid.go:71 | the symbols read back as their values |
| `Base32.BytesOfSymbols` | go-agent/overlay/lib/randomid.go:71 | the bit groups of the symbols hold the original bytes |
| `Base32.GroupsOfConcat` | go-agent/overlay/lib/randomid.go:71 | cutting concatenated w-bit values into w-bit groups gives the values back |
| `Base32.ConcatOfGroups` | go-agent/overlay/lib/randomid.go:71 | concatenating the w-bit groups of a bit string gives the string back |
| `Overlay2.ParseKeyValueOpt` | go-agent/overlay/lib/overlay.go:147 | an error exactly when the option has no '=' |
| `Overlay2.ParseOption` | go-agent/overlay/lib/overlay.go:147-160 | one option's lookup, lowercasing, switch and ParseBool give `OptionValue` |
| `Overlay2.ParseOptions` | go-agent/overlay/lib/overlay.go:144-163 | the result is the options' effects applied in order from the defaults, stopping at the first error |
| `Overlay2.SettleMeaning` | go-agent/overlay/lib/overlay.go:146-161 | success exactly when every option is accepted; then the last option decides, and no options give the default; otherwise the error is that of the first refused option |
| `Overlay2.ParseOptionsMeaning` | go-agent/overlay/lib/overlay.go:144-163 | the same, stated over the option strings: no options give overrideKernelCheck = false, the last option wins, the first bad option is the error |
| `Overlay2.OptionAccepted` | go-agent/overlay/lib/overlay.go:147-156 | an accepted option has a '=', the option's name (lowercased) before it and a boolean after it |
| `Overlay2.KeyValueParts` | go-agent/overlay/lib/overlay.go:147 | "key=value" splits at its first '=' into the trimmed key and value |
| `Overlay2.OptionOfKeyValue` | go-agent/overlay/lib/overlay.go:151-160 | "key=value" is accepted exactly when the lowercased trimmed key is overlay2.override_kernel_check and the value is a boolean; any other key is refused by its lowercased name |
| `Overlay2.OptionCaseInsensitive` | go-agent/overlay/lib/overlay.go:151-153 | keys equal after trimming and lowercasing have the same effect |
| `Overlay2.UpperCaseName` | go-agent/overlay/lib/overlay.go:151 | the upper-case spelling lowercases to the option's name |
| `Overlay2.GetLower` | go-agent/overlay/lib/overlay.go:303-327 | a missing parent or an unreadable link is an error; otherwise "max depth exceeded" when the chain has more than 128 entries, and the ':'-join of the chain when it has at most 128 |
| `Overlay2.ChainStartsWithLink` | go-agent/overlay/lib/overlay.go:316 | a link that is a single path element is recorded as "l/" + link |
| `Overlay2.ChainReadsBack` | go-agent/overlay/lib/overlay.go:316-326 | splitting the recorded chain at ':' gives "l/" + link followed by the parent's entries in their order |
| `Overlay2.ChainGrowsByOne` | go-agent/overlay/lib/overlay.go:320-323 | a child's chain is one entry longer than its parent's |
| `Overlay2.GetMetadata` | go-agent/overlay/lib/overlay.go:200-221 | an error exactly when the stat or getLowerDirs fails; WorkDir, MergedDir and UpperDir always, as the work, merged and diff directories under the layer directory; LowerDir exactly when the lower list is non-empty, holding its ':'-join |
| `Overlay2.CheckStorageOpt` | go-agent/overlay/lib/overlay.go:240-242 | Create refuses exactly the non-empty storage options |
| `Overlay2.IdBudget` | go-agent/overlay/lib/overlay.go:57-64 | (26 + len("l") + 1) × 128 = 3584 ≤ 4096 − 512 |
| `Overlay2.FullChainLength` | go-agent/overlay/lib/overlay.go:55-64 | a full chain of 128 entries "l/" + 26 symbols is 3711 characters once ':'-joined |
| `GoPath.Clean` | go-agent/overlay/lib/overlay.go:342 | path.Clean never returns "" |
| `GoPath.CleanIdempotent` | go-agent/overlay/lib/overlay.go:342 | cleaning a cleaned path changes nothing |
| `GoPath.ResolveNormal` | go-agent/overlay/lib/overlay.go:342 | lexical processing yields names and "..", all ".." first, none in a rooted path |
| `GoPath.JoinNames` | go-agent/overlay/lib/overlay.go:316 | path.Join of two plain names is name + "/" + name |
| `GoStrings.SplitJoin` | go-agent/overlay/lib/overlay.go:320 | splitting a join gives the parts back when none contains the separator |
| `GoStrings.SplitFree` | go-agent/overlay/lib/overlay.go:320 | no piece of a split contains the separator |
| `GoStrings.SplitCount` | go-server/api/manager.go:112 | a split has one more piece than the separators counted |
| `GoStrings.JoinLength` | go-agent/overlay/lib/overlay.go:326 | joining n parts of width w gives n(w+1) − 1 characters |
| `GoStrings.FieldsSpaceConcat` | go-agent/overlay/layers.go:28 | a single space separates the fields of its two sides |
| `GoStrings.IndexOf` | go-agent/overlay/lib/overlay.go:147 | the first occurrence, or −1 exactly when there is none |
| `GoStrings.ToLower` | go-agent/overlay/lib/overlay.go:151 | each character lowercased, with the length kept |
| `GoStrings.IntToString` | go-agent/overlay/layers.go:28 | %d of an int is a non-empty word without white space |

## Left out

- I/O and concurrency:
  - The TCP connection, `utils.ReceiveData` and `utils.SendFile` (listening, goroutines, the
    done channel, gzip) are recorded only as actions.
- `Agent.Dispatch` and `Agent.Start` assume that `utils.ReceiveData` and `utils.SendFile`
  return. `SendFile` exits through `log.Fatal` when the dial or the opening of the layer file
  fails. `ReceiveData` exits the same way when it cannot listen, and otherwise blocks until a
  connection ends. Neither exit nor the blocking is modelled, so `Agent.AsciiCountLoops` and
  `Agent.MigratedReceivesThenInits` describe a run in which both return.
  - The log output of every `log` and `logs` call is not modelled. Only `migrate`'s own log
    lines are steps of its trace.
  - The gin handlers race on the global slice; they are modelled as sequential operations.
- Serialisation:
  - gob, JSON and gin's binding are not modelled: the bound or decoded message is an input.
  - `Agent.Start`: records the registration message the agent means to send. The bytes written
    are whatever gob makes of a struct without exported fields, and are not modelled.
- `Manager.Registry.MigratePod`: whether `expK8sClient` built a client is a boolean input, and
  the clientset `kubernetes.NewForConfig` makes inside `migrate` is the `made` oracle.
- `Manager.Registry.MigratePod`, `Manager.Registry.MigratePodWithClient` and
  `Manager.Registry.LookupAndMigrate` assume that `rest.InClusterConfig` succeeds and that
  `kubernetes.NewForConfig` yields a working client: `made` is never null. Outside a cluster
  the config is nil and its error is only logged. `NewForConfig` then dereferences the nil config
  and panics before `FindNode`, which the model does not capture.
- `Manager.Registry.MigratePod`: the route's parameters are an input map. On the route
  `go-server/main.go` registers, that map is empty (`Manager.MigrateRoute`).
- `Manager.Registry.MigratePod`: the List requests of `GetPodsInterface` and `GetPods` are not
  recorded in the `Cluster` log, and their pod counts are only logged. The model records the
  panic these listings cause on a nil client.
- `Kub.FindNode`: the Get error is only logged in the source and is not recorded.
- `Layers.CreateLayer` and `Layers.Init`: the outcome of each command is ignored, as in the
  source. `utils.Run` itself (exec) is not part of this model.
- `GoStrings.ToLower`: maps A–Z, KELVIN SIGN and LATIN CAPITAL LETTER I WITH DOT ABOVE to their
  Unicode lower case. It leaves every other character as it is, so it is weaker than
  `unicode.ToLower` outside ASCII.
- `Overlay2.ParseKeyValueOpt`: models docker's `parsers.ParseKeyValueOpt` as split at the first
  '=' and trim both sides. That package is not part of this model.
- `Overlay2.GetMetadata`: `getLowerDirs` (reading the lower file and resolving each link) is an
  input, not modelled.
- overlay2's file-system and system work is not modelled: the kernel checks in `Init`, the
  directories, links and lower file of `Create`, mounting in `Get`/`Put`, diffs, `DiffSize`
  and `Remove`.
- `Changes` is not modelled: it calls itself unconditionally and never returns.
- `RandomId.GenerateId`:
  - requires the random source to keep io.ReadFull's promise (a full buffer without an error,
    a short one with an error);
  - the text of the panic message is reduced to the backoff total and the error;
  - `l*5+7` is computed on unbounded integers, so an overflow of Go's 64-bit int for huge `l`
    is not modelled.
- `Agent.Start`: non-UTF-8 bytes in the command-line arguments are not modelled; a Dafny
  string holds code points.
- `Base32.Decode` is not in the source. It exists only to state that the encoding loses
  nothing.

## Findings

| source | as written | input that shows it | evidently intended | confidence | as-written member | corrected member |
|---|---|---|---|---|---|---|
| go-server/api/manager.go:75 | the pods are listed through the package `clientset`, which only `migrate` assigns, after the lookup | a freshly started server, any registrations, then POST /migrate: the handler panics and answers 500 | the clientset exists before the handler uses it, so the handler reaches its lookup | not executed | `Manager.Registry.MigratePod`, `Manager.FreshServerRecovers` | `Manager.Registry.MigratePodWithClient` |
| go-server/api/manager.go:82-85 | `a.mig` is set on the loop's per-iteration copy, so no stored record is marked | with the handler past its listing: register pod "web", migrate "web", register "web" again; the reply still has isMig = false | the stored record of the pod is marked as migrating, so its agent restores it on the next registration | not executed | `Manager.Registry.LookupAndMigrate`, `Manager.MigrationNotReported` | `Manager.Registry.LookupAndMigrateMarked`, `Manager.MarkThenRegister` |
