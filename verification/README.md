# A verified model of chur

chur is a Kubernetes admission webhook. It reads annotations on a pod and adds, by JSON Patch,
a tmpfs volume, an init container (`chur-init`) that fetches a secret into it, and a mount for
every app container. An optional gateway (`chur-keeper`) serves secrets over HTTPS. This project
models the webhook, `chur-init`, the keeper's endpoint and their concurrent parts in Dafny 4.11,
and proves what they promise each other.

`dafny verify dfyconfig.toml` checks everything.

## What is modelled

- **The patch and what the API server makes of it.** `Text`, `JsonPatch` and `Pods` give JSON
  documents, JSON Pointer (RFC 6901 section 4, with `~` escapes, decimal indices and `-`) and the
  `add` operation (RFC 6902 section 4.1). `Mutator` holds `MutatePod` and the functions below it:
  methods in the shape of the Go code, each proved equal to a specification function. `Injection`
  states the intended effect directly on the document (`Inject`: the missing volumes, init container
  and mounts appended, every other member and every list order as it was) and proves by induction
  over the operations that the patch has that effect. `Reinvocation` and `Interleaving` apply the
  webhook to its own output and inside runs with other admission plugins. `Coherence` relates the
  parts of one patch.
- **Agreement between admission and chur-init.** `Validate`, `Paths`, `ByteSize`, `ProviderEnv`,
  `WebhookConfig` and `Agreement`: the environment written into the pod is read back, from the
  document, by `chur-init`'s own start-up code with the same validators and size parser. `Urls` is
  net/url, Go 1.26, as far as the keeper's address goes through it: written with escapes, then parsed.
- **The texts and values themselves.** `Languages` describes what each validator accepts by written-out
  alphabets and by how the text is put together; `Written` says, without naming the model's constants, which
  pods are accepted and what then stands in the document: volumes, init container, mounts, group,
  environment. UTF-8 lengths, blanks and sizes have their own descriptions there and in `ByteSize`.
- **Protocols.** `Semaphore`, `Shutdown` and `ReadProtocol` are step relations over any number of
  processes, with inductive invariants, and for the last two termination and absence of deadlock.
- **State changed step by step.** `BoundedRead`, `Exec`, `Delivery`, `Retry`, `WebhookServer` and
  `KeeperServer` are classes and loops; `Delivery` keeps a history of every file-system state, so
  that a crash may fall on any of them. `EndToEnd` joins admission to delivery. `Counters` lets the
  webhook's handlers run side by side, one increment at a time.

Strings are sequences of Unicode code points; Go's `len` counts UTF-8 bytes and is `Text.ByteLen`.
Errors are cases without their texts. A decoder that may fail becomes an optional value:
`Config.decodeEnv` stands for the JSON decoding of the provider-env annotation. Clocks, jitter,
chunk sizes, cancellation, crashes and backend answers are arbitrary. Which certificate files load, and
the IPv6 grammar of net/netip, are parameters (`Agreement.Machine`).

A pod document (`Pods.IsPodDocument`) is what the API server encodes from a pod: `spec` and the app
containers are objects, and the members the webhook extends are absent, null or of their own kind.
`Injection.NoSpecNoPatch` shows that without a `spec` object no patch applies.

## Where the code does not do what is claimed for it

The model follows the code. The lemmas named give the exact condition, or a failing input, or both.

- For provider `keeper` with a client-cert secret and a pod without volumes, two operations both
  create `/spec/volumes` and the second replaces the first, so `chur-secrets` is lost while every
  container mounts it. THREAT_MODEL.md:93-97 claims idempotence without this exception.
  `Injection.PatchMeansInject`, `Reinvocation.Idempotent` and `Coherence.MountsResolveIff` hold exactly
  outside it; `Coherence.ClashLosesSecrets` is an accepted pod that fails; `Reinvocation.TwoApplicationsSettle`
  shows that a second application repairs it.
- THREAT_MODEL.md:67-69 says that the secret goes to an in-memory emptyDir and not to a hostPath volume. A
  volume named `chur-secrets` that the pod brings is taken for the webhook's own, whatever its kind:
  the claim holds exactly for pods that bring no other, outside the clash (`Written.SecretsInMemoryIff`,
  `Coherence.OwnVolumeStays`).
- Kubernetes refuses a container that mounts one path twice. The patch makes one exactly if an app
  container has another volume at the mount path, or the mount path is also the local base path or
  the client-cert directory (`Coherence.PathsStayDistinctIff`).
- A bounded read with the largest int64 as its limit computes a negative bound and returns an empty
  secret without an error (`BoundedRead.ReadBounded`, `BoundedRead.LargestLimitLosesContent`,
  `Exec.GetSecret`).
- Admission accepts a keeper pod that the keeper client in `chur-init` then refuses. Besides the files it
  loads, the client starts exactly if skip-verify and a server CA do not meet, the service's URL parses
  and the client size limit parses (`Agreement.KeeperAcceptsIff`); none of the three is checked at start-up or
  admission. The URL of a service without `:` parses exactly if the port is digits and its names hold no
  character a host may not hold (`Agreement.ServiceUrlParsesIff`). `Agreement.SkipVerifyWithServerCA`
  and `Agreement.PortIsNotChecked` are failing inputs. The comment at cmd/webhook/main.go:341-343 holds
  for CHUR_MAX_SECRET_SIZE alone.
- An empty write to a full `limitedWriter` appends the truncation marker though nothing was cut
  (`Exec.EmptyWriteMarks`). Only another caller could make one: the copying in os/exec passes no empty slice on.
- Keeper refs made only of `.` and empty names are accepted; the target is then the mount itself and the
  temporary file lies beside the mount (`Validate.StrictlyBelow`, `Validate.TempFileInMountIff`;
  `Validate.DotRefExample` is the ref `.` at the default mount).
- Without a configured certificate path the client-cert mount is one directory above the default one
  (`Coherence.DefaultCertMount`). The key's path plays no part in the mount: it is inside exactly if it
  names a file in the certificate's directory (`Coherence.KeyUnderMountIff`).
- The concurrency gauge may exceed the capacity (`Semaphore.GaugeMayExceedCapacity`).
- `chur-init` gives both its retry loops one 30 second deadline. With quick calls `backoffFetch` gets
  to its last attempt exactly if `initProvider` needed fewer than five (`Retry.AllFetchesInTimeIff`); after five it
  never does, and a backend that keeps failing is reported as an expired context, its own error lost
  (`Retry.FetchAfterInit`, `Retry.FetchCutOff`).

## Model

| member | source | states |
|---|---|---|
| Injection.PatchApplies | internal/webhook/mutator.go:239-269 | For every pod document, configuration and request the emitted operations all apply in order, and this is the resulting document |
| Injection.PatchMeansInject | internal/webhook/mutator.go:239-356 | That document is the intended one, with only what was missing added and all else unchanged, if and only if the two volume operations do not clash |
| Injection.SpecPatch | internal/webhook/mutator.go:239-269 | The four groups of operations, each meeting what the groups before it left, turn the spec into this one and touch nothing else |
| Injection.OnlyAdds | internal/webhook/mutator.go:239-356 | Clash or not, the patch changes only the four spec members, keeps every list as a prefix of the new one, a container gains at most mounts, and the security context at most an fsGroup it did not have |
| Injection.NoSpecNoPatch | internal/webhook/mutator.go:272-281 | On a document without a spec object the first operation, and so the patch, fails |
| Injection.MountEffect | internal/webhook/mutator.go:463-492 | The mount operations, addressed by printed index, act on exactly the containers they were made for, in every intermediate document |
| Injection.VolumeEffect | internal/webhook/mutator.go:292-356 | The volume operations, chosen on the original pod but applied one after the other, extend the list by the missing volumes, or in a clash leave the keeper volume alone |
| Injection.VolumeOpsCarryMissing | internal/webhook/mutator.go:292-356 | The volume operations carry exactly the required volumes the pod lacks, each once and in order, in a clash too |
| JsonPatch.ParseRender | internal/webhook/mutator.go:472-482 | A pointer written from plain tokens is read back as those tokens |
| JsonPatch.PointerRoundTrip | internal/webhook/mutator.go:472-482 | Any tokens, with slashes and tildes in them, written as a pointer are read back |
| JsonPatch.IndexIff | internal/webhook/mutator.go:472-482 | An array index in a pointer is exactly the decimal print of a number |
| JsonPatch.AddedElement | internal/webhook/mutator.go:472-482 | An element added at a printed index stands there, the ones before it stay and the rest moves up; beyond the end the operation fails (RFC 6902 section 4.1) |
| Mutator.MutatePod | internal/webhook/mutator.go:173-270 | The program computes the specified outcome: skip, refusal with its reason, or these operations |
| Mutator.MountToAppContainers | internal/webhook/mutator.go:463-492 | One operation for each container that lacks the mount, in order, none for the others |
| Mutator.BuildInitEnv | internal/webhook/mutator.go:358-406 | The environment is the managed variables followed by the sorted annotation variables, or the refusal |
| Mutator.DecisionIff | internal/webhook/mutator.go:181-237 | A pod is left alone, and accepted, exactly under these conditions on namespace and annotations |
| Mutator.AuditNames | internal/webhook/mutator.go:196-200 | The audit, and so the label of the injection counter, names the pod and its provider |
| Written.MetadataRead | internal/webhook/mutator.go:173-196 | Name, namespace and annotations are read from the metadata as they were encoded |
| Mutator.AcceptedRequest | internal/webhook/mutator.go:194-237 | An accepted request carries the annotations' values and each passed its validator |
| Written.AcceptedIff | internal/webhook/mutator.go:181-237 | A pod is accepted exactly if its namespace is allowed, its provider is one of the four, its annotations are texts of the described form, and skip-verify ("1" or "true", keeper only) is allowed |
| Written.RefusedBecause | internal/webhook/mutator.go:202-254 | A refusal gives the first check that fails, each described by its text |
| Languages.FlatRefIff | internal/validate/validate.go:13-43 | A flat ref is 1 to 255 characters of a 65-character alphabet, no two dots in a row, neither dash nor dot at an end |
| Languages.SecretKeyIff | internal/validate/validate.go:55-76 | A secret key is at most 253 characters of that alphabet without two dots in a row |
| Languages.KeeperRefIff | internal/validate/validate.go:132-153 | A keeper ref is names of that alphabet joined by slashes, the first not empty, at most 4096 characters |
| Languages.MountPathIff | internal/validate/validate.go:78-101 | A mount path is empty, or a slash and names joined by slashes, at most 4096 characters |
| Languages.BasePathIff | internal/validate/validate.go:103-130 | A base path is such a path with a name other than "" and "." in it |
| Reinvocation.Idempotent | internal/webhook/mutator.go:173-356 | Run on its own output the webhook emits no operation if and only if the first application did not clash |
| Reinvocation.TwoApplicationsSettle | internal/webhook/mutator.go:251-356 | For all pods two applications reach a fixpoint that has every required volume, the init container, an fsGroup and every mount |
| Reinvocation.OpsEmptyIff | internal/webhook/mutator.go:239-356 | The generator is silent exactly on a pod that has everything |
| Reinvocation.AdmitAgain | internal/webhook/mutator.go:181-237 | The patched pod gets the same decision and the same request |
| Reinvocation.SameDecision | internal/webhook/mutator.go:181-237 | Pods that agree on the namespace and the six annotations read get the same verdict, request and environment |
| Interleaving.NeverDuplicated | internal/webhook/mutator.go:251-356 | In every run with other plugins no chur volume, init container or app mount ever occurs twice |
| Interleaving.PluginMayAddVolume | internal/webhook/mutator.go:251-356 | A plugin that appends a volume under any other name makes a step of these runs |
| Interleaving.DecisionStays | internal/webhook/mutator.go:181-237 | In every run each call of the webhook gives the pod the verdict of the first, but for its name and fsGroup, whatever other annotations the plugins write |
| Interleaving.MountedAfterStep | internal/webhook/mutator.go:463-519 | Right after each mutation of a run every app container has the mount and the pod its init container, exactly once |
| Interleaving.AllVolumesAfterSecondMutation | internal/webhook/mutator.go:292-356 | From the second mutation of a run on, each one leaves all required volumes, clash or not |
| Coherence.MountsResolveIff | internal/webhook/mutator.go:292-356 | Every mount chur adds names a volume of the patched pod if and only if there was no clash |
| Coherence.MountsMatchRequired | internal/webhook/mutator.go:408-461 | The init container mounts exactly the required volumes, one mount each, in the volumes' order |
| Coherence.ClashLosesSecrets | internal/webhook/mutator.go:305-348 | With a client-cert secret configured, the operations emitted for this accepted pod apply and leave the keeper volume alone |
| Coherence.ClashLoses | internal/webhook/mutator.go:305-348 | The same for every document and request in a clash |
| Written.SecretsInMemoryIff | internal/webhook/mutator.go:292-313 | In the patched pod the secrets mounts find a volume that is an emptyDir with medium Memory and the configured size limit and nothing else, if and only if the pod brought no other volume of that name and there was no clash |
| Written.VolumesWritten | internal/webhook/mutator.go:292-356 | The patched list is the pod's own and then volumes with these names, sources and modes, present where the provider asks for them |
| Written.InitContainerWritten | internal/webhook/mutator.go:408-461 | The new init container's name, image, pull policy, command, user, group, confinement and mounts in the document, and its environment |
| Written.AppWritten | internal/webhook/mutator.go:226-281 | Each app container has the mount at the annotation's path or /secrets, new ones last and read-only, and the pod its own fsGroup or the configured one |
| Written.CertMountDirIs | internal/webhook/mutator.go:445-458 | The certificate's mount is the configured or default path up to its last slash, or all of a path without one |
| Coherence.OwnVolumeStays | internal/webhook/mutator.go:292-313 | An accepted pod that brings a disk volume of that name keeps the mounts on it |
| Coherence.PathsStayDistinctIff | internal/webhook/mutator.go:432-492 | A pod without doubled mount paths stays so if and only if every app container has the mount or nothing at its path, and a new init container's path is none of its other two |
| Coherence.SameMountPath | internal/webhook/mutator.go:432-490 | Init and app containers have the secrets volume at one path |
| Coherence.GroupsAgree | internal/webhook/mutator.go:234-413 | The patched fsGroup is the request's, and the init container runs in that group unless one is configured |
| Coherence.CertUnderMountIff | internal/webhook/mutator.go:445-458 | A configured certificate path is a file directly under its mount exactly when it has a slash and a name after the last one; the mount has a path exactly when the slash is not just the leading one |
| Coherence.KeyUnderMountIff | internal/webhook/mutator.go:445-458 | Certificate and key are both files directly under the mount exactly when each ends in a name after a slash and both have the same directory |
| Coherence.DefaultCertMount | internal/webhook/mutator.go:446-452 | Without a configured path the mount is the parent of the default directory |
| ProviderEnv.ParseProviderEnv | internal/webhook/mutator.go:143-167 | For every iteration order: success exactly when all entries are acceptable, and then the map's unique sorted list |
| Languages.ExtraIff | internal/webhook/mutator.go:112-164 | An annotation map is accepted exactly if every key is CHUR_ and capitals, digits and underscores, at most 128 in all and none of the twelve names listed, with a value of at most 4096 UTF-8 bytes |
| Languages.ByteLenIsUtf8 | internal/webhook/mutator.go:129-164 | The length the checks count is that of the UTF-8 text |
| Languages.Utf8RoundTrip | internal/webhook/mutator.go:129-164 | Each character is written in as few well-marked bytes as will do, which hold its number |
| ProviderEnv.OrderIndependent | internal/webhook/mutator.go:152-166 | Any two enumerations of one map sort to one list |
| ProviderEnv.SortedUnique | internal/webhook/mutator.go:165 | Two strictly sorted lists with the same entries are equal |
| Text.LessIff | internal/webhook/mutator.go:165 | The order of the names: cut short where they part, or the smaller character there |
| Agreement.EnvNamesDistinct | internal/webhook/mutator.go:112-167 | The generated names are pairwise distinct and no annotation entry has a managed name |
| Written.EnvWritten | internal/webhook/mutator.go:358-367 | The six general variables hold these annotations and settings, the mount path with its default |
| Written.KeeperEnvWritten | internal/webhook/mutator.go:370-398 | The keeper client's six variables hold these settings in a keeper pod and are absent in any other |
| Written.EnvNamesWritten | internal/webhook/mutator.go:112-167 | Every name begins with CHUR_; one that is not among the twelve comes from the annotation with its value, and each entry of the annotation is read back |
| Written.KeeperAddressWritten | internal/webhook/mutator.go:371-377 | For names and port of letters, digits, dashes and dots the address read back is https://, name, dot, namespace, .svc:, port |
| Agreement.InitAcceptsRequest | cmd/init/main.go:31-89 | Under a checked configuration chur-init reads back the annotations' provider, ref and mount path, all its checks pass, its limit fits the volume, and the local provider accepts its environment |
| Agreement.InitAcceptsDocument | cmd/init/main.go:31-89 | The same from the environment found in the patched document's new init container |
| Written.SettingsRead | cmd/init/main.go:31-89 | From any environment chur-init reads these settings with these defaults, or stops for the first of these reasons, each described by its text |
| Written.LocalStartsIff | internal/providers/local/local.go:42-60 | The local provider starts exactly with a base path of that form and a size text, or none |
| Agreement.KeeperSettingsReadBack | internal/webhook/mutator.go:370-398 | The keeper client reads back the configured paths, CA, limit and service URL, or the default URL, and the annotation's skip-verify |
| Agreement.KeeperAcceptsIff | internal/providers/keeper/keeper.go:36-142 | The keeper client starts from this environment if and only if skip-verify and a server CA do not meet, the configured files load, the service's URL parses and the client limit parses |
| Agreement.ServiceUrlParsesIff | internal/providers/keeper/keeper.go:63-66 | The URL written for a service without a colon parses exactly if the port is digits and neither name holds an opening bracket, a blank, a control character, a slash, question mark, hash, at sign, backslash, caret, backquote, brace or bar |
| Urls.BracketedHostParsesIff | internal/webhook/mutator.go:371-377 | With a port without `]`, a name with a colon is written in brackets and parses exactly if it is an address literal and the port is digits |
| Urls.BracketInPortIff | internal/webhook/mutator.go:371-377 | With a port that holds `]`, the text before its last one is read as part of the address, and the URL parses exactly if that is an address literal and a port or nothing follows |
| Urls.WritesHostOnly | internal/webhook/mutator.go:371-377 | Whatever the configured names hold, the URL written has no path, query, fragment, user or control character |
| Agreement.PortIsNotChecked | cmd/webhook/main.go:137-139 | A pod that admission accepts and whose provider can never start, since the service port is no number |
| Agreement.SkipVerifyWithServerCA | internal/providers/keeper/keeper.go:36-39 | A pod that admission accepts and whose provider can never start |
| EndToEnd.DeliveredBelowMountAndFits | cmd/init/main.go:71-111 | At every point of every crashing run the target lies below the pod's mount path and is as before or a whole secret no larger than the volume; a completed run leaves it readable by owner and group alone, without a temporary file |
| Validate.Containment | internal/validate/validate.go:78-153 | The delivered path's components are the mount path's followed by the ref's, for every accepted pair |
| Validate.StrictlyBelow | internal/validate/validate.go:132-153 | The target is strictly below the mount exactly when the ref has a name other than "" and "." |
| Validate.FlatRefIsOneComponent | internal/validate/validate.go:13-43 | A flat ref adds exactly itself as one component |
| Validate.FlatRefsAreInjective | internal/validate/validate.go:13-43 | Different flat refs are delivered to different files |
| Validate.SameFileIff | internal/validate/validate.go:132-153 | Two refs share a file exactly when they have the same components |
| Validate.TempFileInMountIff | cmd/init/main.go:91-98 | The temporary file is inside the mount exactly when the target is strictly below it or the mount is the root |
| Validate.DotRefLeavesMount | cmd/init/main.go:91-98 | The ref "." is accepted, makes a one-component mount itself the target and puts the temporary file beside it |
| Validate.DotRefExample | internal/validate/validate.go:132-153 | The same at the default mount: /secrets and /secrets.tmp |
| Paths.CleanKeepsComponents | cmd/init/main.go:91 | Cleaning a rooted path keeps its components, which are proper names |
| ByteSize.ParseTextIff | internal/bytesize/bytesize.go:12-43 | Parse returns v exactly when the text, between any blanks, denotes v as signed decimal with unit, and v is in 0..9223372036854775807 |
| ByteSize.GuardIsExact | internal/bytesize/bytesize.go:39-42 | The division guard refuses exactly the products that overflow |
| ByteSize.PrintParse | internal/bytesize/bytesize.go:12-43 | Printing a size with any unit and parsing it, blanks around it, is the identity |
| WebhookConfig.StartupSizeIff | cmd/webhook/main.go:109-127 | A size setting passes the start-up check exactly if it is empty or denotes a size within the volume |
| Semaphore.Safety | internal/webhook/server.go:64-76 | In every interleaving the holders are the channel's length, at most the capacity, and the gauge and timeout counter count what they should |
| Semaphore.GaugeAccount | internal/keeper/server.go:159-169 | The gauge is the channel's length less those not yet counted plus those still counted; a release never blocks |
| Semaphore.QuiescentIsZero | internal/keeper/server.go:159-169 | With nobody inside, channel and gauge are back at zero |
| Semaphore.NoDeadlock | internal/webhook/server.go:64-76 | While some request is unfinished, some request can move without timing out |
| Semaphore.WaitingMay | internal/webhook/server.go:64-76 | Requests may arrive and give up at any time, and one gets in exactly where there is room |
| Semaphore.GaugeMayExceedCapacity | internal/webhook/server.go:64-76 | A run in which the gauge exceeds the capacity |
| Shutdown.SendNeverBlocks | internal/keeper/server.go:70-88 | errCh receives at most one message and the send under the mutex finds it empty |
| Shutdown.ReturnsFirstReport | internal/keeper/server.go:120-144 | The result is the first error reported in the whole run, also after shutdown began, else Shutdown's own; all goroutines have ended |
| Shutdown.WebhookExitsNonZeroIff | cmd/webhook/main.go:266-331 | The webhook's exit code is 1 exactly when some server reported an error |
| Shutdown.RunsAreBounded | internal/keeper/server.go:89-144 | Every run is bounded by the number of servers |
| Shutdown.StuckMeansReturned | internal/keeper/server.go:120-144 | After a signal or a lost server, a run that cannot go on has returned |
| Shutdown.AnythingMayHappen | internal/keeper/server.go:89-120 | A server may fail with any error at any time, and the signal may come at any time |
| ReadProtocol.ReturnsCleanly | internal/readutil/read.go:14-40 | On return the reader was closed exactly once, the goroutine has sent and gone, the channel is empty, and the outcome is the read's result or a real cancellation |
| ReadProtocol.SendNeverBlocks | internal/readutil/read.go:19-28 | The goroutine's send never blocks and the reader is never closed twice |
| ReadProtocol.Terminates | internal/readutil/read.go:19-39 | Every run is short, and one that cannot go on has returned |
| ReadProtocol.AnythingMayHappen | internal/readutil/read.go:19-39 | The context may end at any time, and the read with any result |
| BoundedRead.ReadAllLimited | internal/readutil/read.go:21 | Any chunking and any buffer growth give the prefix of the content within the limit, and the read error exactly when it was reached |
| BoundedRead.ReadBounded | internal/readutil/read.go:20-38 | The content comes out exactly when it fits and was read without error, for every limit but the largest int64, which reads nothing; at most one byte more than the limit is consumed |
| BoundedRead.Add64Wraps | internal/readutil/read.go:21 | The addition of the limit is that of int64: the sum but for a multiple of 2^64, and within range |
| BoundedRead.LargestLimitLosesContent | internal/readutil/read.go:21-38 | With the largest limit a non-empty secret comes out empty |
| Exec.BufferIs | internal/keeper/exec/exec.go:17-45 | The buffer's exact contents after any sequence of writes |
| Exec.ChunkingDoesNotMatter | internal/keeper/exec/exec.go:23-41 | With non-empty writes the buffer depends on the bytes alone and is at most the limit plus the marker |
| Exec.EmptyWriteMarks | internal/keeper/exec/exec.go:24-31 | An empty write to a full buffer adds the marker |
| Exec.LimitedWriter.Write | internal/keeper/exec/exec.go:23-41 | Reports the whole length and leaves the specified buffer and flag |
| Exec.MarkerText | internal/keeper/exec/exec.go:28-36 | The marker's bytes, as text |
| Exec.WriteAll | internal/keeper/exec/exec.go:17-45 | Any sequence of writes to a fresh writer ends in the specified buffer and flag |
| Exec.GetSecret | internal/keeper/exec/exec.go:92-119 | The output comes out exactly when the process succeeded and its whole stdout fits |
| Delivery.NeverPartial | cmd/init/main.go:97-111 | At every step, over any number of crashed and restarted runs, the target is untouched or a whole accepted secret |
| Delivery.CompletedRun | cmd/init/main.go:97-113 | A completed run leaves exactly its secret with mode 0640 and no temporary file |
| Delivery.OtherFilesUntouched | cmd/init/main.go:97-111 | No other file is changed |
| Delivery.AnythingMayHappen | cmd/init/main.go:71-111 | A crash may fall on every state, and a start may deliver any secret within the limit |
| Delivery.Deliver | cmd/init/main.go:80-113 | Every recorded state is a step of the machine; success means the whole secret with mode 0640 within the limit; an oversized secret changes nothing |
| Retry.Loop | cmd/init/main.go:117-163 | At most the given number of calls; stops at the first success, at the end of the context, or with the last error |
| Retry.FirstSuccessWins | cmd/init/main.go:117-163 | The first success is returned after exactly that many calls, and the waits lie within the exponential bounds |
| Retry.SleepBounds | cmd/init/main.go:119-127 | The total wait before call k, for every k |
| Retry.SleptExactly | cmd/init/main.go:119-127 | The waits before call k are (2^k - 1) seconds and every jitter once |
| Retry.LastCallInTimeIff | cmd/init/main.go:50-69 | Under the shared deadline the second loop may make its last call exactly if the time since the first one's start is still below it |
| Retry.AllFetchesInTimeIff | cmd/init/main.go:50-69 | After five calls of initProvider no fetch loop gets to its last call; with calls below 4507 ms in all it does exactly if there were fewer than five |
| Retry.FetchAfterInit | cmd/init/main.go:50-69 | What the fetch returns after n calls of initProvider: after five never the backend's last error; with quick calls that all fail, that error exactly if n is below five |
| Retry.FetchCutOff | cmd/init/main.go:50-69 | A run in which that happens, its last fetch past the deadline and not just at it |
| WebhookServer.BookedBalances | internal/webhook/server.go:97-280 | Each review keeps every conservation equation between the counters |
| Counters.PlanIsBooked | internal/webhook/server.go:97-280 | The increments of a review, one by one in the program's order, add up to what the server's method books |
| Counters.SequenceBalances | internal/webhook/server.go:64-280 | After any sequence of requests to a new server, timeouts among them, every conservation equation holds |
| Counters.AlwaysAccounted | internal/webhook/server.go:64-280 | In every interleaving of any number of handlers each equation is off by exactly the number of handlers between its two increments |
| Counters.QuietBalances | internal/webhook/server.go:64-280 | With every handler finished the equations hold |
| Counters.AnyMayStep | internal/webhook/server.go:64-280 | Any unfinished handler may make the next increment |
| WebhookServer.PatchOnlyWhenInjected | internal/webhook/server.go:97-256 | A patch goes out exactly for an accepted pod that is no dry run and encodes; it is then the pod's operations; only encoding fails with 500 |
| WebhookServer.CodesByCause | internal/webhook/server.go:97-260 | Only a core/v1 Pod is judged; 400 is for a review that is not one or a refused pod, 500 for a patch that does not encode |
| WebhookServer.AnswersItsReview | internal/webhook/server.go:107-117 | Every answer to a request carries its uid |
| WebhookServer.Server.Mutate | internal/webhook/server.go:97-256 | Answer and counters of each case |
| WebhookServer.Server.MutateWithMetrics | internal/webhook/server.go:267-280 | Each review is counted once, under its own answer, and the books still balance |
| WebhookServer.Server.ServeHTTP | internal/webhook/server.go:55-95 | Status, answer and counters of each request, timeouts included |
| KeeperServer.Handler.HandleGetSecret | internal/keeper/server.go:146-239 | A secret goes out with 200 exactly to a request entitled to it, and each request past the semaphore is counted once, as ok exactly with 200 |

## Left out

- TLS configuration, certificates and CA pools; HTTP transport; JSON text encoding and decoding; Kubernetes deserialization.
- The k8s, env, local and filesystem providers and the HTTP backends: the keeper handler and the retry loops take any backend instead; the bounded read they share is modelled once.
- Parsing of URLs with a path, query, fragment or user, which the webhook does not write; the grammar of IPv6 addresses.
- Process spawning and killing, signals and real timers: exit status, byte streams and cancellation are arbitrary.
- The provider registry, health endpoints, audit logs and duration histograms.
- Nil pods and nil configurations, which `MutatePod` and `NewServer` replace by no mutation and by defaults.
- `resource.Quantity`: the volume limit is a number of bytes, and the patch carries it as one.
- Who owns the delivered file: its group is the one chur-init runs in, or the volume's by the kubelet.
- Kubernetes' expansion of `$(VAR)` in environment values. The values chur validates contain no `$`; nothing validates the keeper settings.
- Agreement.KeeperAcceptsIff: speaks of keeper settings without `$(`, which the kubelet passes on as they are.
- Agreement.KeeperSettingsReadBack: likewise, for keeper settings without `$(`.
- Panics inside a handler: the deferred release is a step every holder takes.
- The order in which servers are shut down one after the other: it is one step, since each server is free to report before, during or after it.
- Parsing of the remaining webhook variables in `run` (namespaces, user and group ids, image), which only fill configuration fields.
- Helm charts, container images, scripts and Prometheus rules.
- ReadProtocol.Terminates: takes it that a read ends, since a reader that ignores Close could block for ever.
- Shutdown.StuckMeansReturned: takes it that a server returns after Shutdown, as net/http promises.
