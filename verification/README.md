# A verified model of the declarative core

The Keeper SDK turns manifests into changes: it diffs a manifest against live records,
orders the rows into a plan, applies the plan, and promises that the next diff is clean.
Beside that reconcile loop it carries an inter-agent message bus on the custom fields of one
KSM record. These Dafny modules model both and prove what they promise.
`dafny verify dfyconfig.toml` checks everything.

## What is modelled

**The reconcile loop.** `Json`, `Overlay`, `Plans`, `PamDiff` and `MockProvider` model the PAM
diff, plan ordering and the mock provider; `PamConvergence` and `PamTheorems` prove exactly when
apply and re-diff converge, `PamRuns` what whole runs keep. `PamRows` and `StoredRecords` say
what rows and stored records mean, field by field; `KsmRows`, `KsmStored`, `MspRows` and
`SharingRows` do so for the other families. `KeyedDiff` is the
skeleton the KSM and the managed-company diffs share (group by key, classify, report
duplicates); `KsmNormalise`, `KsmDiff`, `KsmDiffTheorems`, `KsmProvider`, `KsmConvergence` and
`MspDiff`, `MspConvergence` instantiate it. `SharingDiff`, `SharingPayloads`, `SharingRounds`,
`SharingConvergence` and `SharingRuns` do the same for record shares and share folders.

**The bus.** `BusRecord` is the label list, `BusFormat` the text format, `KsmBus` the
compare-and-swap and the retrying client, `ChannelRuns` and `ChannelTheorems` the channel
protocol of any number of clients, `BusDelivery` what arrives of what was sent, `AgentBus` the
lease slot and its runs with its rules in `SlotRules`; `BusSteps` ties the method calls to the
steps of the runs. A read of a channel
and the compare-and-swap that follows it are two steps with anything in between; every other
method call is one step.

**Graphs and order.** `Graph` holds a verified Kahn sort in the place of the library's; `PamGraph`,
`KsmGraph` and `EnterpriseGraph` build the graphs and carry the order into the executed plan;
`PamReferences`, `KsmReferences` and `EnterpriseReferences` say what their edges mean.
`Normalize` models the lifting of an export with its search for fresh references, `PresetRefs`
the references that an export already carries, `LiftedObjects` what lifting keeps and adds.

Code that updates objects in place is modelled by classes and loops (`Record`, `KsmBus`,
`BusClient`, `Store`, `KsmAgentBus`, `Provider`, `KsmMockProvider`, `MspMockProvider`, `DiGraph`,
`RefPool` and the diff and graph loops), each proved equal to a function of its inputs and its
old state; the theorems are about those functions. A Python dict whose order its readers see is
the sequence of its values with distinct keys (`OrderedDict`, `MockProvider`); `sorted` is a
stable sort, characterised completely in `Sorting`.

## What is assumed

Host-language conversions are function parameters with stated properties. `stableUid` is
injective. `json.dumps` and the timestamp format are inverted by their readers
(`BusFormat.Faithful`). Folding an e-mail address twice is folding it once (`EmailSound`);
stripping a company name likewise, and `str` is the identity on strings (`MspDiff.Sound`,
`TextIsItself`). Instants are integers, and the bus instances of one run share a clock that
never goes back. Keeper uids are generated from `name:reference`, and names and references may
hold colons; the run theorems ask that the seeds of a run tell its objects apart (`SeedsTell`),
which names without a colon or a single name give, and that a title standing in for a missing
uid_ref is no other object's reference (`TitlesTell`). Sharing rows have a uid_ref
(`sharing_models.py:19-22`), distinct across their two blocks (`sharing_graph.py:18-38`).

## Results that are not what one would expect

- PAM convergence can fail for an accepted manifest. An object without uid_ref is marked with its
  title, so two users with one title and no uid_ref share a keeper uid and one of them is lost
  (`TwinsDiverge`). `PlanConvergesIff`, `RunsConvergeIff` and `FirstRoundConvergesIff` say exactly
  when the loop converges; `TakenUidIsLost` is a create undone by a delete of the same plan.
- Names with colons can make two manifests overwrite each other's records (`NamesMayCollide`, in
  `PamRuns` and in `KsmConvergence`).
- An adopting managed-company diff reports NOOP for a company it already owns even when it has
  drifted, so apply and re-diff with adoption off is not always clean; `MspConvergesIff` gives the
  exact condition.
- A share row that moves to another key under the same uid_ref is created on the keeper uid of its
  old record. If the plan deletes that record the row is lost (`MovedRowIsLost`, `GrantIsLost`); if
  another row matches it, that row loses it (`MovedRowTakesAnothers`); otherwise the loop converges
  although the old record was replaced with deletes off (`MovedRowReplacesInSilence`,
  `GrantIsReplaced`). `SharingConvergesIff` is the exact condition.
- App references may contain colons, so two different KSM shares can have one synthetic uid_ref
  and one keeper uid (`SharesMayCollide`, `KeeperUidsDistinctIff`).
- Lists of strings normalise alike exactly when they are permutations of each other; mixed lists
  do not, because a number and its text share a sort key (`MixedScalarsDisagree`).
- The 20-digit padding of message ids is tight: version 10^20 sorts before the one it follows
  (`PaddingOverflows`). A `ttl_seconds` of 0 reads back as 3600 (`BusFormat.AsRead`).
- A host can depend on its own nested user when some nested user has no uid_ref
  (`HostDependsOnNestedUserIff`).
- A reference already present in an export is not reserved, so an assigned one may clash with it
  (`PresetRefsMayClash`, exactly when: `LiftedRefsDistinctIff`).
- A dry run can write marker text into the stored record, because the payload copy is shallow
  (`DryRunIsPureWhen`).

## Model

| member | source | states |
|---|---|---|
| ChannelTheorems.ChannelIsItsLog | keeper_sdk/secrets/bus.py:386-422 | in every interleaving of any clients' reads and compare-and-swaps the channel holds exactly the posted messages minus the collected ones, in version order, and its version is the number of successful writes |
| ChannelTheorems.LiveIsTheSurvivors | keeper_sdk/secrets/bus.py:516-529 | the live messages are the posts that no later collection found expired, in strictly increasing order of id |
| ChannelTheorems.RefusedMeansBeaten | keeper_sdk/secrets/bus.py:664-686 | a refused compare-and-swap implies that other clients, and only they, wrote since the read |
| ChannelTheorems.GivingUpWritesNothing | keeper_sdk/secrets/bus.py:386-422 | a publish that exhausts its retries leaves the record as it is, has written nothing since it began, and lost each try to a different write |
| ChannelTheorems.ExactlyOnce | keeper_sdk/secrets/bus.py:424-445 | over every run below 10^20 writes, a reader that resumes from its last id receives strictly increasing ids, only messages posted to it, and misses one only if it had expired |
| ChannelTheorems.GcIsInvisible | keeper_sdk/secrets/bus.py:516-529 | a collection at a cutoff changes no poll at or after the cutoff, on any list of stored messages |
| BusDelivery.SentIsDelivered | keeper_sdk/secrets/bus.py:386-422 | after a successful publish, whatever was written in between, the channel ends with a message that reads back with the caller's sender, recipient, subject, payload, trace and time to live (defaults filled in), the channel's name, the stamp and the returned id |
| BusDelivery.ReceivedWasBegun | keeper_sdk/secrets/bus.py:386-445 | over every run, each message a reader receives is the draft some client began to send, meant for that reader or for everybody, stamped in the course of the run |
| BusDelivery.SentArrives | keeper_sdk/secrets/bus.py:386-445 | over every run, a draft whose compare-and-swap succeeded is received by every reader it is meant for that polls later, unless its time to live is over by then |
| BusDelivery.ExpiresAfterTtl | keeper_sdk/secrets/bus.py:340-345 | a message expires exactly its time to live, one hour by default, after its stamp |
| ChannelTheorems.MessageIdsIncrease | keeper_sdk/secrets/bus.py:233-234 | ids of increasing versions below 10^20 increase as strings whatever their suffixes |
| ChannelTheorems.PaddingOverflows | keeper_sdk/secrets/bus.py:233-234 | the bound is tight: the id of version 10^20 sorts before that of its predecessor |
| ChannelTheorems.IdShowsVersion | keeper_sdk/secrets/bus.py:233-234 | an id is the version in decimal, in at least twenty columns with its sign, a dash and the suffix |
| ChannelTheorems.RunKeepsPolling | keeper_sdk/secrets/bus.py:424-445 | every run keeps the invariant that ties what each reader received to the log |
| ChannelTheorems.RunOnlyGrows | keeper_sdk/secrets/bus.py:664-686 | the history of successful writes is append-only |
| ChannelRuns.StepKeepsChannel | keeper_sdk/secrets/bus.py:386-422 | every step of every client, and every write to another label, keeps the channel invariant |
| KsmBus.PublishIsCompareAndSwap | keeper_sdk/secrets/bus.py:664-686 | a write happens exactly when the expected version is the current one, stores the value under the next version, changes nothing otherwise, and never affects another label |
| KsmBus.VersionsOnlyGrow | keeper_sdk/secrets/bus.py:664-686 | through any writes a version never falls, and while it stands still the field is untouched |
| KsmBus.PostAppends | keeper_sdk/secrets/bus.py:386-422 | a swap against an earlier read either appends the message to the channel as it now stands or is a version conflict that changes nothing |
| KsmBus.CallMeaning | keeper_sdk/secrets/bus.py:386-422 | whatever others write in between, a call that gives up wrote nothing and a call that succeeds appended its message under the next version |
| KsmBus.CursorsAreNotChannels | keeper_sdk/secrets/bus.py:224-230 | an acknowledgement cursor never shares a label with a channel |
| KsmBus.LabelsAre | keeper_sdk/secrets/bus.py:218-230 | channels and cursors are kept under their own labels, the default channel under its name |
| KsmBus.KsmBus.Get | keeper_sdk/secrets/bus.py:701-707 | returns the decoded value of the first field with the label |
| KsmBus.KsmBus.Publish | keeper_sdk/secrets/bus.py:664-686 | outcome and new field list are those of the compare-and-swap specification |
| KsmBus.KsmBus.Put | keeper_sdk/secrets/bus.py:688-699 | refuses the empty key, otherwise sets one label |
| KsmBus.KsmBus.Delete | keeper_sdk/secrets/bus.py:709-722 | refuses the empty key, otherwise removes one label |
| KsmBus.BusClient.constructor | keeper_sdk/secrets/bus.py:351-367 | at least one try is allowed |
| KsmBus.BusClient.LoadChannel | keeper_sdk/secrets/bus.py:375-384 | an absent channel is empty at version 0, a malformed one is reported |
| KsmBus.BusClient.Post | keeper_sdk/secrets/bus.py:386-422 | the retry loop does what the recursive specification of a call does, against any interference |
| KsmBus.BusClient.Subscribe | keeper_sdk/secrets/bus.py:424-445 | returns the selected messages sorted by id, or reports a malformed channel |
| KsmBus.BusClient.Selected | keeper_sdk/secrets/bus.py:424-445 | the filtering loop keeps the messages after the given id, addressed to the reader, unexpired |
| KsmBus.BusClient.Gc | keeper_sdk/secrets/bus.py:516-529 | one read and at most one compare-and-swap; nothing is written when nothing expired |
| BusSteps.TryIsOnce | keeper_sdk/secrets/bus.py:386-422 | a read and a compare-and-swap of a client, with other writes between them, do to the record what one round of the retry loop does, and the client tries again exactly when it lost with tries left |
| BusSteps.CallIsSteps | keeper_sdk/secrets/bus.py:386-422 | so a publishing call is a run of its client's steps in the protocol |
| BusSteps.GcIsSteps | keeper_sdk/secrets/bus.py:516-529 | and so is a collection |
| BusRecord.FirstIndex | keeper_sdk/secrets/bus.py:102-106 | the position found is the first of its label |
| BusRecord.Lookup | keeper_sdk/secrets/bus.py:102-106 | finds a field of the label exactly when there is one |
| BusRecord.FieldTextIs | keeper_sdk/secrets/bus.py:109-117 | the text of a label is the first value of the first field that has it |
| BusRecord.SetFieldIsMapUpdate | keeper_sdk/secrets/bus.py:120-128 | writing a label changes that label only |
| BusRecord.RemoveFieldsIsMapRemoval | keeper_sdk/secrets/bus.py:131-141 | removing labels removes exactly those |
| BusRecord.RemoveFieldsLength | keeper_sdk/secrets/bus.py:131-141 | comparing lengths detects a removal exactly |
| BusRecord.Record.Value | keeper_sdk/secrets/bus.py:109-117 | the text read is the first value of the first field with the label, none when there is no field or no value |
| BusRecord.Record.Set | keeper_sdk/secrets/bus.py:120-128 | the in-place edit of the label list equals the update function |
| BusRecord.Record.Remove | keeper_sdk/secrets/bus.py:131-141 | the in-place removal equals the removal function and tells whether anything changed |
| BusFormat.EncodeDecode | keeper_sdk/secrets/bus.py:179-207 | decoding an encoded value gives the value and its version |
| BusFormat.MessageRoundTrip | keeper_sdk/secrets/bus.py:313-337 | a message written and read back is the message with its defaults filled in |
| BusFormat.ReadByName | keeper_sdk/secrets/bus.py:326-337 | which stored field each part of a message is read from, with its default |
| BusFormat.StoredValue | keeper_sdk/secrets/bus.py:179-207 | a value is stored under its schema with moment and version; text written any other way reads as version 0 |
| BusFormat.SourceFormatIsSound | keeper_sdk/secrets/bus.py:179-207 | the bus's own text format meets what the protocol proofs ask of a format |
| AgentBus.ViewOfAcquired | keeper_sdk/secrets/bus.py:566-581 | on the label list, acquiring sets holder and expiry and keeps the payload |
| AgentBus.ViewOfRenewed | keeper_sdk/secrets/bus.py:635-649 | renewing sets the expiry only |
| AgentBus.ViewOfStored | keeper_sdk/secrets/bus.py:597-616 | publishing sets the payload only |
| AgentBus.ViewOfCleared | keeper_sdk/secrets/bus.py:563-564 | clearing empties all three fields |
| AgentBus.OtherLabelsUntouched | keeper_sdk/secrets/bus.py:563-649 | no operation of the slot touches a field with another label |
| SlotRules.RefusedIff | keeper_sdk/secrets/bus.py:566-581 | acquiring is refused exactly while somebody else's lease has a readable expiry that lies ahead |
| SlotRules.HeldIff | keeper_sdk/secrets/bus.py:597-649 | publishing and pinging need a lease of one's own with such an expiry |
| SlotRules.HolderReacquires | keeper_sdk/secrets/bus.py:566-581 | a holder can always acquire again, which renews its lease and keeps the payload |
| SlotRules.ReturnedIff | keeper_sdk/secrets/bus.py:618-633 | a payload is returned exactly when its text is there and reads as an object |
| SlotRules.ClearedIs | keeper_sdk/secrets/bus.py:563-564 | clearing removes the three labels of the slot and no other |
| SlotRules.SlotIsKept | keeper_sdk/secrets/bus.py:34-37 | which label each part of a slot is kept under |
| AgentBus.KsmAgentBus.Acquire | keeper_sdk/secrets/bus.py:566-581 | succeeds exactly when the slot is free, expired or the caller's own; full new state of records and leases |
| AgentBus.KsmAgentBus.Release | keeper_sdk/secrets/bus.py:583-595 | clears the slot exactly when the caller holds it |
| AgentBus.KsmAgentBus.Publish | keeper_sdk/secrets/bus.py:597-616 | stores the payload exactly when the caller holds an unexpired lease, else drops the local lease |
| AgentBus.KsmAgentBus.Consume | keeper_sdk/secrets/bus.py:618-633 | returns the payload and clears the slot, or leaves it alone |
| AgentBus.KsmAgentBus.Ping | keeper_sdk/secrets/bus.py:635-649 | renews a lease that still holds, else forgets it |
| AgentBusRuns.StepRefines | keeper_sdk/secrets/bus.py:563-649 | each step on the label list is the step on the holder, expiry and payload triple |
| AgentBusRuns.RunRefines | keeper_sdk/secrets/bus.py:532-649 | every run on the record is a run on the triple |
| SlotSteps.AcquireIsStep | keeper_sdk/secrets/bus.py:566-581 | a call on an instance changes what the runs see of its slot as the acquire event does, and leaves other slots alone |
| SlotSteps.ReleaseIsStep | keeper_sdk/secrets/bus.py:583-595 | the same of a release |
| SlotSteps.PublishIsStep | keeper_sdk/secrets/bus.py:597-616 | the same of a publish |
| SlotSteps.ConsumeIsStep | keeper_sdk/secrets/bus.py:618-633 | the same of a consume |
| SlotSteps.PingIsStep | keeper_sdk/secrets/bus.py:635-649 | the same of a ping |
| AgentBusRuns.LeaseExclusion | keeper_sdk/secrets/bus.py:566-616 | between successful publishes of two different holders the first released, the slot was consumed, or it was taken over after the recorded expiry |
| AgentBusRuns.RecordLeaseExclusion | keeper_sdk/secrets/bus.py:566-616 | the same of runs on the record itself |
| AgentBusRuns.PingIsHarmless | keeper_sdk/secrets/bus.py:635-649 | a ping never changes holder or payload and never revives an expired or lost lease |
| AgentBusRuns.AcquireGrants | keeper_sdk/secrets/bus.py:566-581 | after an acquire the holder can publish until its expiry and nobody else can; others can acquire exactly from the expiry on |
| AgentBusRuns.ConsumeReturnsPending | keeper_sdk/secrets/bus.py:618-633 | a consume returns the latest payload published since the last clear, and fails exactly when there is none |
| AgentBusRuns.DeliveredAtMostOnce | keeper_sdk/secrets/bus.py:618-633 | two successful consumes return the payloads of two different publishes, in order |
| Overlay.MatchesIffMergeIsIdentity | keeper_sdk/core/diff.py:224-241 | a desired dict matches exactly when deep-merging its non-None part into the live dict changes nothing |
| Overlay.MatchesReflexive | keeper_sdk/core/diff.py:224-241 | a dict matches itself |
| Overlay.MatchesTransitive | keeper_sdk/core/diff.py:224-241 | matching is transitive on all nested dicts |
| Overlay.MergedMatches | keeper_sdk/core/diff.py:224-241 | what a deep merge writes is accepted by the next comparison |
| Overlay.StrippingKeepsTheVerdict | keeper_sdk/core/diff.py:244-263 | dropping unowned option defaults never alters the verdict |
| Overlay.StrippedIs | keeper_sdk/core/diff.py:244-263 | exactly the two options Commander adds are dropped where the manifest does not own them, and the options altogether when nothing else is left |
| Overlay.SettingsVerdictIsMerge | keeper_sdk/core/diff.py:266-290 | the verdict on pam_settings is that merging the owned part into the unstripped live settings would be idle, section by section, and the owned flag agrees |
| PamDiff.RaiseLiveRecordCollisions | keeper_sdk/core/diff.py:828-887 | raises exactly when a marker uid_ref repeats or a repeated title is not fully marked |
| PamDiff.IndexLive | keeper_sdk/core/diff.py:210-221 | the loop builds both indexes, later records winning |
| PamDiff.ClassifyOrphans | keeper_sdk/core/diff.py:781-825 | the loop lists the unmatched managed records of the manifest |
| PamDiff.ClassifyAll | keeper_sdk/core/diff.py:149-164 | the loop classifies each object against its match, collects the matched uids, and stops exactly at an unsupported marker |
| PamDiff.ComputeDiffLoop | keeper_sdk/core/diff.py:123-207 | the whole diff equals its specification, errors included |
| PamRows.UpdatedIffDisagrees | keeper_sdk/core/diff.py:675-779 | for a record with this manager's supported marker the row is an UPDATE exactly when some compared field disagrees, and it holds exactly those fields with both their values; disagreement is inequality but for pam_settings, rotation_settings, managed, rotation_scripts and configuration options, each with a condition of its own |
| PamRows.MachineVerdict | keeper_sdk/core/diff.py:266-290 | pam_settings of machines, databases and directories agree when merging the owned part of each section would be idle and the owned flag agrees |
| PamRows.BrowserVerdict | keeper_sdk/core/diff.py:293-309 | pam_settings of a browser agree when every owned option and connection key is equal |
| PamRows.RotationVerdict | keeper_sdk/core/diff.py:342-361 | rotation settings agree when they are equal, or their rotation, their switch as a word, their schedule and their complexity as text agree |
| PamRows.ScheduleVerdict | keeper_sdk/core/diff.py:325-339 | cron schedules agree by their stripped expression under either name, others by kind and by everything else they say |
| PamRows.FlagVerdict | keeper_sdk/core/diff.py:392-409 | which values of managed count as true |
| PamRows.MatchStandsFor | keeper_sdk/core/diff.py:149-150 | the record that stands for an object is the last with its uid_ref, and the last with its type and title only if none has |
| PamRows.DesiredAreAsked | keeper_sdk/core/diff.py:95-112 | a manifest asks for gateways to create, configurations, resources with their users, and users |
| PamRows.DiffLists | keeper_sdk/core/diff.py:123-207 | a diff lists one row for each object, in order: a create when no record fits, else the judgement on the one that stands for it; then the notes on scripts, and exactly the records of ours that no row keeps |
| PamRows.DiffStopsIff | keeper_sdk/core/diff.py:123-207 | it stops exactly when a record with another marker version, and of no other manager, stands for an object |
| PamRows.DiffCollidesIff | keeper_sdk/core/diff.py:828-887 | it refuses the live records exactly when two share a uid_ref, or share type and title while one of them has none |
| MockProvider.RowIsPointwise | keeper_sdk/providers/mock.py:105-191 | a row changes the record it targets and no other |
| MockProvider.UntargetedStays | keeper_sdk/providers/mock.py:98-211 | a record no row targets survives a whole plan unchanged |
| MockProvider.TargetedChanges | keeper_sdk/providers/mock.py:98-211 | under distinct targets a record undergoes exactly its own row |
| MockProvider.DryRunKeepsRecords | keeper_sdk/providers/mock.py:98-191 | a dry run changes nothing but marker text inside custom_fields |
| MockProvider.DryRunIsPureWhen | keeper_sdk/providers/mock.py:134-169 | a dry-run row leaves the store as it is exactly when it updates no record with its own custom_fields, or rewrites the same marker text |
| MockProvider.Provider.ApplyOne | keeper_sdk/providers/mock.py:105-209 | one iteration of the loop does what the row function says, outcome included |
| MockProvider.Provider.ApplyPlan | keeper_sdk/providers/mock.py:98-211 | the loop over the ordered plan equals the run of its rows, outcomes included |
| StoredRecords.PlanIsStored | keeper_sdk/providers/mock.py:98-211 | under distinct targets, field by field: a created record has what was asked for, an updated one the written fields and its old others, marked or not, with title and type kept; what every marker holds; deleted and missing ones are absent |
| StoredRecords.PayloadIsStored | keeper_sdk/providers/mock.py:732-765 | e-mail addresses of shares are normalised and permission flags stored flat and nested, the flat value winning; everything else is stored as asked, with the marker in the custom fields |
| StoredRecords.PlanIsReported | keeper_sdk/providers/mock.py:98-211 | for real and dry runs each outcome names its row, its keeper uid and its action, and says when an update found no record |
| PamConvergence.RecordAfter | keeper_sdk/providers/mock.py:105-169 | after a round every desired object has exactly the record its row makes |
| PamConvergence.RecordBefore | keeper_sdk/providers/mock.py:105-191 | after a round every record stands for a desired object or was there untouched before |
| PamConvergence.RoundConverges | keeper_sdk/core/diff.py:123-207 | after a round with fresh references and telling titles no collision is raised, each object is settled as NOOP at its own record and no record is an orphan |
| PamConvergence.SettledIsFresh | keeper_sdk/core/diff.py:123-207 | conversely a settled round wrote fresh references, same-seed creates and references named by title-matched rows included, and no created object without uid_ref is hidden by a later one of its type and title |
| PamConvergence.CreatedInOrder | keeper_sdk/providers/mock.py:105-132 | records are stored in the order in which they are created, which decides the title index |
| PamTheorems.TargetsAreDistinct | keeper_sdk/providers/mock.py:105-191 | no two rows of a conflict-free plan act on one keeper uid |
| PamTheorems.PlanConvergesIff | keeper_sdk/core/diff.py:123-207 | given a conflict-free plan that matches no record twice and creates on unused keeper uids: the next diff raises nothing, is all NOOP with each object at its own keeper uid, and those are pairwise distinct, if and only if the written references are new and no created object without uid_ref is followed by another created one of its type and title; covers creates, partial updates, adoptions and deletes |
| PamTheorems.RankedComeFirst | keeper_sdk/core/planner.py:60-75 | an object whose uid_ref is ranked is created before a titled one without uid_ref, so it never hides it |
| PamRuns.OwnershipIsRespected | keeper_sdk/core/diff.py:705-743 | over any rounds with adoption off, an unmarked record or one marked by another manager is never changed or removed |
| PamRuns.OtherManifestsAreKept | keeper_sdk/core/diff.py:781-825 | no record is deleted while its marker names another manifest, and it stays the same record unless a create or update acts on its very keeper uid |
| PamRuns.RunsStayGenerated | keeper_sdk/providers/mock.py:105-117 | in stores grown from empty every record sits at the uid generated for the reference, or the title standing in for it, of an object of the run |
| PamRuns.ColonFreeSeedsTell | keeper_sdk/providers/mock.py:107-107 | plan names without a colon give different (plan name, reference) pairs different seeds |
| PamRuns.OneNameSeedsTell | keeper_sdk/providers/mock.py:107-107 | so does a single plan name, with or without colons |
| PamRuns.NamesMayCollide | keeper_sdk/providers/mock.py:105-132 | otherwise they may share one: the create of one manifest replaces the record another manifest made |
| PamRuns.FreshnessComesFree | keeper_sdk/providers/mock.py:105-117 | in such a store creates land on unused uids, objects without uid_ref included |
| PamRuns.RunsConvergeIff | keeper_sdk/core/diff.py:123-207 | from an empty provider, after any rounds of any manifests, one more conflict-free round with injective matching settles exactly when its creates are told apart by the references and titles they write |
| PamRuns.RunsConverge | keeper_sdk/core/diff.py:123-207 | a manifest whose objects have different references, and titles of their own where a uid_ref is missing, converges whatever the run did before: the plan is clean, and reconciling once more leaves the store unchanged |
| PamTheorems.CleanPlansDoNothing | keeper_sdk/core/planner.py:56-75 | a clean plan executes nothing, dry or not |
| PamRuns.FirstRoundConvergesIff | keeper_sdk/core/diff.py:123-207 | with nothing assumed of matching, conflicts, uid_refs or names: applying a manifest to an empty provider settles exactly when its references, titles standing in for missing ones, are pairwise distinct and each object without uid_ref is created after the others of its type and title |
| PamRuns.EmptyStoreCreates | keeper_sdk/core/diff.py:123-207 | the diff against an empty provider creates every object and does nothing else |
| PamRuns.TakenUidIsLost | keeper_sdk/providers/mock.py:105-191 | an object created on the keeper uid of a record the same plan deletes is gone after the round |
| PamRuns.TwinsDiverge | keeper_sdk/core/diff.py:123-207 | two users with one title and no uid_ref, an accepted manifest: from an empty provider one create replaces the other and the next plan is not clean, in whatever order |
| Plans.OrderedIsPermutation | keeper_sdk/core/planner.py:60-75 | ordering is a permutation of the create, update and delete rows |
| Plans.OrderedShape | keeper_sdk/core/planner.py:60-75 | creates and updates come first, sorted by rank and title, then all deletes by descending rank |
| Plans.RankDecides | keeper_sdk/core/planner.py:60-75 | a row of smaller rank is executed before one of larger rank and before every delete |
| Plans.TitleDecides | keeper_sdk/core/planner.py:60-75 | among creates and updates of one rank the smaller title is executed first |
| Plans.OrderedIsStable | keeper_sdk/core/planner.py:60-75 | and those of one rank and title are executed in the order listed |
| Plans.AllRowsIsPermutation | keeper_sdk/providers/mock.py:850-853 | the KSM and managed-company executors see every row of the plan exactly once |
| Plans.CleanIff | keeper_sdk/core/planner.py:56-58 | a plan is clean exactly when it has nothing to execute and no conflict |
| Sorting.SortIsPermutation | keeper_sdk/core/planner.py:72-74 | sorting neither loses nor invents elements |
| Sorting.SortSorts | keeper_sdk/core/planner.py:72-74 | the result is ordered by key |
| Sorting.SortIsStable | keeper_sdk/core/planner.py:72-74 | equal keys keep their order |
| Sorting.SortsAlikeIffGroupsAgree | keeper_sdk/core/ksm_diff.py:188-196 | two lists sort to the same list exactly when they agree key by key, in order |
| Graph.TopologicalSort | keeper_sdk/core/graph.py:167-178 | succeeds exactly on acyclic graphs and then lists every node once, dependencies first |
| Graph.OrderMeansAcyclic | keeper_sdk/core/graph.py:167-178 | a dependency order refutes every cycle |
| PamGraph.BuildGraphLoop | keeper_sdk/core/graph.py:58-164 | the graph-building loops report duplicates and unknown references exactly as specified and build exactly the specified edges |
| PamReferences.RefsAreReached | keeper_sdk/core/graph.py:41-55 | the references of a value are exactly those that some path of keys and list positions leads to, ending in a scalar reference field or an item of a list reference field |
| PamReferences.GraphIsDependencies | keeper_sdk/core/graph.py:58-164 | with distinct uid_refs an unknown reference is reported exactly when some object depends on what the manifest does not name, and otherwise the edges are exactly the dependencies: named at any depth (a host's own users excepted), kept in a shared folder, or nested |
| PamReferences.OwnersAreNamed | keeper_sdk/core/graph.py:58-75 | which objects have a uid_ref in the graph |
| PamReferences.DuplicatesAreReported | keeper_sdk/core/graph.py:63-75 | a uid_ref given twice is reported |
| PamGraph.EdgesJoinOwners | keeper_sdk/core/graph.py:58-164 | every edge of a built graph joins two objects the manifest names |
| PamGraph.DependencySafe | keeper_sdk/core/planner.py:60-75 | for every edge the dependency's create or update is executed before its dependant's, and before every delete |
| PamGraph.NestedUsersFollowTheirHost | keeper_sdk/core/graph.py:101-164 | a nested user is executed after its host and deletes after both |
| PamGraph.HostDependsOnNestedUserIff | keeper_sdk/core/graph.py:101-164 | a host depends on its own nested user exactly when a nested user without uid_ref names that user, so there is no two-cycle when all have uid_refs |
| EnterpriseGraph.AddRefEdge | keeper_sdk/core/enterprise_graph.py:156-183 | an edge is added exactly when the reference resolves into the expected block |
| EnterpriseGraph.BuildGraphLoop | keeper_sdk/core/enterprise_graph.py:33-130 | the loops compute exactly the specified outcome: duplicate, bad reference, cycle or graph |
| EnterpriseReferences.RefsAreHeld | keeper_sdk/core/enterprise_graph.py:54-129 | the references checked are exactly those some row holds, each with the block its field is for |
| EnterpriseReferences.GraphIsReferences | keeper_sdk/core/enterprise_graph.py:33-130 | with distinct uid_refs a bad reference is reported exactly when a row holds one that names no row of its block, and otherwise the edges are exactly the references |
| EnterpriseReferences.DuplicatesAreReported | keeper_sdk/core/enterprise_graph.py:33-52 | a uid_ref given twice is reported |
| References.PartIs | keeper_sdk/core/enterprise_graph.py:186-203 | a reference has a local part exactly when it is the prefix and a well-formed uid, a final newline aside |
| EnterpriseGraph.EdgeDescends | keeper_sdk/core/enterprise_graph.py:54-129 | every edge descends strictly between blocks or is a node's parent edge |
| EnterpriseGraph.CyclesAreParentCycles | keeper_sdk/core/enterprise_graph.py:206-214 | when all references pass their checks, a cycle is reported exactly when the parent relation of the nodes has one |
| KsmNormalise.NormIdempotent | keeper_sdk/core/ksm_diff.py:188-196 | normalising is idempotent on all nested values |
| KsmNormalise.NormPayloadIdempotent | keeper_sdk/core/ksm_diff.py:182-185 | so is normalising a payload |
| KsmRows.NormIsNormal | keeper_sdk/core/ksm_diff.py:188-196 | normal form keeps scalars, normalises dicts key by key, and lists item by item in sorted order |
| KsmRows.PayloadIsNormal | keeper_sdk/core/ksm_diff.py:182-185 | a compared payload has exactly what is set, but for the keeper uid, in normal form |
| KsmNormalise.ScalarListsAgreeIff | keeper_sdk/core/ksm_diff.py:188-196 | scalar lists normalise alike exactly when they hold the same values text by text in the same order |
| KsmNormalise.StringListsAgreeIff | keeper_sdk/core/ksm_diff.py:188-196 | string lists are identified exactly when they are permutations of each other |
| KsmNormalise.MixedScalarsDisagree | keeper_sdk/core/ksm_diff.py:188-196 | of mixed scalars that fails: 1 and "1" keep their order |
| KeyedDiff.GroupBy | keeper_sdk/core/ksm_diff.py:161-179 | the grouping loop lists first occurrences of keys and each key's rows in order |
| KeyedDiff.Classify | keeper_sdk/core/ksm_diff.py:43-121 | the loops over desired, orphaned and duplicate keys equal the specified rows |
| KeyedDiff.RowsPartition | keeper_sdk/core/ksm_diff.py:43-123 | each key on either side gets exactly one row, of the kind its objects call for, and no other key gets any |
| KeyedDiff.IndexKeepsLast | keeper_sdk/core/ksm_diff.py:150-158 | an index holds each key once, with the last object that has it |
| KsmDiff.FieldDelta | keeper_sdk/core/ksm_diff.py:199-213 | the loop collects exactly the drifted fields of both sides, a removed field as None |
| KsmDiff.MatchedRow | keeper_sdk/core/ksm_diff.py:62-89 | a matched pair is an UPDATE with both sides of the drift exactly when some field drifted, else a NOOP with the whole payloads |
| KsmDiff.ComputeKsmDiff | keeper_sdk/core/ksm_diff.py:31-123 | the sorted rows equal the specified diff |
| KsmRows.MatchedIffDisagree | keeper_sdk/core/ksm_diff.py:62-89 | a matched pair is an UPDATE exactly when the two payloads differ in some field other than uid_ref, and the row holds exactly those fields with the values of either side |
| KsmRows.UnmatchedRows | keeper_sdk/core/ksm_diff.py:43-121 | creates, deletes or skips, and conflicts hold what they are about |
| KsmRows.ObjectIs | keeper_sdk/core/ksm_diff.py:126-134 | which fields make key, reference and title of each kind of object |
| KsmRows.DiffIsOrdered | keeper_sdk/core/ksm_diff.py:246-250 | the diff is ordered by kind, then type, then reference |
| KsmDiffTheorems.KsmRowsPartition | keeper_sdk/core/ksm_diff.py:43-123 | the KSM diff is a partition of the keys into create, update or noop, conflict, and delete or skip rows |
| KsmDiffTheorems.OrderDoesNotMatter | keeper_sdk/core/ksm_diff.py:246-250 | without duplicate live keys and with distinct uid_refs per block the diff is the same for every permutation of the live rows |
| KsmProvider.KsmMockProvider.ApplyOne | keeper_sdk/providers/mock.py:550-681 | one row does to rows and markers what the row function says |
| KsmProvider.KsmMockProvider.ApplyKsmPlan | keeper_sdk/providers/mock.py:550-681 | the loop over all rows equals the run of its rows; a dry run changes nothing |
| KsmStored.CreateStores | keeper_sdk/providers/mock.py:577-601 | a create stores its payload under a generated keeper uid, with a new marker |
| KsmStored.UpdateStores | keeper_sdk/providers/mock.py:602-642 | an update writes its fields over the row it names, keeps the rest, and renews the marker, which keeps its owner and reference; without such a row nothing changes |
| KsmStored.DeleteStores | keeper_sdk/providers/mock.py:644-668 | a delete removes the row it names and its marker, and no other |
| KsmStored.OthersStore | keeper_sdk/providers/mock.py:550-681 | rows of other kinds, and of other families, change nothing |
| KsmStored.RowIsReported | keeper_sdk/providers/mock.py:550-681 | what is reported of a row |
| KsmProvider.KsmMockProvider.Discover | keeper_sdk/providers/mock.py:535-540 | the snapshot lists the stored payloads block by block |
| KsmStored.SnapshotIsOrdered | keeper_sdk/providers/mock.py:535-540 | a snapshot lists stored apps, tokens, shares and outputs, in that order |
| KsmConvergence.MergeSettles | keeper_sdk/core/ksm_diff.py:199-213 | merging the reported fields removes the drift in either direction, removed fields being written as None |
| KsmConvergence.StepIsPointwise | keeper_sdk/providers/mock.py:550-681 | a legal row acts on its own key only and keeps key and payload in agreement |
| KsmConvergence.RoundIsPointwise | keeper_sdk/providers/mock.py:550-681 | a round changes the state key by key as the verdicts say |
| KsmConvergence.RoundConverges | keeper_sdk/core/ksm_diff.py:31-123 | re-diffing the applied manifest gives one NOOP per object, SKIP for the rest when deletes are off, nothing else |
| KsmStored.RoundStores | keeper_sdk/providers/mock.py:550-681 | after a round every object of the manifest is stored as it asks: in normal form equal on every field but uid_ref, removed fields gone or None; other rows stay exactly when deletes are off |
| KsmStored.RunStores | keeper_sdk/providers/mock.py:550-681 | the same after any rounds from an empty provider |
| KsmConvergence.RunsStayGood | keeper_sdk/providers/mock.py:550-681 | every run keeps distinct keys, key and payload agreement, and uids made for their keys |
| KsmConvergence.GoodStatesHaveDistinctUids | keeper_sdk/providers/mock.py:550-681 | such states have distinct keeper uids in each block |
| KsmConvergence.KsmRunsConverge | keeper_sdk/core/ksm_diff.py:31-123 | from an empty provider, after any rounds whose seeds tell their objects apart: keys agree with payloads, keys and keeper uids are distinct, no row is a conflict, re-diffing gives only NOOP and SKIP |
| KsmConvergence.SharesMayCollide | keeper_sdk/core/ksm_diff.py:226-233 | two shares with different keys can have one synthetic uid_ref |
| KsmConvergence.ColonFreeSeedsTell | keeper_sdk/providers/mock.py:550-681 | names and resource names without a colon make seeds differ |
| KsmConvergence.NamesMayCollide | keeper_sdk/providers/mock.py:550-681 | otherwise objects of two manifests may share a seed, and so a keeper uid |
| KsmConvergence.FirstRoundCreates | keeper_sdk/providers/mock.py:550-681 | a first round stores every object of the manifest |
| KsmConvergence.KeeperUidsDistinctIff | keeper_sdk/core/ksm_diff.py:226-233 | after a first round, whatever the plan name, keeper uids are distinct exactly when the manifest's uid_refs are distinct in each block |
| KsmGraph.BuildGraphLoop | keeper_sdk/core/ksm_graph.py:32-78 | the loops compute exactly the specified outcome |
| KsmReferences.GraphIsReferences | keeper_sdk/core/ksm_graph.py:32-78 | with distinct uid_refs of apps and tokens a bad reference is reported exactly when a row has one, and otherwise nodes are rows and shared records, and edges what each row needs |
| KsmReferences.DuplicatesAreReported | keeper_sdk/core/ksm_graph.py:32-52 | a uid_ref given to two apps or tokens is reported |
| KsmGraph.NeverCyclic | keeper_sdk/core/ksm_graph.py:117-128 | the graph is always acyclic: the cycle check never fires |
| KsmGraph.KsmApplyOrder | keeper_sdk/core/ksm_graph.py:81-84 | an order is returned exactly when the references pass, and it is a dependency order without record nodes |
| KsmGraph.TokenRanksAfterApp | keeper_sdk/core/ksm_graph.py:54-57 | a token ranks after its app |
| KsmGraph.SyntheticIsUnranked | keeper_sdk/core/ksm_diff.py:226-233 | a share or config output ranks by the sentinel unless an app or token has its synthetic uid_ref |
| KsmGraph.AppsComeFirst | keeper_sdk/core/planner.py:62-75 | with at most 10,000 ranked nodes every token, share and output is executed after its app, and deletes last |
| KsmGraph.SentinelDecides | keeper_sdk/core/planner.py:62-75 | the bound is the sentinel's: an app ranked below 10,000 precedes its shares and outputs, one ranked above follows them, and at exactly that rank the titles decide |
| MspDiff.SeatsAgreeIff | keeper_sdk/core/msp_diff.py:224-228 | all encodings of unlimited and nothing else collapse to one number, idempotently |
| MspDiff.NormAddonsIdempotent | keeper_sdk/core/msp_diff.py:237-246 | normalised, sorted add-ons stay as they are |
| MspDiff.NormFieldIdempotent | keeper_sdk/core/msp_diff.py:204-246 | every compared column is normalised idempotently |
| MspDiff.NormRowIsCanonical | keeper_sdk/core/msp_diff.py:204-221 | a normalised row is canonical and keeps its name |
| MspDiff.ComputeMspDiff | keeper_sdk/core/msp_diff.py:37-175 | the sorted rows equal the specified diff |
| MspRows.MatchedRowIs | keeper_sdk/core/msp_diff.py:69-144 | a company on both sides: conflict for another manager's; an adopting diff claims one without manager and leaves its own alone; otherwise an UPDATE exactly when plan, seats, file_plan or addons disagree |
| MspRows.UnmatchedRowsAre | keeper_sdk/core/msp_diff.py:52-175 | the other rows hold what they are about |
| MspRows.DuplicateTitle | keeper_sdk/core/msp_diff.py:162-175 | duplicates are reported under the first of their names in folded order |
| MspRows.DiffIsOrdered | keeper_sdk/core/msp_diff.py:37-175 | the diff is ordered by kind, then folded name |
| MspRows.LiveIsNormal | keeper_sdk/core/msp_diff.py:204-246 | the compared form of a company: stripped plan, one number for unlimited seats, add-ons in normal form sorted by name, id and manager kept |
| MspConvergence.MspMockProvider.ApplyOne | keeper_sdk/providers/mock.py:386-483 | one row does to the store what the row function says and reports the outcome of the entry under its key |
| MspConvergence.MspMockProvider.ApplyMspPlan | keeper_sdk/providers/mock.py:367-483 | a plan with another resource type is refused as a whole, otherwise the loop equals the run of its rows, outcomes included |
| MspRows.CompanyIsStored | keeper_sdk/providers/mock.py:386-483 | a created company has what was asked for and a made id; an updated one keeps what is not written, and its id |
| MspRows.NameIs | keeper_sdk/providers/mock.py:838-845 | which name a row is about: the written one, else the one before, else its reference or title |
| MspRows.DiscoveredAre | keeper_sdk/providers/mock.py:213-221 | discovered companies are the stored ones, by folded name |
| MspRows.OutcomeIs | keeper_sdk/providers/mock.py:386-483 | what is reported of a row |
| MspConvergence.DryRunForetells | keeper_sdk/providers/mock.py:367-483 | a dry run of a planned round reports, row by row, what the real run reports |
| MspConvergence.RowsAreVerdicts | keeper_sdk/core/msp_diff.py:37-175 | the diff has one row for each case-insensitive key with a verdict, and the provider accepts them all |
| MspConvergence.RoundIsPointwise | keeper_sdk/providers/mock.py:367-483 | a round changes the store key by key as the verdicts say |
| MspConvergence.MspConvergesIff | keeper_sdk/core/msp_diff.py:37-175 | after a conflict-free round every row of the next diff is NOOP, or SKIP with deletes off, exactly when no owned company hid its drift from an adopting diff and no company was created under continued adoption |
| MspConvergence.MspConverges | keeper_sdk/core/msp_diff.py:37-175 | with adoption off the loop always converges and the next plan is clean |
| SharingDiff.IndexManifest | keeper_sdk/core/sharing_diff.py:767-782 | accepts exactly manifests whose rows have distinct uid_refs and keys |
| SharingDiff.IndexLive | keeper_sdk/core/sharing_diff.py:785-831 | rejects rows without a key; both indexes give the first row |
| SharingDiff.ClassifyDesired | keeper_sdk/core/sharing_diff.py:844-936 | the loop gives each desired row its verdict, collects the matched rows and stops exactly at an unsupported marker found by key |
| SharingDiff.ClassifyOrphans | keeper_sdk/core/sharing_diff.py:937-987 | the loop lists the rows of the unmatched shares |
| SharingDiff.ComputeBlock | keeper_sdk/core/sharing_diff.py:844-1244 | the diff of either block equals its specification, errors included |
| SharingRows.KeyTells | keeper_sdk/core/sharing_diff.py:705-749 | a record share is told by record and member, a folder share by folder, kind and member, and which fields give the member |
| SharingRows.ProjectionIs | keeper_sdk/core/sharing_diff.py:721-734 | what the projection makes of permissions, e-mail addresses and teams |
| SharingRows.DesiredRowIs | keeper_sdk/core/sharing_diff.py:844-936 | a manifest row is judged against the first live share with its key: skipped if not ours, updated with exactly the compared fields that disagree; without one it is created, or in conflict with the record share that has its uid_ref |
| SharingRows.OrphanRowIs | keeper_sdk/core/sharing_diff.py:937-987 | a share no row stands for is deleted exactly when it is ours and deletes are on |
| SharingRows.BlockRaisesIff | keeper_sdk/core/sharing_diff.py:767-831 | the diff of a block raises exactly on missing or repeated keys and uid_refs of manifest rows, on live shares without a key, and on a marker of another version found by key or on a share no row stands for |
| SharingRows.BlockLists | keeper_sdk/core/sharing_diff.py:844-987 | otherwise it lists the rows of the manifest rows and one for each share left over |
| SharingRows.LiveShareIs | keeper_sdk/core/sharing_diff.py:785-831 | what the diff sees of a stored record |
| SharingPayloads.KeyProjected | keeper_sdk/core/sharing_diff.py:721-744 | projecting a payload keeps its key, e-mail case included |
| SharingPayloads.KeyStored | keeper_sdk/providers/mock.py:732-765 | so does everything the provider does before storing, for either block |
| SharingPayloads.KeyUpdated | keeper_sdk/core/sharing_diff.py:737-744 | updating compared fields keeps the key |
| SharingPayloads.ProjectShows | keeper_sdk/core/sharing_diff.py:990-1006 | the projection shows the flat flag, else the nested one |
| SharingPayloads.StoringShows | keeper_sdk/providers/mock.py:755-765 | copying flags between the flat and the nested form changes nothing the diff sees |
| SharingPayloads.UpdateShows | keeper_sdk/core/sharing_diff.py:455-470 | after a partial update the diff sees the written fields and the old others |
| SharingRounds.TargetsAreDistinct | keeper_sdk/providers/mock.py:98-211 | no two executed rows of the two blocks act on one record |
| SharingConvergence.RecordAfter | keeper_sdk/providers/mock.py:105-169 | after a round each manifest row has its record |
| SharingConvergence.RecordBefore | keeper_sdk/providers/mock.py:105-191 | after a round a record stands for a manifest row or stayed |
| SharingConvergence.MatchesAfter | keeper_sdk/core/sharing_diff.py:844-1244 | after a round a manifest row finds its own record under its key |
| SharingConvergence.SparedConverges | keeper_sdk/core/sharing_diff.py:844-1244 | apply a conflict-free plan of both blocks whose creates spare matched and deleted records, and re-diff: nothing is raised and every row is a SKIP |
| SharingRuns.CreatedKeyStays | keeper_sdk/providers/mock.py:105-169 | once a create has fallen on a keeper uid, the record there has the key of a created row |
| SharingRuns.RoundConvergesIff | keeper_sdk/core/sharing_diff.py:844-1244 | for stores with distinct row keys the next diff of a conflict-free round is all SKIP if and only if no record at the keeper uid of an unmatched row is matched by a manifest row or deleted |
| SharingRuns.SharingConvergesIff | keeper_sdk/core/sharing_diff.py:844-1244 | the same said of a manifest: its rows need a uid_ref, and everything else about them is derived |
| SharingRuns.RunsStayApart | keeper_sdk/providers/mock.py:98-211 | rounds of any manifests keep row keys and keeper uids distinct |
| SharingRuns.SharingRunsConvergeIff | keeper_sdk/core/sharing_diff.py:844-1244 | from an empty provider, after any rounds of any manifests under any names, one more conflict-free round converges exactly under that condition; distinct keys are not assumed |
| SharingRuns.RunKeepsMade | keeper_sdk/providers/mock.py:105-169 | runs under one manifest name keep each record at the uid of its marker's uid_ref |
| SharingRuns.SparedIffNoneMoved | keeper_sdk/providers/mock.py:105-117 | in such stores the condition says that no matched or deleted record carries the uid_ref of a manifest row that matches nothing |
| SharingRuns.MovedRowIsLost | keeper_sdk/core/sharing_diff.py:937-987 | a moved row whose old record the plan deletes is gone after the round, and the next diff is not all SKIP |
| SharingRuns.MovedRowTakesAnothers | keeper_sdk/providers/mock.py:105-132 | a row moved onto a record that another row matches takes it away: the key of that row is gone |
| SharingRuns.MovedRowReplacesInSilence | keeper_sdk/core/sharing_diff.py:1224-1242 | otherwise, deletes off for instance, the create replaces the old record and the next diff is all SKIP although a record is gone |
| SharingRuns.GrantIsLost | keeper_sdk/core/sharing_diff.py:1119-1244 | a concrete round of the first kind: a managed grant that moves to another folder, deletes on |
| SharingRuns.GrantIsReplaced | keeper_sdk/core/sharing_diff.py:1224-1242 | the same round with deletes off: converged, no conflict, and the managed old grant is gone |
| Normalize.FreshIsLeast | keeper_sdk/core/normalize.py:205-213 | the search for a reference ends, with the first unused candidate of the series |
| Normalize.RefPool.Assign | keeper_sdk/core/normalize.py:205-213 | the loop returns that candidate and reserves it |
| Normalize.LiftList | keeper_sdk/core/normalize.py:270-312 | the list loops lift each object, nested users included, threading the reserved references |
| Normalize.FromPamImportJson | keeper_sdk/core/normalize.py:190-314 | the whole conversion equals its specification |
| LiftedObjects.LiftIsLifted | keeper_sdk/core/normalize.py:270-312 | a lifted object has every field as it was, a reference made from its name where it has none, a mode for a gateway, and its users lifted |
| LiftedObjects.DocumentIsLifted | keeper_sdk/core/normalize.py:190-314 | each section of the manifest has the objects of its source, each in lifted form; a native configuration is linked to its gateway |
| Normalize.LiftAllAdds | keeper_sdk/core/normalize.py:205-314 | the references assigned to a list are new, distinct and exactly those added to the reserved set |
| Normalize.ReferencesAreDistinct | keeper_sdk/core/normalize.py:190-314 | of a document without references all assigned ones are pairwise distinct, whatever the slugs |
| PresetRefs.HandedDistinct | keeper_sdk/core/normalize.py:205-213 | the references handed out for a sequence of titles are pairwise distinct and new |
| PresetRefs.LiftedRefsDistinctIff | keeper_sdk/core/normalize.py:205-314 | a lifted list, nested users included, has pairwise distinct references exactly when the preset ones are distinct and none equals the reference handed to an object without one |
| PresetRefs.EveryoneIsReferenced | keeper_sdk/core/normalize.py:190-314 | a document without references comes out with as many as it has gateways, configurations, resources, nested and top-level users and lifted folders |
| PresetRefs.PresetRefsMayClash | keeper_sdk/core/normalize.py:299-312 | so an object that brings the reference assigned to another keeps it and repeats it |
| Names.FirstColonSplits | keeper_sdk/providers/mock.py:107-107 | a seed determines its manifest name and its reference when the name has no colon |

## Left out

- PamTheorems.PlanConvergesIff: that creates land on unused keeper uids and no record matches twice is given; PamRuns derives the first for runs. The first diff may adopt, the second does not.
- PamRuns.RunsConvergeIff: asks that seeds and stand-in titles of the whole run tell its objects apart; PamRuns.FirstRoundConvergesIff asks neither.
- SharingRuns.SharingConvergesIff: takes from the sharing graph's check that no uid_ref occurs in both blocks; the marker text of a desired row is uninterpreted.
- ChannelRuns.StepKeepsChannel: `put`, `delete` and a raw `KsmBus.publish` on the channel's own label are excluded from runs; the first two reset its version, the last may store what is not a channel.
- AgentBusRuns.RunRefines: each method call is one atomic step on the store, as in the in-memory store; a remote read-then-save inside one call is not split.
- KsmProvider.KsmMockProvider.ApplyKsmPlan: the four block dicts are one sequence, since a key begins with the name of its block; details of outcomes are reduced to what happened.
- MspConvergence.MspMockProvider.ApplyMspPlan: of an outcome's details, the reason and the dry-run flag are not modelled.
- EnterpriseGraph.BuildGraphLoop: the kinds of reference error are one, without their texts.
- MockProvider.Provider.ApplyPlan: the guard on sharing deletes is inactive, as for plans that carry no allow_delete attribute; custom_fields is a dict or absent.
- Normalize.FromPamImportJson: key renaming by `canonicalize` happens before the model starts; `to_pam_import_json` and reference rewriting are not modelled.
- The folders and shared_folders blocks of the sharing diff: the same algorithm again.
- Enterprise, EPM, events, identity and SIEM diffs and their provider halves: the same algorithm as the KSM diff.
- The vault login field diff, which the PAM diff does not enable.
- Seeding helpers, capability lists and tenant checks of the mock provider.
- Reasons of changes and texts of errors.
- `send`, `receive`, `post`, `fetch` and `ack` of the bus client: wrappers over publish and subscribe; `ack` publishes a cursor under its own label.
- Python equality across types (`1 == True`), and text fields holding something other than text.
- Command line, servers, renderers, Commander and HTTP providers, schema and model validation, redaction.
