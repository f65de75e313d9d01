# altero: verified models of the sync protocol and its tools

altero is a Zotero sync server. These files model the parts of it that are state
machines, translators and search loops, and prove what they are there for. With
Dafny 4.11, `dafny verify dfyconfig.toml` checks the whole project.

## What is modelled

**The sync protocol** (`tools/compatibility/protocol_model.py`). `ProtocolSpec.dfy` says
what one operation does to a library, as a function on values; `ProtocolModel.dfy` is the
class that does the same in place, on a copy, and is proved against it.
`ProtocolEffects.dfy` says the same once more as a relation between the library before
and after, and proves that the function is that relation. Everything else about runs is
proved on the function:

- what every operation keeps (`ProtocolInvariants.dfy`), the collection tree and its
  ancestor walk (`ProtocolForest.dfy`), cascading deletion (`ProtocolDeletion.dfy`), where
  types may hang (`ProtocolTypes.dfy`), the deletion log (`ProtocolHistory.dfy`), delta
  sync (`ProtocolSync.dfy`), stale queues (`ProtocolSequences.dfy`), and the validator with
  the exceptions an ill-typed payload can end in (`ProtocolErrors.dfy`);
- runs on which a property fails without its hypothesis (`ProtocolExamples.dfy`).

**The seeded generators and the shrinker.** A random source is a function that answers
every choice. `ProtocolGenerate.dfy` is the protocol generator, with its fixed opening of
32 operations in `ProtocolOpening.dfy`; `Sequences.dfy` is the item generator with its
independent validator; `Shrinker.dfy` and `SequenceRunner.dfy` are delta debugging and the
run that uses it. `Naming.dfy` has the numbered keys and titles, `ProtocolRuns.dfy` how
runs are put together.

**The batch write** (`src/altero/api/batch.py`). `BatchWrite.dfy` is one request over a
session with savepoints, with any saver; `BatchInterleaving.dfy` is many requests taking
their lock, check, bump, save and commit or rollback steps in any order.

**Translators and codecs.** `LikeGlob.dfy` has the whole of SQLite's `GLOB` and the `LIKE`
predicate; `AtomXml.dfy` has the writer and an XML reader, `AtomText.dfy` and
`AtomRoundTrip.dfy` how one undoes the other, `AtomLayout.dfy` what is written, to the
character; `Base64Url.dfy` has `btoa`, `atob` (sections 4 and 5 of RFC 4648) and the two
functions built on them.

**A repair, a comparison and paging.** `Migration.dfy`, `CompareLibraries.dfy` over
`Json.dfy`, and `Pagination.dfy`. `Common.dfy` has the option type.

## What turned out to have a condition

- *Two requests with the same precondition cannot both write.* The check refuses a library
  ahead of the stated version, and only logs a library behind it
  (`src/altero/services/writes.py:177-212`). Two batches that state a version never issued
  can both commit, and they can exactly then: `BatchInterleaving.SameExpectedTwiceIffAhead`.
- *A deletion is refused exactly when it strands queued work.* A falsy list or dictionary
  passes for "no parent" when an item is saved, and every later deletion of an item stumbles
  over it: `ProtocolDeletion.ItemDeletionIsExact` has the exact condition,
  `ProtocolExamples.EmptyListBlocksDeletion` the input.
- *Every listed collection is live.* It is as long as no payload lists a collection twice:
  `ProtocolInvariants.ReachableListings`. One listing is removed per item, so a deletion
  keeps this exactly when no item lists the collection twice:
  `ProtocolInvariants.DeletionClearsListingsIffListedOnce`, with
  `ProtocolExamples.ListedTwiceDangles`.
- *A replica equals the server after a delta.* It does exactly when no item it kept had
  listed a collection whose key was deleted and used again, nor a gone collection more often
  than it was deleted: `ProtocolSync.ReplicaCatchesUp`, with
  `ProtocolExamples.ReusedKeyMisleads`.
- *The validator answers true or false.* It lets an AttributeError out, exactly on the
  sequences `ProtocolErrors.ValidProtocolSequence` gives no answer for: relations that are no
  dictionary, as in `ProtocolExamples.ListRelationsEscape`, or a collection deleted whose key
  a text or dictionary holds.
- *Everything hangs where its type belongs.* A save keeps that exactly when the saved item
  fits what depends on it: `ProtocolTypes.SaveKeepsTypesIffItFits`, with
  `ProtocolExamples.RetypedParentStrands`.
- *Reading what the XML writer wrote gives the tree back.* It does exactly when no text
  holds a carriage return, which a reader must turn into a newline:
  `AtomRoundTrip.RenderReadsBack`, with `AtomRoundTrip.ReturnIsLost`.
- *The item generator's sequences are valid.* Every random source yields a valid sequence
  exactly up to 99999 steps: `Sequences.EverySourceIff`, with a source that always creates
  as the one that fails beyond. For one source the condition is on its choices:
  `Sequences.GeneratedIsValidIff`. The protocol generator needs no such bound, because it
  tries its candidates on the model first.

## Model

| member | source | states |
|---|---|---|
| ProtocolModel.ProtocolModel.constructor | tools/compatibility/protocol_model.py:10-16 | A new library is empty, at version 0, with both clients allowed in and nothing queued. |
| ProtocolModel.ProtocolModel.Copy | tools/compatibility/protocol_model.py:20 | The trial object starts as the state it was copied from. |
| ProtocolModel.ProtocolModel.TakeOver | tools/compatibility/protocol_model.py:22 | Afterwards the object is in the trial's state, field for field. |
| ProtocolModel.ProtocolModel.Apply | tools/compatibility/protocol_model.py:18-22 | All or nothing: the operation is accepted exactly when a step exists, the new state is that step's, and a rejected operation, a flush failing part-way included, changes nothing. |
| ProtocolModel.ProtocolModel.ApplyInPlace | tools/compatibility/protocol_model.py:24-136 | The in-place dispatch accepts exactly what the step function accepts and then leaves exactly its state. |
| ProtocolModel.ProtocolModel.WriteInPlace | tools/compatibility/protocol_model.py:60-136 | Every kind of write, done field by field, agrees with the write function, rejections included. |
| ProtocolModel.ProtocolModel.Queue | tools/compatibility/protocol_model.py:40-50 | An offline edit is queued at the end with the library version and object version it was based on, or refused for one of the four reasons. |
| ProtocolModel.ProtocolModel.FlushQueue | tools/compatibility/protocol_model.py:51-59 | The loop over the queue saves every edit at one new version and empties the queue, or fails with the first edit that fails. |
| ProtocolModel.ProtocolModel.SaveInPlace | tools/compatibility/protocol_model.py:138-186 | A save is refused with the state untouched, or stores the merged, normalized, stamped object and touches nothing else. |
| ProtocolModel.ProtocolModel.WalkUp | tools/compatibility/protocol_model.py:178-184 | The loop that grows the set of seen ancestors terminates and accepts exactly the walks that end at a root over live, distinct keys. |
| ProtocolModel.ProtocolModel.SetInPlace | tools/compatibility/protocol_model.py:65-76 | A setting is written or deleted with its entry in the deletion log, when that changes something. |
| ProtocolModel.ProtocolModel.DeleteTree | tools/compatibility/protocol_model.py:108-119 | The loop that grows the doomed set terminates, cycles or not, and removes what the recursive cascade removes. |
| ProtocolModel.ProtocolModel.DeleteFolder | tools/compatibility/protocol_model.py:120-133 | Reparenting, unfiling and removal together are the functional deletion of a collection. |
| ProtocolModel.ProtocolModel.Reparent | tools/compatibility/protocol_model.py:121-126 | The update loop hands exactly the direct children over to the grandparent, whatever order it visits them in. |
| ProtocolModel.ProtocolModel.Unfile | tools/compatibility/protocol_model.py:127-129 | One listing of the key is taken out of every item; it stumbles exactly when something that is not a list holds the key. |
| ProtocolEffects.StepExactly | tools/compatibility/protocol_model.py:18-186 | For every state and operation: it is accepted with a given result exactly when the relation between the two says so, key by key and field by field, with what each operation asks, changes and leaves alone. |
| ProtocolEffects.SavesExactly | tools/compatibility/protocol_model.py:138-186 | A save asks that something changes, that relations are a dictionary and that the object fits where it goes; it stores each field as given or as it was, relations under the predicates given with single targets bare, and its key and version; nothing else changes. |
| ProtocolEffects.SaveStores | tools/compatibility/protocol_model.py:138-186 | Spelled out of every accepted save: the stored fields are the old ones with the payload over them, and each predicate has the one element of a list of one, else the value given. |
| ProtocolEffects.FlushStores | tools/compatibility/protocol_model.py:51-59 | A flush stores every queued edit over what its item was, at one new version, empties that queue and changes nothing else. |
| ProtocolEffects.CollectionFitsExactly | tools/compatibility/protocol_model.py:178-184 | The ancestor walk accepts a parent, in any graph, exactly when some path of distinct live collections without the saved one leads from it to a root. |
| ProtocolEffects.CollectionExactly | tools/compatibility/protocol_model.py:120-133 | A collection goes exactly if no text or dictionary holds its key: its children get its parent, or false, and each item loses its first listing of it. |
| ProtocolForest.WalkAcceptsExactlyForests | tools/compatibility/protocol_model.py:177-184 | In a forest, the ancestor walk of a save accepts a parent exactly when the graph with the new link is still a forest. |
| ProtocolForest.ForestIffAcyclic | tools/compatibility/protocol_model.py:177-184 | With no dangling link, every chain of parents ends exactly when there is no cycle. |
| ProtocolForest.DeletionSplices | tools/compatibility/protocol_model.py:120-131 | Deleting a collection keeps the forest and every ancestor relation between survivors in both directions; exactly the direct children get a new parent and version, and only those two fields. |
| ProtocolForest.SpliceShortens | tools/compatibility/protocol_model.py:121-126 | A chain of parents between survivors is still there with the deleted collection cut out of it. |
| ProtocolForest.SpliceLengthens | tools/compatibility/protocol_model.py:121-126 | A chain of parents after the deletion comes from one before it. |
| ProtocolDeletion.SubtreeClosed | tools/compatibility/protocol_model.py:110-114 | What the cascade removes has no child outside it, even when parents form a cycle. |
| ProtocolDeletion.SubtreeLeast | tools/compatibility/protocol_model.py:110-114 | Every set that holds the item and all children of its members holds what the cascade removes. |
| ProtocolDeletion.ItemDeletionIsExact | tools/compatibility/protocol_model.py:103-119 | A deletion removes exactly the least closed set with its files and full text, and is refused exactly when that set meets a queued edit of either client, or an item somewhere has a list or dictionary for a parent. |
| ProtocolInvariants.SaveItemKeeps | tools/compatibility/protocol_model.py:150-176 | An accepted save of an item, whatever its payload, keeps graph, versions, files and queues sound. |
| ProtocolInvariants.SaveCollectionKeeps | tools/compatibility/protocol_model.py:177-186 | An accepted save of a collection keeps the forest and everything else. |
| ProtocolInvariants.DeleteKeeps | tools/compatibility/protocol_model.py:103-133 | A deletion of any kind keeps the invariant. |
| ProtocolInvariants.FlushKeeps | tools/compatibility/protocol_model.py:51-59 | A flush keeps the invariant. |
| ProtocolInvariants.StepKeepsInvariant | tools/compatibility/protocol_model.py:24-136 | Every accepted operation of any kind, whatever its payload, keeps the whole invariant. |
| ProtocolInvariants.RunKeepsInvariant | tools/compatibility/protocol_model.py:189-200 | So does every run. |
| ProtocolInvariants.ReachableStates | tools/compatibility/protocol_model.py:18-136 | After every run from the empty library: the collection graph has no cycle and no dangling link, item parents are live, no parented item is filed, files and full text belong to live items, queued edits name live items once per client, and all versions lie between 1 and the library version. |
| ProtocolInvariants.StepKeepsListings | tools/compatibility/protocol_model.py:77-133 | An accepted operation whose payload lists no collection twice keeps every listed collection live and listed once. |
| ProtocolInvariants.ReachableListings | tools/compatibility/protocol_model.py:77-133 | After every run of such operations from the empty library all listed collections are live. |
| ProtocolInvariants.DeletionClearsListingsIffListedOnce | tools/compatibility/protocol_model.py:127-129 | After a collection is deleted all listed collections are live exactly when no item had listed it more than once. |
| ProtocolSync.StepSince | tools/compatibility/protocol_model.py:24-136 | In any state, one more operation keeps "what is still at an old version is what it was, less one listing per deletion of a collection". |
| ProtocolSync.DeltaIsComplete | tools/compatibility/protocol_model.py:51-136 | Over any run from any state, an object at a version the client had seen is what the client has, save that an item lost one listing of a collection for each time it was deleted meanwhile. |
| ProtocolSync.LosesExactlyIff | tools/compatibility/protocol_model.py:120-133 | Those losses are all listings of the deleted collections exactly when none was listed more often than it was deleted. |
| ProtocolSync.ReplicaCatchesUp | tools/compatibility/protocol_sequences.py:113-121 | A replica that takes newer objects, drops unlisted keys and drops unlisted memberships has the server's collections and searches always, and its items exactly when no kept item had listed a collection deleted and used again, nor a gone collection more often than it was deleted. |
| ProtocolSync.ReplicaIsServer | tools/compatibility/protocol_sequences.py:113-121 | From a state where every listed collection is live and listed once, and with no deleted collection key live again, the replica is the server. |
| ProtocolSync.ReplicaRowsCatchUp | tools/compatibility/protocol_sequences.py:138-162 | The rest of the replica always equals the server: settings dropped by the deletion log, full text by its listing, files with their items. |
| ProtocolSync.ReplicaReadsDelta | tools/compatibility/protocol_sequences.py:113-162 | What a replica becomes depends only on the client's copy, the listings, the deletion log and what is newer than the version it has. |
| ProtocolHistory.StepIsKnown | tools/compatibility/protocol_model.py:65-76 | One operation adds to live keys and deletion log together exactly the keys it saves, and keeps settings in one of the two. |
| ProtocolHistory.NothingIsForgotten | tools/compatibility/protocol_model.py:65-133 | Over every run the keys ever saved are exactly the live ones and the logged ones, and a setting name is in exactly one of the two. |
| ProtocolSequences.FirstBaseDecides | tools/compatibility/protocol_sequences.py:88-92 | After any run a queue's bases never decrease and none is later than the library; if the first is the current version every queued edit has its object's current version, otherwise the library moved since. |
| ProtocolSequences.FlushUploads | tools/compatibility/protocol_sequences.py:88-109 | The first upload is refused exactly when the library moved since the first edit was queued; the last upload made carries all edits in order and meets every precondition. |
| ProtocolTypes.SaveKeepsTypesIffItFits | tools/compatibility/protocol_model.py:150-174 | A save keeps every parent link and row typed exactly when the stored item fits its children and rows. |
| ProtocolTypes.StepTyped | tools/compatibility/protocol_model.py:77-119 | An operation that changes no existing type keeps annotations under attachments, notes and files under regular items, and rows on attachments. |
| ProtocolTypes.RunTyped | tools/compatibility/protocol_model.py:77-174 | So does every run of such operations, deletion and reuse of keys included. |
| ProtocolTypes.ReachableTypes | tools/compatibility/protocol_model.py:77-174 | Spelled out from the empty library: every annotation's parent is a live attachment, every parented note or file that is not embedded hangs under a live regular item, and files and full text are those of live attachments. |
| ProtocolErrors.CrashesAreRefused | tools/compatibility/protocol_model.py:138-184 | What ends in a TypeError or AttributeError instead of a ValueError is something the model refuses wherever listings can be iterated, which RunIterable gives for every reachable state. |
| ProtocolErrors.IllTypedCrash | tools/compatibility/protocol_model.py:153-184 | A list for a parent, a listing that is a number, a boolean or null, and a list in a listing each end in a TypeError. |
| ProtocolErrors.PlainNeverCrashes | tools/compatibility/protocol_model.py:138-184 | With payloads and state of ordinary kinds no operation ends in another exception than ValueError. |
| ProtocolErrors.RunNeverCrashes | tools/compatibility/protocol_model.py:24-186 | Nor does any operation after any run of such payloads. |
| ProtocolErrors.EscapesAreRefused | tools/compatibility/protocol_model.py:138-149 | What ends in an AttributeError, in any state, is something the model refuses. |
| ProtocolErrors.EscapesExactly | tools/compatibility/protocol_model.py:127-149 | Exactly these end in an AttributeError: a save that changes something and leaves relations no dictionary, such an edit in a flush after edits that go through, and the deletion of a collection whose key a text or dictionary holds. |
| ProtocolErrors.EscapesCrash | tools/compatibility/protocol_model.py:127-149 | An AttributeError is one of the exceptions that plain payloads never meet. |
| ProtocolErrors.RunIterable | tools/compatibility/protocol_model.py:127-176 | In every reachable state, whatever the payloads, an unfiling that does not go through ends in an AttributeError. |
| ProtocolErrors.ValidProtocolSequence | tools/compatibility/protocol_model.py:189-200 | True exactly for a non-empty sequence that a fresh model accepts from end to end; no answer exactly when the first operation not accepted ends in an AttributeError, which is not caught; false otherwise. |
| ProtocolExamples.ListedTwiceDangles | tools/compatibility/protocol_model.py:127-129 | A run after which an item lists a collection that is gone. |
| ProtocolExamples.ReusedKeyMisleads | tools/compatibility/protocol_model.py:120-136 | A run after which the replica files an item the server does not. |
| ProtocolExamples.RetypedParentStrands | tools/compatibility/protocol_model.py:165-174 | A run after which an annotation hangs under a book. |
| ProtocolExamples.EmptyListBlocksDeletion | tools/compatibility/protocol_model.py:110-113 | A run after which no item can be deleted although nothing is queued. |
| ProtocolExamples.ListRelationsEscape | tools/compatibility/protocol_model.py:143-149 | A sequence of one save on which the validator ends in an AttributeError. |
| ProtocolOpening.ConflictRun | tools/compatibility/protocol_generate.py:74-76 | The edit queued by one client goes through after the other client changed the same item. |
| ProtocolOpening.RevokedRun | tools/compatibility/protocol_generate.py:77-80 | A queued edit survives its client's access being taken away and given back. |
| ProtocolOpening.MovesRun | tools/compatibility/protocol_generate.py:81-94 | Moving the note, recolouring the highlight, cutting the branch loose and changing the search are all accepted. |
| ProtocolOpening.EditsRun | tools/compatibility/protocol_generate.py:95-104 | Tagging, trashing, restoring and clearing the paper are all accepted, and leave it in no collection. |
| ProtocolOpening.DeletionsRun | tools/compatibility/protocol_generate.py:107-110 | The four deletions at the end are accepted: the other book outlives the paper's cascade. |
| ProtocolOpening.PrologueRuns | tools/compatibility/protocol_generate.py:14-114 | The model accepts all 32 operations, which leave both clients with access, nothing queued and no generated key. |
| ProtocolOpening.PrologueProper | tools/compatibility/protocol_generate.py:14-111 | None of their payloads lists a collection twice or is of an unusual kind. |
| ProtocolGenerate.CandidatesForItem | tools/compatibility/protocol_generate.py:139-193 | The candidates about one item are exactly those listed, by its type and the collections there are. |
| ProtocolGenerate.Candidates | tools/compatibility/protocol_generate.py:119-205 | The candidates of a step are exactly those listed, no more and no fewer. |
| ProtocolGenerate.TogglesChange | tools/compatibility/protocol_generate.py:145-188 | The candidates that trash an item and that file it always go to the other state of what is there. |
| ProtocolGenerate.RecoveryExactly | tools/compatibility/protocol_generate.py:208-211 | The recovery restores access to whoever lacks it and flushes whoever has edits queued, and does nothing else. |
| ProtocolGenerate.RecoveryOrdered | tools/compatibility/protocol_generate.py:208-211 | Access comes before any flush, and client A before client B. |
| ProtocolGenerate.FlushSucceeds | tools/compatibility/protocol_generate.py:208-214 | On every state the generator reaches, a flush by a client with access and queued work is accepted, leaves every item not queued as it was, and gives each queued one its new abstract and version and nothing else but normalized relations. |
| ProtocolGenerate.SpareStep | tools/compatibility/protocol_generate.py:206-228 | With steps to spare some candidate is accepted and leaves enough steps. |
| ProtocolGenerate.ForcedStep | tools/compatibility/protocol_generate.py:208-228 | With none to spare, an operation of the recovery is accepted and leaves exactly one less to recover. |
| ProtocolGenerate.StepKeepsReady | tools/compatibility/protocol_generate.py:115-228 | Whatever candidate is taken, keys and texts of later steps stay unused and every queued edit can still be sent. |
| ProtocolGenerate.BeginningReady | tools/compatibility/protocol_generate.py:14-114 | The opening leaves the generator ready, with nothing to recover. |
| ProtocolGenerate.TakeFirst | tools/compatibility/protocol_generate.py:215-230 | The loop never runs out, takes the first candidate that is accepted and leaves enough steps, and no candidate ends in an exception it does not catch. |
| ProtocolGenerate.OneStep | tools/compatibility/protocol_generate.py:115-230 | A step adds one accepted operation and never more to recover than steps remain; the operation is the first to take in the order the random source shuffles the candidates to, or of the recovery when no more steps remain than that needs. |
| ProtocolGenerate.GenerateProtocolSequence | tools/compatibility/protocol_generate.py:10-231 | For every seed, every number of steps and every answer of the random source: an error below 32 steps, otherwise exactly that many operations, each accepted in turn and, after the opening, the first to take in the shuffled order of exactly the candidates of its step or of the recovery, ending with both clients' access restored and both queues empty. |
| Naming.NumberedKeyValid | tools/compatibility/sequences.py:18-22 | A numbered key of at most five digits passes the validators' pattern. |
| Naming.NumberedKeyTooLong | tools/compatibility/sequences.py:18-22 | A sixth digit makes it fail. |
| Naming.NumberedKeysDiffer | tools/compatibility/protocol_generate.py:116 | Different numbers of at most five digits make different keys. |
| Naming.NumberedTextsDiffer | tools/compatibility/protocol_generate.py:118 | Different numbers make different titles. |
| Sequences.ValidSequence | tools/compatibility/sequences.py:38-73 | The validating loop accepts exactly the non-empty sequences of operations each of which is proper after the ones before it, said over positions: no key is created twice, there is one collection under its own key, a change names a key created and not deleted since, filing comes after the collection, and no change sets the value last set. |
| Sequences.ValidIffProper | tools/compatibility/sequences.py:38-73 | So does the replay from the empty state. |
| Sequences.CreateFollows | tools/compatibility/sequences.py:18-25 | A created item is one the validator takes, and the generator's flags still describe its state. |
| Sequences.ChangeFollows | tools/compatibility/sequences.py:26-33 | An edit, filing, trashing or deletion is effective for the validator, because toggles alternate and titles never repeat. |
| Sequences.TakenFollows | tools/compatibility/sequences.py:16-34 | One more operation is refused exactly when it creates under a number above 99999; otherwise the validator follows and both agree on what is live. |
| Sequences.GeneratedFollowsChoices | tools/compatibility/sequences.py:16-34 | Each generated operation is what its choice makes of the keys live before it: a new item if there are none, else the chosen action on the chosen key, toggles to the opposite of the value last set. |
| Sequences.FirstKeys | tools/compatibility/sequences.py:21 | The first key, and one with both digits that are replaced, written out. |
| Sequences.GeneratedIsValidIff | tools/compatibility/sequences.py:10-73 | For one random source: the sequence is valid exactly when its choices, counted through alone, create nothing under a number above 99999. |
| Sequences.EverySourceIff | tools/compatibility/sequences.py:10-73 | For all sources: every one yields a valid sequence if and only if at most 99999 steps are asked for; a source that always creates fails beyond. |
| Sequences.GenerateSequence | tools/compatibility/sequences.py:10-35 | For every answer of the random source: an error below two steps, otherwise exactly that many operations, those the choices determine, valid exactly when the choices do not outgrow the keys, and so always up to 99999 steps. |
| Shrinker.FirstToDrop | tools/compatibility/sequences.py:127-133 | The inner loop finds the first piece without which the rest still fails, or shows that there is none, within `parts` questions. |
| Shrinker.Minimize | tools/compatibility/sequences.py:123-137 | Delta debugging terminates with an order-preserving subsequence that fails if the input did, from which no single step can be dropped if two remain, after at most n*n/2 + 2n questions. |
| SequenceRunner.RunSequence | tools/compatibility/sequence_runner.py:19-104 | An invalid sequence is refused; a failing one is reported with a valid subsequence that breaks the same invariant and, if two steps remain, is 1-minimal for that; the confirming run cannot disagree. |
| BatchWrite.KeysWrittenExactly | src/altero/api/batch.py:28-36 | A key is among the trashed, or the changed, exactly when it is not empty and some written object has it with that flag. |
| BatchWrite.Partition | src/altero/api/batch.py:21-36 | The written keys, in order, split into the changed and the trashed by their flag; together they are as many as the written objects with a key. |
| BatchWrite.Session.SaveOne | src/altero/api/batch.py:82-101 | A rejected or unchanged object leaves nothing, whatever the saver did before it found out; a written one stays; each gets its one line in the report, a failure with what it was about. |
| BatchWrite.Session.SaveAll | src/altero/api/batch.py:82-101 | The loop over savepoints is the fold of the objects' effects, and the report covers every index once. |
| BatchWrite.Session.BatchWrite | src/altero/api/batch.py:64-143 | A request is refused exactly for a missing version that is required, a library ahead of the stated version, a token of the wrong length, or one used within twelve hours; a refused or crashed request changes nothing. Otherwise the library is one version further with exactly the written objects applied and the token kept if any was written, and as before if none was. |
| BatchWrite.RefusingExactly | src/altero/services/writes.py:177-194 | The four refusals, each exactly when its reason applies and no earlier one does. |
| BatchWrite.ResentIsRefused | src/altero/services/writes.py:244-283 | A committed batch's token is refused to the same request sent again within twelve hours, unless its version is refused already. |
| BatchWrite.LoggedExactly | src/altero/api/batch.py:103-134 | A group's batch adds one row for each kind of change it made, with exactly the keys that changed so and their count; an item written into the trash counts as deleted; any other batch adds none. |
| BatchWrite.OnlySuccessesMatter | src/altero/api/batch.py:82-101 | Applying only the successful objects in order writes each of them again and ends in the same state. |
| BatchWrite.AfterPrefix | src/altero/api/batch.py:80-86 | What an object sees depends only on the objects before it. |
| BatchWrite.ReportedWritten | src/altero/api/batch.py:103 | Something is reported successful exactly when something was written. |
| BatchInterleaving.StepKeepsSound | src/altero/api/batch.py:66-141 | Every lock, check, bump, save, commit or rollback step keeps lock, versions, data and log consistent; a transaction sees the committed data with its own objects written so far. |
| BatchInterleaving.EveryInterleaving | src/altero/api/batch.py:66-141 | For every interleaving of any number of requests: the committed data is the committed batches applied in the order of the log, each to what the one before it left, every object of each saved and one at least written; committed versions are consecutive, each is one batch's, no batch, the first included, commits over a version later than the one stated, a required version was stated, a write token commits once and not if used before, and one request holds the lock. |
| BatchInterleaving.SoloCommits | src/altero/api/batch.py:66-141 | With the lock free, a request that is not behind, states a version if it must, brings no used token and has an object to write can commit. |
| BatchInterleaving.SameExpectedOnce | src/altero/services/writes.py:177-194 | Of the batches that state a version the library had reached, at most one commits. |
| BatchInterleaving.SameExpectedTwiceIffAhead | src/altero/services/writes.py:177-212 | Two batches that state the same version can both commit exactly when that version was never issued. |
| LikeGlob.TranslationKeepsMatches | src/altero/db.py:117-132 | For every pattern and subject, `GLOB` with bracket classes on the translated pattern agrees with `LIKE` with backslash escapes, a trailing backslash standing for itself. |
| LikeGlob.TranslateLike | src/altero/db.py:117-132 | The loop over the characters produces a pattern with that property. |
| LikeGlob.LikeByRules | src/altero/db.py:117-132 | `LIKE` by its rules: nothing, `%`, `_`, an escaped character, another character and a lone backslash at the front of a pattern. |
| AtomText.ValueRead | src/altero/atom.py:208-211 | A quoted attribute value reads back exactly, whatever white space, quotes and markup it holds. |
| AtomText.TextRead | src/altero/atom.py:224-226 | Escaped text reads back as it was, but for carriage returns. |
| AtomRoundTrip.ElementRead | src/altero/atom.py:208-226 | An element written at any depth reads back, whatever follows it. |
| AtomRoundTrip.RenderReadsBack | src/altero/atom.py:208-226 | Reading the rendering at any depth gives the tree with its line ends normalized, which is the tree itself exactly when no text holds a carriage return. |
| AtomRoundTrip.DocumentReadsBack | src/altero/atom.py:229-230 | The same for the whole document with its declaration. |
| AtomRoundTrip.ReturnIsLost | src/altero/atom.py:224-230 | An element whose text is a single carriage return, whose document reads back with a newline. |
| AtomLayout.QuotedSo | src/altero/atom.py:211 | A value stands in the quotation marks it does not hold, and in double ones with references if it holds both. |
| AtomLayout.WrittenByReference | src/altero/atom.py:211 | Line ends and tabs in an attribute are written by number. |
| AtomLayout.EscapedMarkup | src/altero/atom.py:226 | In text the three markup characters are escaped, and quotation marks are not. |
| AtomLayout.LaidOutSo | src/altero/atom.py:208-230 | Children stand on lines of their own, two columns in; text stays on its element's line; an element with neither closes itself. |
| AtomLayout.DocumentSo | src/altero/atom.py:229-230 | A document is its declaration, the root and an end of line. |
| Base64Url.ToBase64Url | web/src/passkeys.ts:33-38 | The loop over the bytes and the replacements compute the unpadded encoding. |
| Base64Url.ToBytes | web/src/passkeys.ts:25-31 | The byte array holds what the text decodes to; it fails exactly where `atob` throws. |
| Base64Url.RoundTrip | web/src/passkeys.ts:25-38 | For bytes of any length: decoding the encoding gives them back, only the URL alphabet is used, the length is the number of sextets begun and never 1 modulo 4. |
| Base64Url.DecodesThenEncodes | web/src/passkeys.ts:25-38 | Over the URL alphabet a text decodes exactly when its length is not 1 modulo 4, and encodes back to itself exactly when it is in canonical form. |
| Base64Url.LoneRefused | web/src/passkeys.ts:26-27 | A single left-over character is refused even with the padding it would get. |
| Base64Url.Vectors | web/src/passkeys.ts:33-38 | `btoa` on the test vectors of RFC 4648, section 10. |
| Migration.Database.Upgrade | migrations/versions/64a2c9d7e301_remove_child_collection_memberships.py:18-54 | The in-place loop over the affected libraries does what the specification of the repair says. |
| Migration.RepairClearsChildren | migrations/versions/64a2c9d7e301_remove_child_collection_memberships.py:29-54 | Afterwards no parented item is in any collection, and every other link is untouched. |
| Migration.RepairIsDownloaded | migrations/versions/64a2c9d7e301_remove_child_collection_memberships.py:38-53 | Exactly the affected libraries rise by one, exactly the affected items get that version and the time of the repair, and so they alone lie above the old watermark. |
| Migration.RepairIsIdempotent | tools/upgrade_corpus.py:211-228 | Running the repair twice is running it once. |
| Pagination.ClampLimit | src/altero/pagination.py:21-46 | A positive request is served up to the maximum, anything else with the default; the size is positive and within the maximum whenever the default is. |
| Pagination.PageQueryReadsBack | src/altero/pagination.py:49-56 | A page's query says where it starts and how many it holds, and keeps every other parameter. |
| Pagination.BuildPageLinks | src/altero/pagination.py:59-94 | Which links there are and where each leads. |
| Pagination.FollowLinks | src/altero/pagination.py:49-94 | A client that reads each `next` address out of the links it was given gets every result once, in order, and stops on the page announced as `last`. |
| Pagination.FollowingPartitions | src/altero/pagination.py:79-94 | The starts that client visits split the results into pages, and the last of them is the last page's. |
| Pagination.ReadPaged | tools/compare_libraries.py:524-535 | The client that stops at a short page reads everything exactly when the server grants its hundred or one page holds it all. |
| Pagination.HundredSurvives | src/altero/pagination.py:21-46 | A limit of 100 survives clamping. |
| CompareLibraries.VanishesExactly | tools/compare_libraries.py:122-135 | A value prunes to something empty exactly when it says nothing at any depth. |
| CompareLibraries.PruneIdempotent | tools/compare_libraries.py:122-135 | Pruning twice is pruning once, on every JSON value. |
| CompareLibraries.EmptyKeyIgnored | tools/compare_libraries.py:122-135 | A key whose value says nothing might as well be absent. |
| CompareLibraries.PruneDecides | tools/compare_libraries.py:122-135 | Two values have the same canonical form exactly when they differ only in what says nothing. |
| CompareLibraries.LinesExactly | tools/compare_libraries.py:595-620 | A key gets a report line exactly when the sources do not agree on it. |
| CompareLibraries.LineSays | tools/compare_libraries.py:600-619 | A line names an object some source lacks, with exactly who holds it and who does not, or a field of an object all hold, with what each has there, at least two of them differing. |
| CompareLibraries.FieldIsDue | tools/compare_libraries.py:609-619 | Every field on which two sources that all hold the object differ is due a line. |
| CompareLibraries.FieldDifferences | tools/compare_libraries.py:610-619 | Where all sources hold the object, exactly the fields they differ on get a line, once. |
| CompareLibraries.Differences | tools/compare_libraries.py:595-620 | The report holds exactly the lines due, once each, and is empty exactly when all sources agree on every key. |
| CompareLibraries.Report | tools/compare_libraries.py:623-658 | The exit code is zero exactly when all sources have the same keys and, under each, the same fields with the same values, versions left out if they are ignored, and otherwise are at the same library version too. |

## Left out

- ProtocolErrors.ValidProtocolSequence: operations are a datatype, so unknown actions, kinds and missing fields cannot be written down.
- ProtocolInvariants.ReachableStates: acyclic item parents are not claimed, since the source never checks for them.
- ProtocolInvariants.ReachableListings: assumes that no payload lists a collection twice; what happens otherwise is in DeletionClearsListingsIffListedOnce.
- ProtocolTypes.RunTyped: assumes that no save changes the type of an existing item; what a retyping save does is in SaveKeepsTypesIffItFits.
- ProtocolSync.ReplicaRowsCatchUp: full text is dropped by its listing, since a deleted and recreated item cannot be told from an edited one by its version.
- ProtocolSequences.FlushUploads: models which uploads a flush makes and what the server checks of them, not the desktop client's transport or the state comparison after each step.
- ProtocolGenerate.GenerateProtocolSequence: the random source's answers are arbitrary functions; base64 and md5 of the uploaded text are parameters, and that the encoded text is valid base64 is taken for granted.
- Sequences.ValidSequence: an operation always has its four fields, of any JSON type; that a member of the list is a dictionary is left to the type.
- SequenceRunner.RunSequence: replaying is a function of the steps, because every trial starts a fresh server; the number of trials and the trial directories are not counted.
- BatchWrite.Session.BatchWrite: the saver is any function of the data, the payload and the version, parsing the request and its size limit come before it, and how activity names its objects is not modelled.
- BatchInterleaving.EveryInterleaving: one library; each route's saver is any function of the data its transaction sees, the payload and the version; write tokens do not expire.
- AtomRoundTrip.RenderReadsBack: elements without raw markup, without both text and children, and with legal characters, as section 2.2 of XML 1.0 asks; the reader has no document types, namespaces or hexadecimal references.
- Base64Url.ToBytes: null stands for the exception that `atob` throws.
- LikeGlob.TranslationKeepsMatches: subjects and patterns are sequences of characters; a NUL, at which SQLite stops reading, is a character like any other, and `ilike` and database folding are not modelled.
- Migration.Database.Upgrade: tables are maps and sets; the SQL that selects and updates them is not part of this model.
- Pagination.BuildPageLinks: links are query parameters; `urlencode` and the base address are not modelled.
- CompareLibraries.Differences: what each line says and the order of the lines, but not their text; canonical forms of items, collections and searches before pruning are not modelled.
- Python's `True == 1` and `1 == 1.0`: JSON values of different types are never equal here.
- Services, routes, authentication, the browser interface, the command line, process handling and schema-only migrations: input and output, or foreign code.
