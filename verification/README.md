# Verified models of agent-sandbox

This project models, in Dafny, the parts of agent-sandbox whose state has to
stay right under interleaving, stale reads, crashes or an arbitrary splitting
of their input, and proves what they promise. `dafny verify dfyconfig.toml`
checks all of it.

## The components

**Warm-pool replenishment** (`Expectations`, `WarmPoolLog`,
`WarmPoolProtocol`, `WarmPoolSafety`, `WarmPoolExact`, `WarmPoolTheorems`,
`WarmPoolGates`, `WarmPoolPass`, `RefillBucket`, `SlowStart`). The expectations
tracker is a class whose methods are proved equal to functions of one pool's
record. The protocol is a state
machine over those functions: an API server log, an informer store and an event
handler that follow it at their own pace, and reconcile passes that list,
filter, grade, pass the gate, create and trim, with everything else
interleaving between any two API calls. A run is any sequence of enabled steps.
Its hypotheses are:

- only this controller makes sandboxes the pool's;
- a create that fails created nothing;
- passes of one pool do not overlap;
- List returns every member that the informer store shows; the code lists by
  an index on the warm-pool label, so every member carries that label;
- the controller starts on a synced informer, with no create of its own
  unhandled;
- every change reaches the informer as one event, in order: none is coalesced
  with another or replaced by a relist.

The pool's population can exceed spec.replicas in this code. It is stated as an
exact equation, with the exact condition for an overshoot, in every run. The
bound then names what the uncounted members are: own adds between the pass's
List and its gate, and listed members that the pass could not count. Two
concrete runs show that both are real. The second is easy to overlook: a cache
that still shows an adopted member as an orphan makes the pass delete it as
stale without counting it. A record that times out with creates pending loses
them; the accounting is exact again from the next moment at which no batch runs
and every own add was handled. A record that times out with deletions alone
loses nothing of it.

**Warm-sandbox adoption** (`Adoption`, `AdoptionSafety`, `AdoptionBinding`,
`AdoptionPass`, `AdoptionTheorems`, `AdoptionExact`, `AdoptionStaleRemoval`,
`AdoptionProgress`, `CandidateSearch`, `NodeSpread`, `CacheLag`). Claims and
sandboxes are histories of versions; a cache is a cursor into each history; a pass may crash
between any two writes. That ownership is never stolen, and that a pass does
not abandon what it committed, holds in every run. That a claim has at most one
warm sandbox does not: the reference removals carry no lock, and one that acts
on a stale claim erases a live assignment. The condition is exact. A removal
can lead to a claim with two live sandboxes if and only if the reference on the
server names a sandbox the claim holds or could still get. The same is done for
the cold start whose fresh read fails. Beside what never happens, it is proved
what does: which steps an undisturbed pass takes from every state, what it
writes and how it ends.

**Request bodies and uploads** (`Bytes`, `Chunked`, `ChunkedTheorems`,
`ChunkedEncoding`, `BodyReader`, `Multipart`, `MultipartTheorems`,
`MultipartGrammar`, `MultipartChunking`, `MultipartLimit`, `MultipartReader`,
`BodyDelivery`, `GrowingFile`). The readers are classes with the source's loops, each proved to
compute a function of the bytes still to come. Those functions are then
compared with one pass over the whole body and with encoders written
independently of them, in both directions: an encoding is read back, and
nothing else is read as one. They are joined, from the bytes of a request to
its parts, whatever the reads. Two limits of the code are stated exactly. A header block
whose end crosses the size limit is accepted or refused depending on where the
body was cut; the bodies that are read the same for every cutting are
characterised. A chunked trailer line longer than 1024 bytes is misread as the
end of the body if and only if its length is 1 modulo 1024, or 2 with a
carriage return before its line feed.

**Sandbox controller kernels** (`KeyList`, `Metadata`, `MetadataTheorems`,
`PodMetadata`, `RecreateBackoff`, `ServicePorts`, `WriteDeferral`). Creating a
Pod and updating one are two code paths that must agree on its labels and
annotations; the backoff before a failed Pod is replaced and the deferral of a
metadata patch are timed state machines, related to whole histories.

## Conventions

- Clocks, failures of API calls and of the system's reads and writes, and the
  contents of caches are parameters of steps or methods.
- Time is in whole nanoseconds. The refill rate is a real number: rounding of
  64-bit floats is not modelled.
- Go maps are Dafny maps; a nil map and an empty one are the same. A loop over
  a map takes its keys in any order.
- Where a comment of the source and its code differ, the code is followed: the
  comment on slowStartBatch says that a failure stops it, but the rest of that
  batch is still called.
- Every lemma turns automatic induction off: its induction is the one written.

## Model

| member | source | states |
|---|---|---|
| Expectations.Tracker.SatisfiedExpectations | extensions/controllers/warmpool_expectations.go:94-120 | the gate is open exactly when there is no record, nothing is pending in it, or it is more than five minutes old; it is then dropped, and otherwise nothing changes |
| Expectations.Tracker.TryExpectCreations | extensions/controllers/warmpool_expectations.go:127-141 | in one step: admits exactly when the gate is open and records n pending creates with this moment's time stamp, or refuses and changes nothing; a batch of none is refused |
| Expectations.Tracker.LowerCreations | extensions/controllers/warmpool_expectations.go:153-178 | lowers the pending creates by n, never below zero, keeps pending deletions, and drops a record that has nothing pending |
| Expectations.Tracker.CreationObserved | extensions/controllers/warmpool_expectations.go:146-148 | one observed add event lowers the pending creates by one |
| Expectations.Tracker.ExpectDeletion | extensions/controllers/warmpool_expectations.go:185-198 | adds this object to the pending deletions, keeps the pending creates, and renews the time stamp |
| Expectations.Tracker.DeletionObserved | extensions/controllers/warmpool_expectations.go:203-214 | removes exactly this object from the pending deletions and drops a record that has nothing pending |
| Expectations.Tracker.IsPendingDeletion | extensions/controllers/warmpool_expectations.go:219-233 | true exactly when the object is recorded as being deleted and the record is at most five minutes old; changes nothing |
| Expectations.Tracker.Forget | extensions/controllers/warmpool_expectations.go:238-242 | drops the pool's record and no other |
| WarmPoolTheorems.PopulationIsExact | extensions/controllers/sandboxwarmpool_controller.go:491-732 | in every run, timeouts included, at every moment of a create batch: the pool-owned population is exactly the counted members still there, the skipped ones, those the batch made and those an earlier batch added since the List, disjointly; and it exceeds spec.replicas if and only if the skipped and the late ones outnumber what the batch may still create plus the counted and made ones that have gone |
| WarmPoolTheorems.PopulationBound | extensions/controllers/sandboxwarmpool_controller.go:491-732 | in every run, at every moment of a create batch, if since some quiet moment (no batch, no own add unhandled) no record timed out with creates pending: the pool-owned population is at most spec.replicas plus the own adds between what the pass listed and what was handled at its gate plus the listed members it could not count that are still the pool's; the last term vanishes for a clean pass |
| WarmPoolTheorems.AccountingIsExact | extensions/controllers/sandboxwarmpool_controller.go:698-725 | in every run, under every interleaving of handler and batch, the pending count is at most the pool's own creates whose add event is unhandled plus what the running batch has yet to produce; it equals that from every quiet moment on until a record times out with creates pending, and the start is quiet, so exactness comes back after any timeout |
| WarmPoolExact.StepExact | extensions/controllers/warmpool_expectations.go:94-178 | every step keeps the pending count exact, except a gate that drops a record with creates pending |
| WarmPoolTheorems.MembersAreKnown | extensions/controllers/sandboxwarmpool_controller.go:504-732 | during a batch every pool-owned object was seen by the pass or is an own add since its List, and never both |
| WarmPoolTheorems.DeletionsRun | extensions/controllers/sandboxwarmpool_controller.go:1055-1070 | in every run, every pending deletion is under way, or its object still exists, or its delete event is unhandled, or the object was lost to another controller first: failed deletes are rolled back |
| WarmPoolTheorems.GateReopens | extensions/controllers/sandboxwarmpool_controller.go:1407-1419 | in every run, when the handler has caught up between passes, only deletions of objects that still exist, or that another controller took before they went, keep the gate shut |
| WarmPoolTheorems.WindowIsReal | extensions/controllers/sandboxwarmpool_controller.go:506-705 | a concrete run: with a clean pass and no record timed out with creates pending, one own add handled between List and gate lets the population exceed spec.replicas by one |
| WarmPoolTheorems.StaleOrphanIsReal | extensions/controllers/sandboxwarmpool_controller.go:1052-1071 | a concrete run: with no own add handled and no write refused, a cache that still shows an adopted member as an orphan has the pass delete it uncounted, and the population exceeds spec.replicas |
| WarmPoolSafety.StepKeeps | extensions/controllers/sandboxwarmpool_controller.go:491-826 | every enabled step (other controllers, informer, handler, List, filter, grading, gate, create, lowering, trimming, delete answers, clock) keeps the four parts of the invariant |
| WarmPoolSafety.FilterItemKeeps | extensions/controllers/sandboxwarmpool_controller.go:1024-1092 | each verdict of the filter, with its write succeeding or failing, keeps the invariant: nothing pool-owned drops out of sight except into the skipped set |
| WarmPoolGates.TrimIsGated | extensions/controllers/sandboxwarmpool_controller.go:734-755 | in every run, a member is trimmed only by a pass at whose gate no create and no deletion of the pool was pending, or the record was more than five minutes old; it was active then; and the pass trims at most as many as its active members exceeded spec.replicas by |
| WarmPoolGates.TrimIsInformed | extensions/controllers/sandboxwarmpool_controller.go:734-755 | unless the record had timed out, or creates were forgotten since a quiet moment, every create of the pool's own had been handled when the trimming pass went through its gate |
| WarmPoolGates.CreateIsGated | extensions/controllers/sandboxwarmpool_controller.go:602-732 | in every run, a Sandbox is created only by a pass that has the template and at whose gate nothing of the pool was pending, or the record was more than five minutes old; the pass tries at most as many creates as its counted members fell short of spec.replicas by |
| WarmPoolGates.TrimGateExact | extensions/controllers/sandboxwarmpool_controller.go:738-743 | after the trimming gate an active member can be trimmed if and only if nothing is pending or the record is more than five minutes old |
| WarmPoolGates.TrimIsGranted | extensions/controllers/sandboxwarmpool_controller.go:743-790 | with nothing outstanding the whole quota is granted: any members up to that many can be trimmed, and exactly they are then recorded and being deleted |
| WarmPoolGates.CreateGateExact | extensions/controllers/sandboxwarmpool_controller.go:698-712 | after the creating gate a Sandbox can be created if and only if nothing is pending or the record is more than five minutes old, and the batch is then pending in full |
| WarmPoolGates.CreateIsGranted | extensions/controllers/sandboxwarmpool_controller.go:698-725 | with nothing outstanding a whole batch can be created, under any new names: the log ends with those members and all of them are pending |
| WarmPoolPass.FilterExact | extensions/controllers/sandboxwarmpool_controller.go:1024-1092 | what the filter makes of a listed Sandbox, from its owner, deletion, label, staleness, the pool's strategy and the record: counted as going, deleted (recorded if a member), written as a member, counted, skipped, or left alone; and nothing else happens |
| WarmPoolPass.GradeExact | extensions/controllers/sandboxwarmpool_controller.go:530-590 | a member stuck past its grace leaves the count and its deletion is recorded and issued; any other stays |
| WarmPoolPass.AnswerExact | extensions/controllers/sandboxwarmpool_controller.go:1055-1070 | after a delete succeeds its record stays and a member counts as going; after any other answer the record is rolled back and a stuck member counts again |
| WarmPoolPass.HandlerExact | extensions/controllers/sandboxwarmpool_controller.go:1407-1419 | the add event of a member lowers the pending creates by one, the delete event of a member ends its pending deletion, and nothing else changes the record |
| WarmPoolLog.ViewLeadsToTruth | extensions/controllers/sandboxwarmpool_controller.go:504-510 | an object in a stale view of the log that still exists is, on the server, a possible later state of what the view shows |
| WarmPoolLog.MissingIsLater | extensions/controllers/sandboxwarmpool_controller.go:504-510 | an object that exists but is missing from a stale view was created after the view's cursor |
| RefillBucket.Limiter.Take | extensions/controllers/sandboxwarmpool_controller.go:318-363 | computes the grant, the wait and the bucket of the specification for this pool and touches no other pool's bucket |
| RefillBucket.Limiter.Refund | extensions/controllers/sandboxwarmpool_controller.go:369-379 | returns tokens to this pool's bucket, capped, and touches no other |
| RefillBucket.Limiter.Forget | extensions/controllers/sandboxwarmpool_controller.go:299-304 | drops this pool's bucket and no other |
| RefillBucket.GrantExact | extensions/controllers/sandboxwarmpool_controller.go:318-363 | a grant is all that is wanted, or as many whole tokens as the bucket holds by now: what it held and what the rate brought since, up to max(1, rate), and full at first; without a rate all is granted |
| RefillBucket.RefundInverts | extensions/controllers/sandboxwarmpool_controller.go:369-379 | giving back a grant undoes it: the bucket stands as it would have without it |
| RefillBucket.TakenKeeps | extensions/controllers/sandboxwarmpool_controller.go:328-357 | tokens stay within [0, capacity]; the grant is what the refilled bucket lost; a short grant leaves less than one token and a positive wait |
| RefillBucket.WaitIsExact | extensions/controllers/sandboxwarmpool_controller.go:354-362 | after a short grant the next call is granted at least one if and only if it comes no sooner than the returned wait |
| RefillBucket.RefillBound | extensions/controllers/sandboxwarmpool_controller.go:318-379 | over every window and every sequence of calls, grants minus refunds are at most max(1, rate) + rate * length, and that much again for each deletion of the pool in the window |
| SlowStart.Batches | extensions/controllers/sandboxwarmpool_controller.go:1487-1520 | calls each index of a contiguous prefix once; everything before the last batch succeeded, and is the total of the batches so far, each twice the last, or all; at most 2 * before + initial calls; successes counts the successful calls; it reports a failure if and only if some call failed or it was cancelled at the round it reached with calls still to make; with no initial batch it calls nothing |
| AdoptionTheorems.NeverStolen | extensions/controllers/sandboxclaim_controller.go:1478-1575 | in every run, with any staleness, crashes and reference removals, a sandbox whose controller is a claim keeps that controller as long as it exists |
| AdoptionTheorems.OneWarmSandbox | extensions/controllers/sandboxclaim_controller.go:1377-1476 | in every run whose reference removals hit no live assignment, no claim controls two live adopted sandboxes, and the one it controls is the one recorded on it |
| AdoptionExact.RemovalExact | extensions/controllers/sandboxclaim_controller.go:2295-2364 | in every state that keeps the binding invariant, so in every state of a run with harmless removals, the unlocked removal of the reference is harmless (the server's reference names no live sandbox that the claim controls or could still adopt) if and only if no continuation whose removals are harmless ends with a claim that controls two live adopted sandboxes |
| AdoptionExact.HarmfulRemovalDoubles | extensions/controllers/sandboxclaim_controller.go:2295-2364 | after any harmful removal, and for any unused sandbox name, a continuation whose removals are harmless ends with the claim controlling both the sandbox whose reference was removed and the new one, live and adopted |
| AdoptionExact.ColdCreateExact | extensions/controllers/sandboxclaim_controller.go:677-699 | a cold create leaves the claim with a cold and a warm sandbox if and only if the sandbox recorded on the server is one it controls |
| AdoptionExact.BlindColdStartDoubles | extensions/controllers/sandboxclaim_controller.go:677-699 | whenever the cache shows a claim from before its assignment, a pass whose fresh read fails can leave the claim with a cold sandbox beside its warm one |
| AdoptionTheorems.FreshIsCareful | extensions/controllers/sandboxclaim_controller.go:2295-2364 | a run in which every removal finds on the server the reference it was computed from, or none, is one whose removals hit no live assignment |
| AdoptionStaleRemoval.StaleRemovalBreaksBinding | extensions/controllers/sandboxclaim_controller.go:2295-2364 | a run from the start with no earlier removal: a removal computed from a stale claim is enabled and harmful, and careful steps after it end with the claim controlling two live adopted sandboxes |
| AdoptionTheorems.TransferIsWrittenAhead | extensions/controllers/sandboxclaim_controller.go:1382-1472 | every step that makes a claim the controller of an existing sandbox is a transfer of a sandbox that was recorded on that claim before; in a careful run it is the current record |
| AdoptionTheorems.PassIsNotAbandoned | extensions/controllers/sandboxclaim_controller.go:1671-1767 | in every run, harmful removals included, a pass that committed an assignment and ran to its end adopted that sandbox, cleared that reference, or failed with it still recorded; a pass moves at most the sandbox it adopted |
| AdoptionPass.StepPass | extensions/controllers/sandboxclaim_controller.go:1377-1767 | every step keeps, for every claim, that its pass moved at most one sandbox and works only on the one it committed, which stays recorded until that pass clears it |
| AdoptionTheorems.CheckedColdCreateIsAlone | extensions/controllers/sandboxclaim_controller.go:677-691 | in every run with harmless removals, a cold create after a successful fresh read finds no live adopted sandbox of the claim |
| AdoptionProgress.ColdStartExact | extensions/controllers/sandboxclaim_controller.go:677-699 | from every state of a search, the fresh read lets the pass create if and only if the claim on the server is not gone and records nothing; then for every unused name a sandbox of the claim's own is made, no other sandbox changes, and in a bound state the claim has no other |
| AdoptionProgress.ColdStartCreates | extensions/controllers/sandboxclaim_controller.go:668-699 | a claim that records nothing, in the cache and on the server, ends an undisturbed pass that finds no candidate with a sandbox made for it |
| AdoptionProgress.OwnIsFound | extensions/controllers/sandboxclaim_controller.go:2275-2295 | a pass whose claim version records a sandbox that the cache shows as its own ends with it adopted, and writes nothing |
| AdoptionProgress.ReferenceIsAdopted | extensions/controllers/sandboxclaim_controller.go:2296-2342 | a recorded sandbox that is free is transferred to the claim |
| AdoptionProgress.DeadReferenceIsRemoved | extensions/controllers/sandboxclaim_controller.go:2300-2364 | a reference to a sandbox that the cache does not know, or shows as another claim's or as not adoptable, is removed from the claim, and the pass searches |
| AdoptionProgress.LateTransferIsSettled | extensions/controllers/sandboxclaim_controller.go:1671-1767 | a transfer that is not in time is settled on a fresh read, in exactly these steps: already the claim's, it ends adopted; still free, it is transferred; otherwise the reference is cleared if it is still there |
| AdoptionProgress.CandidateIsRecorded | extensions/controllers/sandboxclaim_controller.go:1400-1430 | a pass that found a candidate records it under the claim's lock, on a fresh read if its own was stale; unless the claim is gone or records another by then, when it writes nothing |
| AdoptionProgress.CandidateIsAdopted | extensions/controllers/sandboxclaim_controller.go:1377-1470 | a pass that found a free candidate ends with it adopted: recorded on the claim and controlled by it |
| AdoptionSafety.StepCore | extensions/controllers/sandboxclaim_controller.go:1377-1767 | every step keeps the core invariant: ordered histories, transfers only of recorded sandboxes and only against the version they were read at |
| AdoptionBinding.StepBind | extensions/controllers/sandboxclaim_controller.go:1377-1767 | every step, a removal only if harmless, keeps the binding invariant: what was ever recorded on a claim is recorded now or dead to it |
| AdoptionBinding.LookedUpIsDead | extensions/controllers/sandboxclaim_controller.go:2256-2364 | a recorded sandbox that the cache shows as gone, another's or unadoptable can no longer be the claim's |
| AdoptionBinding.TransferBind | extensions/controllers/sandboxclaim_controller.go:1520-1575 | the transfer under the sandbox's lock, refused or not, keeps the binding |
| AdoptionBinding.ResolveBind | extensions/controllers/sandboxclaim_controller.go:1671-1736 | the fresh read after a refused transfer, in each of its outcomes, keeps the binding |
| AdoptionBinding.AssignBind | extensions/controllers/sandboxclaim_controller.go:1599-1663 | committing an assignment under the claim's lock, rereading after a conflict, and committing again keep the binding |
| AdoptionBinding.ClearBind | extensions/controllers/sandboxclaim_controller.go:1742-1767 | clearing a reference under the claim's lock after a fresh read keeps the binding |
| CandidateSearch.GetCandidate | extensions/controllers/sandboxclaim_controller.go:1166-1375 | keys are taken off one by one, each time the one the strategy picks, until a ready usable or an unreadable one or none is left; a ready one is returned, an unreadable one fails the search, otherwise the first usable one is returned; all others but the dropped go back behind the rest in order, with the node last seen; the pending count is exact; the search ends |
| CandidateSearch.SearchLosesNothing | extensions/controllers/sandboxclaim_controller.go:1166-1375 | a key missing afterwards is the one returned, or its sandbox was examined and is gone, not adoptable, or stale under Recreate; what is returned is adoptable, networked and not stale under Recreate, by a known strategy; unready only if no usable one is ready; none without failure only if none is usable; failed exactly when an examined one was unreadable |
| CandidateSearch.Queue.Push | extensions/controllers/queue/simple_sandbox_queue.go:122-138 | a new key goes to the end; a known one keeps its place and takes the new node; one key per sandbox |
| CandidateSearch.Queue.Remove | extensions/controllers/queue/simple_sandbox_queue.go:82-106 | removes exactly the key of this sandbox, order kept |
| CandidateSearch.Queue.Pop | extensions/controllers/queue/simple_sandbox_queue.go:165-208 | takes off exactly the key that the strategy picks, order kept; nothing only from an empty queue |
| NodeSpread.PickSmart | extensions/controllers/sandboxclaim_controller.go:1228-1278 | picks the oldest key on a node with the most keys, and the oldest of all when none is scheduled |
| NodeSpread.SpreadIsOptimal | extensions/controllers/sandboxclaim_controller.go:1250-1274 | taking any number of scheduled keys this way leaves the smallest possible greatest count per node among all ways to take as many |
| NodeSpread.ExcessWithout | extensions/controllers/sandboxclaim_controller.go:1253-1271 | taking a key lowers the number of keys above any level m by one exactly when its node holds more than m |
| CacheLag.DelayIsExact | extensions/controllers/sandboxclaim_controller.go:119-128 | the delay is min(200ms * 2^(n-1), 5s) for every n, although the 64-bit shift wraps |
| CacheLag.LargeShift | extensions/controllers/sandboxclaim_controller.go:123-126 | a wrapped shift is not positive or at least 2^45 nanoseconds |
| CacheLag.NthAttemptWaits | extensions/controllers/sandboxclaim_controller.go:152-170 | over every history, the n-th attempt in a row of one claim gets the n-th delay; another UID or a deletion starts again |
| CacheLag.AttemptMap.Increment | extensions/controllers/sandboxclaim_controller.go:152-162 | counts one more attempt for this UID, or the first for a new one; no other key changes |
| CacheLag.AttemptMap.Delete | extensions/controllers/sandboxclaim_controller.go:166-170 | drops this key's count and no other |
| BodyReader.Reader.ReadPlain | examples/hyperlight-sandbox/main.py:219-226 | computes the specified read of a body of declared length, with the reader's new state |
| BodyReader.Reader.SkipTrailers | examples/hyperlight-sandbox/main.py:238-247 | the loop over trailer lines computes the specified end and position |
| BodyReader.Reader.ReadChunked | examples/hyperlight-sandbox/main.py:228-255 | computes the specified read of a chunked body, with size lines, trailers, the line after a chunk, and every failure |
| BodyReader.Reader.Read | examples/hyperlight-sandbox/main.py:175-183 | computes the specified read with the limit, refused before or after reading |
| BodyReader.Reader.ReadAll | examples/hyperlight-sandbox/main.py:185-189 | returns all of the content and leaves the connection exactly past the body when the body is well formed and within the limit; 413 when it is past the limit; an error when it is malformed or cut off |
| BodyReader.Reader.Drain | examples/hyperlight-sandbox/main.py:191-211 | computes the specified drain with its budget |
| ChunkedTheorems.ReadTakes | examples/hyperlight-sandbox/main.py:219-255 | a read of any positive size takes what it returns off the front of the content still to come, or fails with the error the whole body has, and never seems well after a failure |
| ChunkedTheorems.ReadsDeliver | examples/hyperlight-sandbox/main.py:175-183 | whatever reads are made, with whatever outcomes, the bytes returned are within the limit and are the beginning of the content, and the reader keeps its place in the body |
| ChunkedTheorems.ReadsFinish | examples/hyperlight-sandbox/main.py:175-189 | a well-formed body within the limit is read to its end by any positive sizes once there are more reads than bytes, leaving the connection exactly past it |
| ChunkedTheorems.DrainExact | examples/hyperlight-sandbox/main.py:191-211 | after any reads with any outcomes, also a 413, drain returns true if and only if the body is well formed and what is left is within the budget, and the connection then stands exactly past the body |
| ChunkedEncoding.SizeIsRead | examples/hyperlight-sandbox/main.py:232-236 | blanks, 1 to 15 hex digits of either case, blanks, an optional extension, any carriage returns and a line feed give the number of the digits |
| ChunkedEncoding.OnlySizeLines | examples/hyperlight-sandbox/main.py:232-236 | the converse: a line that gives a size is of that form, written out over the bytes, and its digits have that value |
| ChunkedEncoding.OnlyTrailers | examples/hyperlight-sandbox/main.py:238-247 | the bytes skipped to the end of a body are lines that are not blank, within the budget, and then a blank line, or a line that is misread as one |
| ChunkedEncoding.TrailersExact | examples/hyperlight-sandbox/main.py:238-247 | trailer lines of any length are skipped to their true end if and only if they fit the budget and none is misread |
| ChunkedEncoding.MisreadIsReal | examples/hyperlight-sandbox/main.py:241-246 | every trailer line of 1025 bytes ends the body early and leaves the true blank line unread |
| ChunkedEncoding.RoundTrip | examples/hyperlight-sandbox/main.py:228-255 | every message of the encoder is decoded to its chunks' data, with the connection exactly past it, if its trailers are within the budget, and else refused |
| ChunkedEncoding.MisreadExact | examples/hyperlight-sandbox/main.py:228-255 | a message that ends in a blank line is decoded to its data and its true end if and only if its trailers fit the budget and none is misread |
| ChunkedEncoding.OnlyMessages | examples/hyperlight-sandbox/main.py:228-255 | the converse: whatever is decoded was an accepted message of that data |
| ChunkedEncoding.BodyExact | examples/hyperlight-sandbox/main.py:228-255 | a chunked body gives this content and ends at this place of the connection if and only if what was taken off is an accepted message of that content |
| ChunkedEncoding.DrainedIsMessage | examples/hyperlight-sandbox/main.py:191-211 | when draining a new chunked body, after any reads with any outcomes, reports its end, the bytes taken off the connection are a whole accepted message |
| ChunkedEncoding.ReadsInvert | examples/hyperlight-sandbox/main.py:175-255 | for every encoding within the limit and every long enough sequence of positive read sizes the reads concatenate to the chunks' data |
| GrowingFile.Upload.Write | examples/hyperlight-sandbox/main.py:282-293 | grows the file as specified and leaves what was written before followed by all of the data, although the system may write less than asked each time |
| GrowingFile.Upload.Finish | examples/hyperlight-sandbox/main.py:295-296 | cuts the file to exactly the bytes written |
| GrowingFile.GrowthBound | examples/hyperlight-sandbox/main.py:262-289 | for every sequence of writes the space is at least what was written and at most twice that plus a step; at most total/step + 2 allocations, one fewer when no size was declared or it was not exceeded, and then no more than doubling takes when one was declared |
| MultipartReader.MultipartStream.Fill | examples/hyperlight-sandbox/main.py:309-313 | appends the next piece, or fails with what the body reader raised or as ended early |
| MultipartReader.MultipartStream.ReadUntil | examples/hyperlight-sandbox/main.py:315-323 | computes the specified bounded search, with the buffer it leaves |
| MultipartReader.MultipartStream.CopyUntil | examples/hyperlight-sandbox/main.py:325-335 | everything passed to write, in order, and the buffer left, are those of the specified copy |
| MultipartReader.MultipartStream.NextPart | examples/hyperlight-sandbox/main.py:344-370 | computes the specified reading of what follows a delimiter: closing, padding, marker, empty or full header block |
| MultipartReader.MultipartStream.Parts | examples/hyperlight-sandbox/main.py:337-377 | yields the parts and the end of the specified reading |
| MultipartTheorems.CopyAgrees | examples/hyperlight-sandbox/main.py:325-335 | what is copied is exactly what stands before the first token in the whole body, and what is left is what stands after it; without a token it fails, having written all that could not begin one |
| MultipartTheorems.ReadAgrees | examples/hyperlight-sandbox/main.py:315-323 | a bounded read agrees with a search of the whole body as soon as the block and its token but one byte fit the limit; a block past the limit, or none, fails with the right error |
| MultipartTheorems.LimitZone | examples/hyperlight-sandbox/main.py:315-323 | for every body whose block fits but whose token crosses the limit, one delivery succeeds and another is refused |
| MultipartTheorems.RoundTrip | examples/hyperlight-sandbox/main.py:337-377 | for every list of parts, preamble, padding and epilogue, and every cutting into non-empty reads, exactly those header blocks and contents come out, in order |
| MultipartGrammar.OnlyEncodings | examples/hyperlight-sandbox/main.py:337-377 | the converse, for every body, delivery and fault: the parts yielded stood in the body as the encoder writes them, behind a preamble; on success only the closing delimiter and an epilogue follow; on failure the last part may be one whose delimiter never came |
| MultipartChunking.BetweenTheTwo | examples/hyperlight-sandbox/main.py:299-377 | for every body, well formed or not, and every fault after it: every delivery gets at least as far as the one byte by byte and at most as far as the one at once, with the same parts up to where the header limit stops the lesser one |
| MultipartChunking.CutsDoNotMatter | examples/hyperlight-sandbox/main.py:299-377 | any two deliveries of a body yield the same parts and the same end, except that one that runs into the header limit stops with a prefix of the parts |
| MultipartChunking.CutsExact | examples/hyperlight-sandbox/main.py:299-377 | all deliveries of a body read the same if and only if the one byte by byte and the one at once do |
| MultipartLimit.ReadExact | examples/hyperlight-sandbox/main.py:315-323 | one bounded read has the same outcome for every delivery if and only if the block is past the limit or fits it with all of its token but one byte |
| MultipartLimit.LimitExact | examples/hyperlight-sandbox/main.py:299-377 | all deliveries of a body give equal parts and an equal end if and only if its preamble and all its header blocks are off the limit, or the preamble is not and even at once the limit stops the reader before the first part |
| BodyDelivery.DeliveredWhole | examples/hyperlight-sandbox/main.py:175-183 | a well-formed body within the limit, framed by length or by chunks, is delivered whole by reads of any positive sizes, in non-empty pieces, and the connection then stands exactly past it |
| BodyDelivery.PartsOfRequest | examples/hyperlight-sandbox/main.py:175-377 | end to end: whenever the content still to come on a connection is the encoding of a multipart body within the limit, then for every sequence of read sizes the multipart reader on those reads yields exactly the parts that were encoded, and the connection stands exactly past the body |
| BodyDelivery.ChunkedRequest | examples/hyperlight-sandbox/main.py:175-377 | the same from the bytes of the request: any chunking of the encoding of any parts, with trailers that fit and are not misread, gives those parts back |
| BodyDelivery.PlainRequest | examples/hyperlight-sandbox/main.py:175-377 | the same for a request of declared length |
| MetadataTheorems.UpdateMeetsCreate | controllers/sandbox_controller.go:2054-2192 | from any labels and annotations, an update leaves under every managed key the value that creating the Pod writes, a missing key read as empty |
| MetadataTheorems.UpdateTouchesNothingElse | controllers/sandbox_controller.go:2054-2192 | under every other key it removes exactly what was recorded as propagated and changes nothing else |
| MetadataTheorems.OneUpdateIsEnough | controllers/sandbox_controller.go:1947-2192 | a second update changes nothing, and a Pod just created needs none, for keys without commas |
| MetadataTheorems.LeavesWithTemplate | controllers/sandbox_controller.go:2079-2106 | from settled metadata, a change of the Sandbox removes every label that only the old template had and the new one does not manage, and likewise every annotation; and it removes no key that neither template has |
| MetadataTheorems.CreatedLabelIs | controllers/sandbox_controller.go:1947-1972 | the labels of a new Pod, key by key and by the kind of owner: the template's free keys, the name hash, claim-uid only for a claim, warm-pool-sandbox only for a pool, the template hash for any extension owner, created-by normalised; and nothing else |
| MetadataTheorems.CreatedAnnotationIs | controllers/sandbox_controller.go:1973-1992 | its annotations: the template's free keys, the claim's name only for a claim, the two lists of propagated keys; and nothing else |
| MetadataTheorems.CreateSettles | controllers/sandbox_controller.go:1947-1992 | what a Pod is created with holds every value that is due |
| MetadataTheorems.LabelsLeft | controllers/sandbox_controller.go:2054-2124 | what an update leaves as any label, key by key: presence and value; the extension keys by the kind of owner alone |
| MetadataTheorems.AnnotationsLeft | controllers/sandbox_controller.go:2125-2192 | what an update leaves as any annotation, key by key: presence and value |
| KeyList.NamesOfList | controllers/sandbox_controller.go:2175-2190 | the comma list of a set of keys names exactly that set again, for keys without commas |
| KeyList.NamesExact | controllers/sandbox_controller.go:2083-2086 | a list names exactly what stands between its commas and ends without a comma inside, but for the empty name |
| PodMetadata.ReconcileOwnedKeys | controllers/sandbox_controller.go:1274-1288 | the keys hold exactly what is wanted, all others are unchanged, and a change is reported exactly when there is one |
| PodMetadata.CopyTemplate | controllers/sandbox_controller.go:2066-2078 | in whatever order the template's keys come, exactly those not reserved are copied, and a change is reported exactly when there is one |
| PodMetadata.Scrub | controllers/sandbox_controller.go:2079-2106 | deletes exactly the recorded names that left the template or were never allowed |
| PodMetadata.Pod.Update | controllers/sandbox_controller.go:2054-2192 | brings the Pod to the specified metadata and reports a change whenever there is one and, for keys without commas, only then |
| RecreateBackoff.DelayForFailures | controllers/sandbox_controller.go:2560-2569 | the wait after the k-th failure is min(5s * 2^(k-1), 5m) |
| RecreateBackoff.Tracker.Delay | controllers/sandbox_controller.go:2468-2483 | returns how long the next create is still held back, zero when it is not |
| RecreateBackoff.Tracker.ObserveRunning | controllers/sandbox_controller.go:2500-2520 | records since when this Pod runs, drops the entry after a whole reset window, and returns what is left of it |
| RecreateBackoff.Tracker.ResetRunningObservation | controllers/sandbox_controller.go:2524-2534 | forgets a Running observation and keeps the failures |
| RecreateBackoff.Tracker.RecordFailure | controllers/sandbox_controller.go:2540-2558 | counts a failure, as the first one when this Pod ran a whole reset window, and holds the next create back for its wait |
| RecreateBackoff.Tracker.Clear | controllers/sandbox_controller.go:2573-2580 | drops this Sandbox's entry and no other |
| RecreateBackoff.BackoffIsExact | controllers/sandbox_controller.go:1913-1943 | over every history with a nondecreasing clock, a create is held back exactly while the incident has k > 0 failures and the k-th wait has not passed since the last of them |
| RecreateBackoff.AlwaysKnows | controllers/sandbox_controller.go:2500-2558 | the count starts again only by a clear, or at a Pod whose Running observation began at least ten minutes earlier with nothing else observed in between |
| RecreateBackoff.FailureHoldsBack | controllers/sandbox_controller.go:2540-2558 | after a failure no create is allowed before the full wait for its number has passed, and one is from then on |
| ServicePorts.ForSandbox | controllers/sandbox_controller.go:1358-1440 | exactly the declared non-zero pairs of port and protocol, once each and in order; explicit names kept, every name non-empty and different, generated ones not among those taken |
| ServicePorts.DeclaredExactly | controllers/sandbox_controller.go:1368-1403 | a pair is declared if and only if a container offers that port, with its protocol or TCP, or an init container that always restarts does; a name given by a container is not taken away by an init container |
| ServicePorts.CollectedIsNamed | controllers/sandbox_controller.go:1364-1397 | an explicit name was declared for its pair and belongs to no other, and a pair has none only when other pairs hold all names declared for it |
| ServicePorts.FirstNameStays | controllers/sandbox_controller.go:1383-1395 | a name once given to a pair is kept, whatever is declared later |
| ServicePorts.GenerateName | controllers/sandbox_controller.go:1442-1453 | the base name if it is free, else the one with the least suffix from 2 on that is; it ends because rendered names differ and only so many are taken |
| ServicePorts.OneResult | controllers/sandbox_controller.go:1408-1422 | the result does not depend on the order in which the map yields its keys |
| WriteDeferral.WritesAtDeadline | controllers/sandbox_controller.go:449-483 | however many passes there were, also ones that failed before they compared, while the write has not gone through the next pass that sees the drift writes if and only if a window has passed since the drift was first seen, which the first sight itself never does; a deferring pass asks to be repeated no later than that; the window is at most a second |
| WriteDeferral.OtherPasses | controllers/sandbox_controller.go:466-483 | a pass that may not defer writes a change at once, one that finds none writes nothing; neither asks to be repeated, and both forget what was pending unless they failed |
| WriteDeferral.Clock.Observe | controllers/writebehind_requeue.go:58-79 | first sight starts the window; later ones report it due exactly from its end on, or what is left; no other key changes |
| WriteDeferral.Clock.Clear | controllers/writebehind_requeue.go:82-86 | drops this key's pending deferral and no other |
| WriteDeferral.Deferral.ShouldWrite | controllers/writebehind_requeue.go:106-116 | asks the clock once, and remembers a deferral with its shortest wait |
| WriteDeferral.Deferral.Reconcile | controllers/sandbox_controller.go:466-483 | the pass writes, requeues and clears the clock as specified |

## Left out

- The Kubernetes client, informers, work queues, webhooks, status conditions, events, metrics and tracing: they are represented only by the logs, cursors, versions and locks above.
- PopulationBound: says nothing about a batch let through by a record that timed out with creates pending, because such a record is dropped with all it knew; PopulationIsExact covers that batch too.
- OneWarmSandbox: holds for runs whose reference removals are harmless; it is false of others, and RemovalExact gives the exact condition on each removal.
- BlindColdStartDoubles: shows that the unchecked cold start can double a claim; ColdCreateExact is the exact condition.
- RefillBound: in real arithmetic, without the rounding of floats and without the 32-bit width of a count.
- Deferred replenishment after a drop of members (observeMembersForReplenish) and the readiness grace period: they only delay or skip a pass, which the protocol already allows at any point.
- The legacy assignment label, the sandbox name in a claim's status, namespaces other than the claim's, and the adoption of sandboxes without a pool: they add cases of the same shape.
- Concurrent use of one candidate queue during a search: a search is modelled with nothing added meanwhile, as its termination needs.
- The choice of framing from the request's headers, and the parsing of a part's headers by the email library: short branches and foreign code.
- A write callback that fails in the middle of a copied part: the copy then ends with that error.
- Keys with commas in Pod metadata: Kubernetes does not admit them, and the fixed point needs that.
- Label and annotation values are not validated, and the name hash is a parameter.
- The sandbox router, the clients, the other examples, template and volume handling, expiry, and network policies: easy members or I/O.
