# Verification of the Confluence world, its verifier and its runner

Agent Evolution Gym puts a language-model agent to work on a simulated Confluence world, lets a
trusted editor interfere, and judges the outcome by comparing two snapshots of the world. This
project models the parts that have to be right for that judgement to mean anything, and proves
what they promise:

- **The world.** A page store with append-only histories and compare-and-swap writes, the REST
  routes and the permission resolver over it, and what holds over every interleaving of any number
  of clients and human edits: no lost update, read-your-writes, complete paging.
- **The judge.** Snapshot diffs, assertion lists and verdicts. For each verifier the project says
  exactly which pairs of snapshots it accepts, and for a single target that acceptance is one store
  write.
- **The tasks.** Section edits on Markdown bodies as a split, an exchange and a join; exactly when two
  edits commute and when an edit leaves its neighbours alone; and, end to end, exactly when the
  concurrent-edit and preservation tasks are completed by the agents they are meant for.
- **The runner.** The one-shot hook that injects the human edit; the agent loop under budgets with an
  arbitrary client, executor, sink and clock, which may answer or raise what they like; the
  trajectory grammar; and the recorder.
- **Integrity.** The JSON-safety traversal on object graphs, the length-framed directory digest,
  package hashes, split manifests.

Each module follows one part of the source. Objects that the source changes in place are classes
whose methods are proved equal to functions on states; what the source promises is then proved of
those functions over all states, requests, schedules and runs. `Options`, `Ordering` and `Statuses` hold what
modules share; `Protocol`, `Grants`, `Listing`, `Commuting`, `Trajectory`, `Script`, `Verdicts` and
`Flags` hold theorems.

Facts about the code that the proofs bring out:

- `replace_section` is documented to leave every other section byte-stable. It does so exactly when
  the new text keeps to itself (`Sections.ReplaceFrames`).
- An append and a replacement of different sections do not always commute; for notes of one line the
  condition is exact (`Commuting.LineNotesCommute`).
- `update_page` bumps a page before the history checks its identity, so an update that fails there
  leaves the page changed; no other failure changes anything (`Store.FailedUpdateExact`).
- The concurrency verifier does not constrain the history entry between the old history and the
  final page: it does not see who wrote it (`Verdicts.MiddleEntryIsFree`).
- A preservation task on a world with a single page has an empty forbidden list, which the verifier
  takes for a missing configuration (`Scenarios.PreservationCompletes`).
- A diff cannot tell a removed field from a field set to null, and it reports every common resource
  that is not a mapping (`StateDiff.ReplayExact`, `StateDiff.NoFieldChanges`).
- A note that brings along a section of the heading to be replaced is lost from the expected body of its
  own task (`Scenarios.CapturedNoteExample`); a replacement that brings along a section asks for a
  fragment to survive that was never there (`Scenarios.UnfocusedExample`).
- The recorder counts flushes by path, so two paths to one file write every event twice, although
  `flush` is documented not to duplicate lines (`Recorder.EachEventOnce`, `Recorder.TwoPathsDouble`).
- A tool call is charged before its event is recorded. If the sink refuses the raw arguments, one more
  call is charged than recorded; if the executor returns something that is no result, the call stays
  unanswered; and a client that raises a budget error of its own makes a run time out on time
  (`Agent.RefusedCallExample`, `Agent.NoResultExample`, `Agent.RaisedTimeoutExample`).
- The digest of an artifact does not say whether it is a file or a folder, so a package still verifies
  after the one has taken the place of the other (`Packages.VerifiesExactly`,
  `Packages.FilePassesForFolder`, `Packages.SaveThenSwap`).
- The human edit waits for a `get_page` of the target. Searches and histories show whole pages with
  their versions too, so an agent that reads by them and writes at once finishes before any human edit
  and fails a task that it carried out as asked (`Scenarios.EditMadeExactly`,
  `Scenarios.HistoryThenWriteFails`, `Scenarios.SearchThenWriteFails`).
- The fixtures list writers under a key that the resolver does not know: beside administrators, only the
  owner of a page may write it, whoever is listed (`Grants.FixtureAccess`).
- An appended section is found under its heading exactly when the body ends in an even number of
  newlines (`Sections.AppendExact`, `Sections.CleanEndIsEven`, `Sections.AppendRunsOn`).
- Going by more names can take access away: page entries that only a new name brings in have to grant
  as well (`Permissions.AccessMonotoneExactly`, `Permissions.NewNameTakesAccess`).
- A run that met any tool error, a 409 included, never has status PASS (`Outcomes.RunEndsExactly`);
  end-to-end results here are therefore about verification, not about status.

## Model

| member | source | states |
|---|---|---|
| Store.ConfluenceStore.UpdatePage | src/agentgym/world/store.py:166-201 | the guarded update in place: an unknown page or a stale version fails before any change; otherwise the changes are applied (keywords over the mapping), the version rises and the new page is appended to its history |
| Store.ConfluenceStore.AppendVersion | src/agentgym/world/store.py:151-164 | one entry is appended, a missing history is created, an entry of another page is refused without a change |
| Store.ConfluenceStore.BumpVersion | src/agentgym/world/store.py:144-149 | exactly one page changes, and only in its version, by one; an unknown page is an error that changes nothing |
| Store.ConfluenceStore.AddPage | src/agentgym/world/store.py:129-140 | a new page with a fresh history of one entry; an existing id is refused without a change |
| Store.SnapshotUndoes | src/agentgym/world/store.py:92-127 | the round trip: taking a snapshot, doing anything at all, and restoring it gives the old world back |
| Store.ConfluenceStore.Restore | src/agentgym/world/store.py:112-127 | after a restore the five collections and the identity fields are those of the snapshot |
| Store.ConfluenceStore.GetPageVersions | src/agentgym/world/store.py:203-206 | on a coherent world: every version of the page, oldest first, one entry for each version number, ending in the live page; empty exactly for an unknown page |
| Store.ConfluenceStore.SetPage | domains/confluence/scenarios/_common.py:68-89 | the fixture edit rewrites the page and exactly the history entries that carry its current version |
| Store.UpdateOnCoherent | src/agentgym/world/store.py:166-201 | on a coherent world an update succeeds if and only if the page exists and the expected version is current; success is one more version of exactly that page; failure changes nothing |
| Store.UpdateExact | src/agentgym/world/store.py:166-201 | on any world: which error an update fails with and when, and what the page becomes field by field, keywords over the mapping over what it had |
| Store.FailedUpdateExact | src/agentgym/world/store.py:182-201 | on any world a failed update leaves the state alone exactly when what failed is not the identity check behind the bump |
| Store.FailedUpdateExample | src/agentgym/world/store.py:182-201 | a concrete world on which a failed update leaves the page bumped |
| Store.AddOnCoherent | src/agentgym/world/store.py:129-140 | adding fails exactly on an existing id; the world stays coherent if and only if the page starts at version 1 |
| Store.SetOnCoherent | domains/confluence/scenarios/_common.py:68-89 | fixture edits keep the initial history coherent and add no version |
| Store.StepKeepsCoherence | src/agentgym/world/store.py:92-201 | every store operation keeps the world and all snapshots coherent |
| Store.RunKeepsCoherence | src/agentgym/world/store.py:92-201 | over every run of adds, updates, snapshots and restores: version equals history length, entry i carries version i+1, the last entry is the page; snapshots never change |
| Store.HistoriesOnlyGrow | src/agentgym/world/store.py:151-201 | between restores every history only grows by extension and no page is lost |
| StateDiff.ComputeFieldChanges | src/agentgym/verifier/state_diff.py:38-57 | the loop over the sorted union of names yields exactly the fields that differ, with null for a missing side |
| StateDiff.ComputeUpdates | src/agentgym/verifier/state_diff.py:92-112 | the loop over the common ids yields the updated ids in sorted order and the changes of each |
| StateDiff.ComputeCompare | src/agentgym/verifier/state_diff.py:72-119 | one diff for every kind of either snapshot |
| StateDiff.NoFieldChanges | src/agentgym/verifier/state_diff.py:38-57 | two mappings have no field changes exactly when they are equal; anything else always reports one |
| StateDiff.DiffExact | src/agentgym/verifier/state_diff.py:84-112 | created, deleted and updated are exact, and an equal non-mapping still counts as updated |
| StateDiff.DiffSwap | src/agentgym/verifier/state_diff.py:38-119 | comparing in the other direction swaps created with deleted and old with new and negates every version delta |
| StateDiff.FieldChangesExact | src/agentgym/verifier/state_diff.py:38-57 | a field is named in a change if and only if the two sides differ in it or only one has it; the old value comes first, then the new one, null for a missing side |
| StateDiff.WholeValueChange | src/agentgym/verifier/state_diff.py:38-45 | values that are not both mappings are reported whole, the old one first |
| StateDiff.CompareExact | src/agentgym/verifier/state_diff.py:72-119 | a comparison covers every kind of either snapshot, and tells of each what is only in the final one, only in the initial one, and different in both |
| StateDiff.CompareSwap | src/agentgym/verifier/state_diff.py:72-119 | comparing in the other direction swaps the sides of every kind |
| StateDiff.DeltaExact | src/agentgym/verifier/state_diff.py:60-69 | the version delta is the new version minus the old one, and there exactly when both sides have a number |
| StateDiff.ReplayExact | src/agentgym/verifier/state_diff.py:38-57 | replaying the recorded changes rebuilds the final resource if and only if no field became null, since a diff writes a removed field and a null field alike |
| StateDiff.ReplayExample | src/agentgym/verifier/state_diff.py:38-57 | a concrete pair of resources that replaying does not rebuild |
| Permissions.CollectEntries | domains/confluence/world/api/routes.py:141-176 | the three loops collect the entries of the sections, of the actor's own names and of the resource, in this order |
| Permissions.CollectUnder | domains/confluence/world/api/routes.py:158-168 | the loop over the actor's names collects, bound to the actor, what each of them has stored |
| Permissions.NamedMonotone | domains/confluence/world/api/routes.py:210-219 | a value that names an actor still does when the actor goes by more names, at any depth of nesting |
| Permissions.SharedMonotone | domains/confluence/world/api/routes.py:222-258 | more names never take away what a shared permission value grants, however it nests |
| Permissions.AccessMonotoneExactly | domains/confluence/world/api/routes.py:118-139 | an actor who may access a page and then goes by more names keeps that access if and only if the new names make the actor administrator or owner, or no side, page or space, has entries for those names of which none grants |
| Permissions.NewNameTakesAccess | domains/confluence/world/api/routes.py:118-176 | a concrete world on which going by one more name loses access to a page: the entry that the name brings in turns the or of page and space into an and |
| Permissions.CreateMonotone | domains/confluence/world/api/routes.py:109-116 | more names never take away the permission to create a page in a space |
| Permissions.SharedWriteImpliesRead | domains/confluence/world/api/routes.py:222-258 | a shared value that grants writing grants reading, however deeply it nests |
| Permissions.WriteImpliesRead | domains/confluence/world/api/routes.py:118-139 | over all worlds and permission values, who may write a page may read it |
| Permissions.AccessUnaffected | domains/confluence/world/api/routes.py:118-176 | changing titles, bodies, versions and histories, and adding other pages, never changes who may do what with a page |
| Grants.SharedExact | domains/confluence/world/api/routes.py:222-258 | exactly what a shared mapping grants, key by key and with every key named: under a name of the actor, in a list of actors for the operation, or in a nested permission |
| Grants.ScopedExact | domains/confluence/world/api/routes.py:261-295 | exactly what a value under a name of the actor grants, with every token and flag named |
| Grants.ReadersNeverWrite | domains/confluence/world/api/routes.py:222-258 | a mapping with nothing but lists of readers never lets anybody write |
| Grants.ListedMay | domains/confluence/world/api/routes.py:246-251 | naming the actor under any of the eight keys for writing grants both operations, under any of the five keys for reading it grants reading |
| Grants.UnreadWrites | domains/confluence/world/api/routes.py:222-258 | taking out what stands under keys for reading, at any depth, never changes who may write |
| Grants.UntokenWrites | domains/confluence/world/api/routes.py:261-295 | taking out tokens for reading under a name of the actor never changes whether that grants writing |
| Grants.EntriesExact | domains/confluence/world/api/routes.py:141-176 | exactly which values decide about a resource, with every section named: those held for it, those held for it under a name of the actor, and those it carries itself |
| Grants.BareAccess | domains/confluence/world/api/routes.py:118-139 | where nothing is held about a page and its space, exactly administrators and the owner have access |
| Grants.BareCreate | domains/confluence/world/api/routes.py:109-116 | where nothing is held about a space, exactly administrators, its owner and the administrators it names may create pages |
| Grants.FixtureAccess | domains/confluence/world/fixtures/builder.py:63-67 | on permissions as the fixtures write them, readers of the space, and of the page if it has any, may read; beside administrators and the owner nobody may write, listed as a writer or not |
| Grants.PermissionTasks | domains/confluence/scenarios/permissions.py:42-92 | the page of the permission tasks: alice is answered the page and 403 to every write, bob 403 to both, and carol writes |
| Grants.DeniedWriteExample | domains/confluence/scenarios/permissions.py:42-60 | the denied write on a concrete world: the page is answered, the write refused with 403 |
| Protocol.HistoryIsTheWrites | src/agentgym/world/store.py:166-201 | in every execution, at every moment, a page's history is its first history followed by exactly the successful writes so far, in order |
| Protocol.ShownStaysKept | src/agentgym/world/store.py:151-164 | a page once shown to a client stays on record at its version, whatever happens later |
| Protocol.NoLostUpdate | domains/confluence/world/api/routes.py:489-547 | in every execution a write replaces nothing older than what was shown before; a write against a shown version replaces exactly the page that was shown |
| Protocol.OneWritePerVersion | domains/confluence/world/api/routes.py:518-547 | each write makes exactly the next version, at most one write succeeds per expected version, and a later write replaces exactly the page an earlier one wrote if and only if no write on the page lies between |
| Protocol.PermissionsStay | domains/confluence/world/api/routes.py:456-547 | over every execution, creations included, users, spaces, permissions and the identity of every page that exists stay as they are |
| Protocol.AccessStays | domains/confluence/world/api/routes.py:118-176 | over every execution, creations included, what an actor may do with a page that exists is the same at every later moment |
| Listing.CollectVisible | domains/confluence/world/api/routes.py:353-374 | the loop over pages in any store order and the sort behind it give the readable, matching pages in id order, whatever the store order was |
| Listing.WalkCovers | domains/confluence/world/api/routes.py:377-401 | asking for offsets 0, limit, 2*limit, ... concatenates to the whole listing, no page lost or repeated |
| Listing.SearchFinds | domains/confluence/world/api/routes.py:363-371 | a search finds every page with the query in its id, its space, its title or its body, under a folding that works character by character; for a query without a space, no other |
| Listing.WalkLength | domains/confluence/world/api/routes.py:377-401 | such a walk takes exactly ceil(total/limit) requests |
| Listing.WalkUnderWrites | domains/confluence/world/api/routes.py:353-401 | a walk whose requests fall between any writes and human edits, without creations, sees every readable page exactly once, in order |
| Listing.WalkUnderCreations | domains/confluence/world/api/routes.py:353-401 | with creations between the requests as well, a walk that goes on to the end sees every page that the actor could read when it began |
| Routes.Api.Put | domains/confluence/world/api/routes.py:489-547 | the PUT route in place: checks in the order 404, 403, 428, 400, 409, then the guarded update |
| Routes.Api.List | domains/confluence/world/api/routes.py:377-419 | the list and search routes in place: 422 for a limit outside 1 to 100 or a negative offset, otherwise one slice of the readable and matching pages in id order, with their total |
| Routes.ListShows | domains/confluence/world/api/routes.py:353-419 | a page is on an answered list if and only if it is live, readable and matching and its id is in the asked slice; it is shown as it now is, body and version included |
| Routes.Api.Create | domains/confluence/world/api/routes.py:456-486 | the create route in place: 422 for an empty page or space id, 404, 403, 409, then a page at version 1 owned by the named or the acting user |
| Routes.Api.ApplyHumanEdit | domains/confluence/world/api/lifecycle.py:81-110 | the trusted edit in place: a guarded update against the version just read |
| Routes.PutOnCoherent | domains/confluence/world/api/routes.py:489-547 | a PUT succeeds if and only if the page exists, the actor may write and the header names the current version; it then writes exactly title, body and version; otherwise nothing changes |
| Routes.PutRefusals | domains/confluence/world/api/routes.py:501-532 | exactly which refusal is answered when: 404, 403, 428 (section 3 of RFC 6585), 400, 409 (section 15.5.10 of RFC 9110), and no other |
| Routes.PutOnAny | domains/confluence/world/api/routes.py:534-547 | on any world: a PUT that passes its checks, or a trusted edit, fails with 500 exactly on a page stored under an id that is not its own |
| Routes.GetExact | domains/confluence/world/api/routes.py:422-438 | a GET answers the page to those who may read it, 403 to everybody else, and 404 where there is none |
| Routes.ListRefusal | domains/confluence/world/api/routes.py:391-419 | a list is refused with 422 exactly for a limit outside 1 to 100 or a negative offset; otherwise it tells the total of all matches |
| Routes.CreateOnCoherent | domains/confluence/world/api/routes.py:456-486 | a creation succeeds if and only if page and space are named, the space is known (or none is), the actor may create and the id is free; it adds one page at version 1 |
| Routes.CreateRefusals | domains/confluence/world/api/routes.py:456-475 | exactly which refusal a creation is answered when: 422, 404, 403, 409, and no other |
| Routes.HumanEditOnCoherent | domains/confluence/world/api/lifecycle.py:81-110 | a trusted edit of a known page always succeeds and changes exactly its body and version |
| Routes.ServeAllIsExecution | domains/confluence/world/api/routes.py:422-547 | serving any interleaving of any number of clients and human edits is an execution of the protocol, so its theorems apply |
| Routes.PutReplacesExpected | domains/confluence/world/api/routes.py:518-545 | in any interleaving a successful PUT replaced the version its own header named |
| Routes.GetThenPut | domains/confluence/world/api/routes.py:422-547 | GET then PUT with that version: if the PUT succeeds, what it replaced is exactly the page that was read, whatever other clients did in between |
| Routes.ReadYourWrites | domains/confluence/world/api/routes.py:422-547 | after a successful PUT the same actor's GET returns the written page, one version on, and the page is in that actor's listing |
| Text.FindSeparator | domains/confluence/scenarios/_common.py:102-102 | the leftmost blank line of a text |
| Text.JoinOfSplit | domains/confluence/scenarios/_common.py:102-106 | joining a split body gives the body back, for every text |
| Text.SplitOfJoinExact | domains/confluence/scenarios/_common.py:95-106 | splitting a joined list gives the list back if and only if no part holds a blank line and none but the last ends in a newline |
| Text.SplitConcat | domains/confluence/scenarios/_common.py:102-106 | splitting distributes over a blank line behind any text that does not end in a newline |
| Text.NewlineRunsOn | domains/confluence/scenarios/_common.py:102-106 | a text that ends in a newline runs into the separator behind it: an empty part appears, or the next part gains a newline |
| Sections.ReplaceInPlace | domains/confluence/scenarios/_common.py:98-107 | the loop overwrites the first section under the heading, and only it; without one it is an error |
| Sections.AppendInPlace | domains/confluence/scenarios/_common.py:116-125 | the loop extends the first section under the heading, and only it; without one it is an error |
| Sections.MarkersExclude | domains/confluence/scenarios/_common.py:101-104 | two different newline-free headings never mark the same section |
| Sections.EditExact | domains/confluence/scenarios/_common.py:98-125 | an edited body splits into the old sections with the one exchanged if and only if the new text fits: no blank line, no newline at its end unless last |
| Sections.ReplaceFrames | domains/confluence/scenarios/_common.py:98-135 | replacing a section leaves all sections under other headings as they were if and only if every piece of the new text stands under its own heading and it does not run into the next section; the docstring claims it always |
| Sections.ReplaceFramesExample | domains/confluence/scenarios/_common.py:98-135 | a concrete body, heading and content for which another section changes |
| Commuting.RunOfNewlines | domains/confluence/scenarios/_common.py:102-106 | what newlines in front of the remaining sections do: an even run leaves the first section under a heading found, an odd one if and only if the first part that is not blank takes the newline |
| Commuting.FoundAfterExchange | domains/confluence/scenarios/_common.py:98-125 | after a section is exchanged for any text, the first section under another heading is found where it stood if and only if it stands before, or no piece of the text is under that heading and the newlines at its end are even or taken |
| Commuting.EditAfterEdit | domains/confluence/scenarios/_common.py:98-125 | under that condition a second edit finds its section as it was, and both edits end up in their places |
| Commuting.NoteAfterExchange | domains/confluence/scenarios/_common.py:116-125 | a note appended after another section was exchanged for any text lands where it belongs if and only if that condition holds |
| Commuting.EditsCommute | domains/confluence/scenarios/_common.py:98-125 | appending and replacing give the same body in either order when each text leaves the other section found; for a note that does, and that does not begin with a newline, if and only if the replacement does |
| Commuting.LineNotesCommute | domains/confluence/scenarios/_common.py:98-125 | for every note of one line on every body with both sections the two orders agree if and only if the replacement leaves the section of the note found |
| Commuting.ImportBreaksCommuting | domains/confluence/scenarios/_common.py:98-125 | a family of inputs on which the two orders differ: a replacement that brings along a section under the other heading |
| Commuting.ImportExample | domains/confluence/scenarios/_common.py:98-125 | a concrete member of that family |
| Sections.SectionSeparators | domains/confluence/scenarios/_common.py:92-95 | what a section text owes to its content: exactly when it has a blank line, exactly when it ends in a newline |
| Sections.AppendExact | domains/confluence/scenarios/_common.py:110-113 | an appended section stands behind the others as one part if and only if the last of them does not end in a newline and the content brings no separator |
| Sections.CleanEndIsEven | domains/confluence/scenarios/_common.py:102-113 | a body is clean at its end in this sense if and only if the newlines there are even in number |
| Sections.AppendFrames | domains/confluence/scenarios/_common.py:110-137 | then the section texts are the old ones and the new one, a new heading is found behind them, and every other heading is found where it was |
| Sections.SectionTextsExact | domains/confluence/scenarios/_common.py:128-135 | the section texts of a body are its sections, each as often as it is there, without those that begin with the line of the excluded heading |
| Sections.AppendRunsOn | domains/confluence/scenarios/_common.py:110-113 | otherwise the newline moves to the front of the new section, which is then not under its heading |
| Sections.AppendIsOneMore | domains/confluence/scenarios/_common.py:92-113 | appending to a sectioned body makes the sectioned body of one section more |
| Sections.SectionedBodySplitsBack | domains/confluence/scenarios/_common.py:92-95 | a sectioned body splits back into its sections if and only if contents have no blank line, do not start with a newline, and all but the last are non-empty and do not end in one |
| Verifier.ResultAgrees | src/agentgym/verifier/base.py:33-62 | passed means all three categories pass; the score is within 0 and 1, full exactly for a pass with assertions, zero exactly when nothing passed |
| Verifier.ResultExact | src/agentgym/verifier/base.py:45-62 | the score is the share of the assertions that passed, and zero without any; a result passes when all did; each flag holds exactly when every assertion of its own category passed |
| Verifier.DiffOfOneWrite | src/agentgym/verifier/predicates.py:181-191 | the page diff of one store write: exactly that page updated, its version one higher, and for each field that differs the old value and the new one |
| Verifier.StripExact | domains/confluence/verifiers/page_edit.py:739-739 | stripping takes away the spaces around a text and nothing else |
| Verifier.SpacesListed | domains/confluence/verifiers/page_edit.py:739-739 | the characters that stripping takes for spaces, one by one |
| Verifier.HumanFragmentGiven | domains/confluence/verifiers/page_edit.py:708-742 | the human fragment is never empty, and is missing only when no text is given for it at all |
| Verifier.HumanFragmentOrder | domains/confluence/verifiers/page_edit.py:714-732 | which text is taken: the configured one, a plain note, or the first given of fragment, text and content |
| Verifier.HumanFragmentOfBody | domains/confluence/verifiers/page_edit.py:734-742 | with only the whole body given: what it adds behind the old body without the spaces around it, or the whole body if it adds nothing or does not begin with the old one |
| Verifier.AssertNoOtherPagesChanged | src/agentgym/verifier/predicates.py:173-196 | passes if and only if every page outside the allowed ones was neither created, deleted nor changed |
| Verifier.DiffReportsChanged | src/agentgym/verifier/predicates.py:181-191 | the page diff reports exactly the pages that were created, deleted or changed |
| Verifier.PageHistoryInvariants | domains/confluence/verifiers/page_edit.py:342-447 | the loop over the sorted ids of all pages and histories yields the history assertions of each |
| Verifier.HistoryOnPage | domains/confluence/verifiers/page_edit.py:358-445 | one page: unchanged history for an unchanged page; else length, kept prefix and last entry |
| Verifier.VerifyEdit | domains/confluence/verifiers/page_edit.py:122-183 | the loop over targets and the assertions that follow it |
| Verifier.VerifyPreservation | domains/confluence/verifiers/page_edit.py:203-242 | the edit assertions, then preserved fragments and forbidden pages, with the early returns on a bad configuration |
| Verifier.FragmentPreservationLoop | domains/confluence/verifiers/page_edit.py:514-546 | one assertion per fragment, passing if and only if the fragment is in the body before and after |
| Verifier.VerifyConcurrent | domains/confluence/verifiers/page_edit.py:245-292 | the edit assertions with the concurrency checks, and the first target's version assertion replaced |
| Verifier.ReplaceVersionAssertion | domains/confluence/verifiers/page_edit.py:635-663 | the first assertion on the page's version is overwritten in its slot, or the new one appended |
| Verdicts.HistoryOnBumped | domains/confluence/verifiers/page_edit.py:342-447 | for a page that rose by n versions the history assertions hold if and only if its history is the old one and n more entries, the last being the page |
| Verdicts.CommonVerdict | domains/confluence/verifiers/page_edit.py:324-447 | the assertions beside the targets hold if and only if users, spaces, permissions, all other pages and histories are equal and each target's history grew |
| Verdicts.EditVerdict | domains/confluence/verifiers/page_edit.py:122-183 | the edit verifier passes if and only if the targets are valid, everything else is equal, and each target has the content asked for, one version more, and the old history plus exactly the final page |
| Verdicts.PassesIffOneWrite | domains/confluence/verifiers/page_edit.py:122-183 | for one target: the final world is one store write away if and only if the verifier passes and the target kept its id and extra field names |
| Verdicts.ConfigurationExact | domains/confluence/verifiers/page_edit.py:122-165 | an exact edit meets a configuration failure if and only if its targets are invalid or an expected body is missing |
| Verdicts.PreservationVerdict | domains/confluence/verifiers/page_edit.py:203-242 | the preservation verifier passes if and only if the edit does, each fragment is in the body before and after, and the forbidden list is valid and its pages exist unchanged |
| Verdicts.ReplacedShape | domains/confluence/verifiers/page_edit.py:635-663 | replacing the version assertion overwrites exactly the one of the first target and moves nothing else |
| Verdicts.ConcurrentVerdict | domains/confluence/verifiers/page_edit.py:245-292 | the concurrency verifier passes if and only if the record names the first target, the human fragment is in the final body, and the world was edited as asked with that target two versions on |
| Verdicts.MiddleEntryIsFree | domains/confluence/verifiers/page_edit.py:245-292 | the concurrency verifier accepts any entry whatever between the old history and the final page |
| Verdicts.DeniedWriteVerdict | domains/confluence/verifiers/page_edit.py:295-321 | the denied-write verifier passes if and only if the target exists and nothing at all changed |
| Flags.EditFlags | domains/confluence/verifiers/page_edit.py:122-183 | the three flags of the edit verifier: required means content and one version more on every target, forbidden means every other page, invariant means users, spaces, permissions and histories |
| Flags.PreservationFlags | domains/confluence/verifiers/page_edit.py:203-242 | the preservation verifier adds fragments and forbidden pages to the forbidden changes, and missing or invalid lists to the required ones |
| Flags.ConcurrentFlags | domains/confluence/verifiers/page_edit.py:245-292 | the concurrency verifier asks as required changes for the human fragment and for two versions more on the first target; the other two flags are those of an edit |
| Flags.DeniedFlags | domains/confluence/verifiers/page_edit.py:295-321 | a denied write requires nothing; forbidden means the target is there and no page changed, invariant means that nothing did |
| Flags.EditSays | domains/confluence/verifiers/page_edit.py:122-183 | every assertion of the edit verifier has the category of its id and passes exactly when what its id names is the case |
| Flags.PreservationSays | domains/confluence/verifiers/page_edit.py:203-242 | the same for the preservation verifier |
| Flags.ConcurrentSays | domains/confluence/verifiers/page_edit.py:245-292 | the same for the concurrency verifier |
| Flags.DeniedSays | domains/confluence/verifiers/page_edit.py:295-321 | the same for the denied-write verifier |
| Harness.ToolExecutor.Call | packages/baseline/mcp/server.py:54-122 | each of the five baseline tools, search included, is one request to the world, and an answer without success is an error result |
| Harness.ToolExecutor.AfterSuccess | src/agentgym/runner/runner.py:337-372 | the hook attempts the edit only if it has not fired and the call read its page, and has fired from then on, even if the edit fails |
| Harness.ReadingTools | packages/baseline/mcp/server.py:54-79 | the reading tools answer what the world holds to an actor who may read, an error to anybody else, and change nothing |
| Harness.WritingTool | packages/baseline/mcp/server.py:101-123 | the writing tool succeeds exactly for an actor who may write against the current version; title and body are then those given or the old ones, and the version is one higher |
| Harness.CreatingTool | packages/baseline/mcp/server.py:82-98 | the creating tool makes the page it was given, title and body each in its place |
| Harness.ToolExecutor.Run | src/agentgym/runner/runner.py:486-528 | one call with its hook; the two environment variables are as before, on every path |
| Harness.RestoredIsOld | src/agentgym/runner/runner.py:499-528 | setting and restoring the variables gives the environment back, also when a variable was absent |
| Harness.AttemptExact | src/agentgym/runner/runner.py:337-372 | an attempt happens exactly on the first successful read of the target |
| Harness.FiredExact | src/agentgym/runner/runner.py:335-345 | at any moment of any sequence of calls the hook has fired if and only if the target has been read successfully |
| Harness.HookFiresAtFirstRead | src/agentgym/runner/runner.py:337-372 | over every sequence of calls the edit is attempted exactly at the first successful read of the target, hence at most once |
| Harness.AttemptOutcome | src/agentgym/runner/runner.py:353-372 | on success the agent gets the page from before the edit while the world holds the edit, one version on; on failure an error result and an infrastructure error |
| Harness.InfrastructureErrorStays | src/agentgym/runner/runner.py:513-517 | an infrastructure error, once recorded, is there at the end of the run |
| Outcomes.Finish | src/agentgym/runner/runner.py:160-200 | the status is revised step by step as the run is concluded, and no verification is recorded unless the verifier answered |
| Outcomes.PassExact | src/agentgym/runner/runner.py:160-200 | a run passes if and only if every assertion passed, no infrastructure error occurred and the agent met no error, not even a tool error |
| Outcomes.RunEndsExactly | src/agentgym/runner/runner.py:155-200 | every status a run can end with, from agent to runner: each holds exactly under its own condition on what the agent met, the infrastructure error and the answer of the verifier |
| Scenarios.GenerateConcurrent | domains/confluence/scenarios/concurrency.py:44-112 | generating a task prepares the fixture through two fixture edits and yields the composed configuration, or the error of the first missing section |
| Scenarios.GeneratePreservation | domains/confluence/scenarios/preservation.py:43-131 | the same for the preservation family: the configuration whenever the section to replace is there, and an error exactly when it is missing |
| Scenarios.PreparedIsCoherent | domains/confluence/scenarios/_common.py:68-89 | the prepared fixture is coherent at the same versions, with the title and body asked for |
| Scenarios.CapturedNoteExample | domains/confluence/scenarios/concurrency.py:75-85 | a concrete page and task whose expected body has lost the note, because the note brought along a section that the replacement overwrote |
| Scenarios.CapturedNoteCommutes | domains/confluence/scenarios/concurrency.py:75-85 | on two sections with one-line contents and a note that brings along a section of the replaced heading, the two orders differ but for the coincidence that all three contents are equal |
| Scenarios.GeneratedTaskCompletes | domains/confluence/scenarios/concurrency.py:36-112 | from any coherent fixture and any sections with one-line contents, the generated task passes under every schedule that finishes it if and only if the agent may read the target and did so with get_page before finishing |
| Scenarios.GeneratedBodies | domains/confluence/scenarios/concurrency.py:75-85 | when the note leaves the section of the agent found, both bodies exist and the expected body holds the note and the replacement |
| Scenarios.ExpectedBothWays | domains/confluence/scenarios/concurrency.py:75-85 | for a note of one line, the expected body is also what the note after the replacement would give if and only if the replacement leaves the section of the note found |
| Scenarios.SectionedBodyGenerates | domains/confluence/scenarios/concurrency.py:47-85 | every sectioned body with one-line contents admits every such task on two of its sections |
| Scenarios.TurnStaged | src/agentgym/runner/runner.py:328-374 | every move of the agent, reading by any of the three reading tools or writing, keeps the run in its stages in every weather: with the human edit made or not, holding some entry of the history of the target or finished |
| Scenarios.ShownIsKept | packages/baseline/mcp/server.py:54-79 | every page that a reading tool shows, by search, by id or from the history, is an entry of the history of that page, and reading changes nothing |
| Scenarios.EditMadeExactly | src/agentgym/runner/runner.py:335-372 | over every schedule the human edit is made if and only if the agent may read the target and reaches it with get_page before it has finished; searching and reading the history never bring it about |
| Scenarios.ConcurrentEditCompletes | domains/confluence/scenarios/concurrency.py:75-112 | whenever the expected body exists, under every schedule of reads by search, by id or from the history, of tries and of outages in which the write of the agent succeeds: with the human edit made the final body is the expected one, two versions on, and without it the replacement stands alone, one version on; every assertion of the concurrency verifier passes if and only if the human edit was made and the expected body holds the note |
| Scenarios.HistoryThenWriteFails | src/agentgym/runner/runner.py:335-345 | every actor who may write the target can finish without the human edit, by reading its history and writing at once; that run fails verification |
| Scenarios.SearchThenWriteFails | src/agentgym/runner/runner.py:335-345 | the same by any search that the target matches |
| Scenarios.RetryFinishes | domains/confluence/world/api/routes.py:518-547 | a retrying agent is never stuck: from any stage, looking again and trying finishes the task, with the human edit made |
| Scenarios.PreservationAsks | domains/confluence/scenarios/preservation.py:104-112 | the configuration asks for the one target, for every other page untouched and, when appending, for all sections of the body; when replacing it asks for the sections of the body before that are not under the edited heading if and only if the edit keeps to its own section |
| Scenarios.PreservedInBoth | domains/confluence/scenarios/preservation.py:63-118 | every preserved fragment is part of the body after, and of the body before if the edit is focused, in the replacing and the appending branch |
| Scenarios.PreservationCompletes | domains/confluence/scenarios/preservation.py:63-118 | for every page on which the task can be generated: writing the expected body once passes if and only if the world has another page, no page id is empty, and every preserved fragment was there before |
| Scenarios.FocusedKeepsAll | domains/confluence/scenarios/preservation.py:63-118 | an edit that keeps to its own section preserves every fragment |
| Scenarios.LineTaskIsFocused | domains/confluence/scenarios/preservation.py:55-118 | on sections with one-line contents every one-line replacement keeps to its own section |
| Scenarios.GeneratedPreservationCompletes | domains/confluence/scenarios/preservation.py:35-131 | from any coherent fixture and any sections with one-line contents, the generated task passes if and only if the fixture has another page and no empty page id |
| Scenarios.UnfocusedExample | domains/confluence/scenarios/preservation.py:63-118 | a concrete page and replacement for which a fragment that must survive was not there before |
| Scenarios.OnePageExample | domains/confluence/scenarios/preservation.py:105-118 | a concrete world with one page, on which the task cannot pass |
| JsonSafe.Validator.Validate | src/agentgym/core/json_safe.py:25-72 | the recursive traversal terminates on every graph, gives the verdict, and leaves the active set as it found it on success and failure |
| JsonSafe.Validator.ValidateItems | src/agentgym/core/json_safe.py:41-68 | the loop over children stops at the first fault in order |
| JsonSafe.Validator.EnterContainer | src/agentgym/core/json_safe.py:75-86 | a container on the path is refused, any other is entered |
| JsonSafe.UnfoldsUnique | src/agentgym/core/json_safe.py:25-72 | a value represents at most one tree |
| JsonSafe.UnfoldingIsSafe | src/agentgym/core/json_safe.py:25-72 | a value that represents a tree is accepted, shared containers included |
| JsonSafe.SafeUnfolds | src/agentgym/core/json_safe.py:25-72 | the tree of an accepted value can be read off |
| JsonSafe.SafeExact | src/agentgym/core/json_safe.py:12-86 | on every finite graph, shared or cyclic, a value is accepted if and only if it unfolds to a finite tree with text keys and finite floats |
| JsonSafe.RefusalPointsAtFault | src/agentgym/core/json_safe.py:25-86 | following a reported path reaches an object with the reported fault, for a cycle a container on that path, and it is the first: every child that the traversal passed before unfolds to a finite tree under a text key |
| Budgets.BudgetTracker.CheckAndBump | src/agentgym/runner/budgets.py:63-103 | one counter rises by the amount, or nothing is counted and the tracker remembers why |
| Budgets.BudgetTracker.CheckWall | src/agentgym/runner/budgets.py:105-113 | fails exactly when the elapsed time, never negative, is at or above the limit |
| Budgets.BudgetTracker.RecordTokens | src/agentgym/runner/budgets.py:115-128 | both token counts are charged, or neither |
| Budgets.BumpExact | src/agentgym/runner/budgets.py:63-103 | from within the limits a bump succeeds exactly when it stays within them, and counts the amount on exactly one counter |
| Budgets.RecordExact | src/agentgym/runner/budgets.py:115-128 | a response is charged, input and output each to its own count, exactly when no count is negative and the sum fits |
| Budgets.ChargesStayWithin | src/agentgym/runner/budgets.py:63-128 | over every run of charges, accepted or refused, no counter passes its limit and none falls |
| Agent.ReferenceAgent.Run | src/agentgym/runtime/reference_agent.py:93-242 | the loop in place equals the specified run for every client, executor, sink and clock, and terminates |
| Agent.ReferenceAgent.Iterate | src/agentgym/runtime/reference_agent.py:131-242 | one iteration: turn, response, tool calls, or the event that ends the run |
| Agent.ReferenceAgent.Turn | src/agentgym/runtime/reference_agent.py:131-157 | clock, model-turn charge, request, clock, tokens, response, in this order, up to the first that stops it |
| Agent.ReferenceAgent.TakeReply | src/agentgym/runtime/reference_agent.py:139-157 | what the client or the sink raises, a reply of another type, a late clock, a refused charge and a refused response each stop the run for their own reason |
| Agent.ReferenceAgent.UseTools | src/agentgym/runtime/reference_agent.py:171-217 | the assistant message, which may fail to render, and the loop over the calls |
| Agent.ReferenceAgent.MakeCalls | src/agentgym/runtime/reference_agent.py:174-217 | the loop over tool calls stops at the first call that does not get its tool message |
| Agent.ReferenceAgent.Perform | src/agentgym/runtime/reference_agent.py:178-217 | a call as far as it gets: refused before the executor is asked, answered by something that is no result, its result refused, its message not rendered, or complete |
| Agent.EveryRunEnds | src/agentgym/runtime/reference_agent.py:93-242 | every run ends in order: requests and calls are the model turns and tool calls charged but for a last one the sink refused; a call is left open exactly if the last reply was no result or its result was refused; budgets hold; tokens are those reported; each request, response and call had its own clock reading; the status is what the reason for stopping says |
| Script.RunFollowsScript | src/agentgym/runtime/reference_agent.py:93-242 | every run is the script that the replies of model and executor spell out without budgets, clocks or failures, cut short at most: its events are a beginning of the script but for the one that ended it, request k shows the model exactly the conversation of the first k turns, and a run that finishes has recorded and said the whole script |
| Agent.StatusExact | src/agentgym/runtime/reference_agent.py:93-242 | the five statuses of an agent run, each with its exact condition on what was met and charged: a late clock, a turn, call or token limit that a charge would have passed, what the client or the sink raised, anything unusable, and tool errors |
| Agent.EveryCallIsAnswered | src/agentgym/runtime/reference_agent.py:174-217 | in every run each recorded call is answered by a result with its id, with only world events between, but for the last one exactly when its reply was no result or its result was refused |
| Agent.EveryRunEndsOnce | src/agentgym/runtime/reference_agent.py:126-242 | in every run exactly one event is terminal, the last; results are as many as calls, but for one left open |
| Agent.EveryRequestIsPaired | src/agentgym/runtime/reference_agent.py:171-217 | at every request of every run each assistant message with k calls is followed by exactly k tool messages with the same ids in order |
| Agent.LoopEnds | src/agentgym/runtime/reference_agent.py:129-242 | from every steady state the loop ends in order |
| Agent.CallsAreSteady | src/agentgym/runtime/reference_agent.py:171-217 | after all calls of a response nothing is owed; after one that failed the run is about to end in order |
| Agent.RefusedCallExample | src/agentgym/runtime/reference_agent.py:177-188 | arguments the sink does not take: one tool call charged, none recorded |
| Agent.NoResultExample | src/agentgym/runtime/reference_agent.py:189-195 | an executor that returns something that is no result: one call recorded, no result |
| Agent.RaisedTimeoutExample | src/agentgym/runtime/reference_agent.py:218-230 | a client that raises a wall-time budget error: the run times out with every clock reading on time |
| Trajectory.ExactlyOneTerminal | src/agentgym/runtime/reference_agent.py:126-242 | a complete trace has one terminal event, at its end, and one start, at its beginning |
| Trajectory.CallIsAnswered | src/agentgym/runtime/reference_agent.py:174-217 | a tool call of a complete trace is followed by its result, with only world events between, unless it is the last call of a trace that ends with a call open |
| Trajectory.CallsMatchReturns | src/agentgym/runtime/reference_agent.py:174-203 | results match calls one for one, but for a call that is open |
| Trajectory.MessagesPaired | src/agentgym/runtime/reference_agent.py:300-326 | in a conversation that owes nothing, assistant messages and tool messages pair up in order |
| Recorder.TrajectoryRecorder.Append | src/agentgym/runner/recorder.py:41-79 | an event gets the next sequence number, whatever number it came with |
| Recorder.TrajectoryRecorder.Flush | src/agentgym/runner/recorder.py:91-116 | the file behind the path gains exactly the events that were not yet written through this path, and no other file changes |
| Recorder.FlushesAreExact | src/agentgym/runner/recorder.py:41-116 | in every interleaving of appends and flushes by any recorders through any paths, each file holds its original content and, for each recorder and each path to it, exactly the prefix it had when it last flushed through that path |
| Recorder.EachEventOnce | src/agentgym/runner/recorder.py:91-116 | the lines of a recorder in a file are a prefix of its events, none lost or doubled, if and only if it has written there through one path |
| Recorder.TwoPathsDouble | src/agentgym/runner/recorder.py:100-115 | flushing through two paths to one file writes every event twice |
| Recorder.FreshIsExact | src/agentgym/runner/recorder.py:34-39 | fresh recorders on any existing files satisfy this |
| Recorder.FlushDoes | src/agentgym/runner/recorder.py:91-116 | one flush as a step of the system: exactly the pending events go to the file behind the path, which is there afterwards even with nothing pending |
| Recorder.HoldsWhatWasGiven | src/agentgym/runner/recorder.py:41-79 | over every interleaving a recorder holds what it held before and exactly what it was given since, in order, content and all |
| Recorder.FileGivesBack | src/agentgym/runner/recorder.py:41-158 | from a fresh start, what a recorder wrote to a file through one path loads without errors and gives back, numbered from 1, exactly what it had been given when it was last flushed through that path |
| Recorder.Load | src/agentgym/runner/recorder.py:118-158 | the first bad line is an error with its number, or bad lines are skipped and their numbers kept in order |
| Recorder.LoadOfEncoded | src/agentgym/runner/recorder.py:91-158 | loading what was written gives the events back in order |
| Digest.BigEndianRoundTrip | src/agentgym/core/package.py:357-366 | a length that fits its bytes can be read back from them |
| Digest.BytesAreWorth | src/agentgym/core/package.py:361-364 | the most significant byte of a length comes first |
| Digest.FieldInjective | src/agentgym/core/package.py:357-366 | a length-prefixed field can be read back from the front of any longer stream |
| Digest.FrameLayout | src/agentgym/core/package.py:357-366 | the layout of one record: eight bytes of length, the path, eight bytes of length, the content |
| Digest.StreamInjective | src/agentgym/core/package.py:353-366 | different lists of files never give the same bytes, however contents run together |
| Digest.TreeStreamInjective | src/agentgym/core/package.py:338-369 | equal bytes mean equal path-to-content maps |
| Digest.TreeOrderFree | src/agentgym/core/package.py:345-356 | the order in which files are enumerated does not matter |
| Digest.SameBytesIffSameTree | src/agentgym/core/package.py:338-369 | two walks feed the digest the same bytes if and only if they describe the same tree |
| Digest.DirectoryBytes | src/agentgym/core/package.py:338-369 | a symlink or a length over 8 bytes is an error; otherwise the bytes are the framed files in path order |
| Digest.FilesBytes | src/agentgym/core/package.py:353-366 | the loop stops at the first file whose lengths do not fit |
| Packages.AgentPackage.SetHashes | src/agentgym/core/package.py:199-210 | after saving, every artifact is there and its stored hash is that of its file; when a digest cannot be computed nothing changes |
| Packages.AgentPackage.VerifyHashes | src/agentgym/core/package.py:185-197 | accepts if and only if every single artifact is there and has the digest stored for it |
| Packages.VerifiesExactly | src/agentgym/core/package.py:185-237 | with a hash without collisions, a saved package verifies if and only if every artifact is there and is what it was, or, outside the tools, has changed between folder and file while the file holds the very bytes digested for the folder |
| Packages.SameBytesExact | src/agentgym/core/package.py:212-237 | what is digested for one artifact is the same before and after under exactly that condition; a tool root counts only as a folder with the entrypoint of the server |
| Packages.FilePassesForFolder | src/agentgym/core/package.py:338-369 | in every package that verifies, any folder outside the tools can be replaced by a file with the bytes of its digest, and the package still verifies, whatever the hash |
| Packages.SaveThenSwap | src/agentgym/core/package.py:185-210 | one such package from saving to loading: saved with an empty folder, accepted with an empty file in its place |
| Splits.ResolvedSeeds | src/agentgym/core/splits.py:46-53 | a valid entry gives exactly count distinct seeds, within its range |
| Splits.ValidExact | src/agentgym/core/splits.py:17-43 | which entries are valid: distinct explicit seeds, one for each count, or a range with room for a positive count, and never both or neither |
| Splits.SeedsExact | src/agentgym/core/splits.py:46-53 | the seeds are the listed ones, or the first ones of the range in rising order |
| Splits.TotalIsLength | src/agentgym/core/splits.py:119-134 | the total count is the length of the expansion |
| Splits.ExpansionExact | src/agentgym/core/splits.py:124-134 | the expansion follows the manifest: behind the pairs of all earlier entries stands one pair for each seed of an entry |
| Splits.ValidateUnique | src/agentgym/core/splits.py:67-86 | accepted if and only if the expanded pairs are distinct |

## Left out

- Interleavings within one request: routes do not wait between their check and their write, so requests are served one at a time.
- A response lost after its request was served: an outage in the schedules means that the request was not served.
- Store.SnapshotUndoes: pages, histories and snapshots are values, so that a snapshot is detached from the live world holds by construction; aliasing and deep copies are not captured.
- Commuting.EditsCommute: exact for notes that leave the other section found; of notes that capture it, only two sections with one-line contents are covered (Scenarios.CapturedNoteCommutes).
- Capabilities: a tool that is not granted counts as an unknown one. Arguments of tools are typed.
- Page ids in URLs: an id that changes the path of its request (empty, or with a slash or a question mark) is served like any other.
- `str.casefold` is an arbitrary function on strings; the order of a user's aliases, free in the source, is sorted.
- Header parsing: If-Version arrives classified as missing, not an integer, or an integer; resolving X-Actor to a user (401) is not modelled.
- `_visible_pages` sorts by the page's own id; worlds here key each page by its id, as the store does.
- JSON text, UTF-8 and SHA-256: encoders are arbitrary or injective functions, and digest results are about the bytes fed to the hash.
- Assertion ids are constructors instead of strings; the expected, actual and message texts of assertions are dropped.
- `_verify_read_only`, completion evidence in the final answer, and the choice of verifier by task family.
- Malformed snapshots, configurations and pages: the model is typed, versions are integers, and a list of the wrong shape counts as empty.
- Scenario wording, difficulty labels and seeded choices: every choice is an arbitrary input, and the other task families are covered by the general edit results.
- `_normalize_counter` aliases, system prompts and tool descriptions.
- Events that carry text only (AGENT_STARTED, TOOL_ERROR, AGENT_COMPLETED, AGENT_ERROR): the recorder always takes them, and a sink that refuses them is not modelled. Cancellation from outside is not modelled either.
- Timestamps of recorded events are not modelled, and what an event says is opaque; an append that is refused changes nothing and is not modelled, and a flush that fails half way is not modelled.
- Python's recursion limit: on a list nested deeper than the interpreter's stack the JSON-safety check raises RecursionError where the model accepts; the permission resolver recurses over nested values in the same way.
- MODEL_REQUEST payloads hold the live message list; claims here are about the conversation at the time of the request.
- The live snapshot, world start and agent construction that surround a run, and the errors raised there.
- `state_diff.preserved`, `assert_field_unchanged`, YAML loading, path confinement of packages, the rollout index and run storage.
- HTTP, processes, containers, MCP servers, model clients and telemetry.
