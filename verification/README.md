# A verified model of KRemote's core

KRemote keeps remote connections in folders, in one encrypted vault file. A Rust library owns the vault, imports
mRemoteNG files and speaks SSH; a Dart user interface talks to it over a generated binary codec and draws the
folder tree. This project models the parts of it where mistakes hide, and proves what they do on all inputs, in all
runs and under all schedules. `dafny verify dfyconfig.toml` checks all of it.

**Folders, from the file to the screen.** The import flattens an XML tree into two lists with parent ids
(`Import`, `ImportNode`), the vault drops duplicates (`VaultOps`, `Vault`), the home screen rebuilds a tree by a depth-first
search over the lists (`HomeScreen`, `FolderTree`), and what appears is the preorder of the file (`Forest`,
`ImportRender`, `App`). The search recurses on `parentId == folder.id`, not on a data structure; its measure is the
number of folders not yet on the path from the root (`FolderTree.ChainBound`). Nothing is assumed of the parents:
`FolderTree` says exactly which folders and connections appear when parents dangle or form cycles, and
`ScreenAfterRuns` that both really come about.

**The vault.** `VaultOps` holds the operations as functions on the vault's data, `Vault` the object that performs
them, `Json` and `VaultFile` the file. `Concurrency` models any number of threads inside the vault's two mutexes, one
step at a time; `Solo` says what a critical section does as a whole, and `Serial` that a call that runs alone does to
the objects what its sections do. `KeyAgreement`, `Durability` and `Integrity` prove what holds in memory and on disk
between the steps.

**The wire.** `Wire` is the codec as functions on bytes, `Serializer` the buffers and cursors that both halves run,
`Utf8` the text encoding. `Vectors` pins these formats, and the JSON, by examples.

**SSH.** `Pump` is the two-way proxy of a jump host (a direct-tcpip channel, section 7.2 of RFC 4254), `Shell` one
`send_input`, `Senders` any number of them with shells opened and closed between, `Teardown` the connection's slots.

Seven properties that one would expect turned out to hold only under a condition, and the condition is part of the
result:

* A value survives the wire exactly when all its lengths are below 2^31 and, towards Dart, no text in it starts with
  a byte order mark (`Wire.DataRoundTrip`). Dart's UTF-8 decoder discards such a mark (`Wire.MarkIsLost`). Beyond that
  length the two halves differ: Dart reads a negative list length as an empty list (`Wire.OversizedList`).
* State and key of the vault agree as long as creates, loads and locks do not overlap one another, except that locks
  may overlap locks, and loads of one file under one password may overlap each other; edits, imports, saves and reads
  may overlap anything, short of saving another vault over a file that several loads are reading
  (`KeyAgreement.KeysAgreeInExclusiveRuns`). The exclusions are needed: any two creates or loads have an overlap that
  ends with the state of the one and the key of the other (`KeyAgreement.OverlappingInstallsMix`), which for different
  vaults do not agree; and a lock during either has one that leaves a key without a state
  (`KeyAgreement.LockDuringInstallLeavesKey`). Without such overlaps no key is without a state even for a moment
  (`KeyAgreement.UnlockedHasState`).
* Under the same condition the file holds what is in memory once all calls have returned, if loads keep apart from
  edits as well (`Durability.QuiescentDurability`). A load around an edit ends with memory older than the file and
  without the edit, although every call has succeeded (`Durability.LoadAroundEditLosesIt`).
* Every connection in memory is filed in a listed folder or in none, if deletions of folders, creates and loads keep
  apart from calls that file connections (`Integrity.CarefulRunsKeepConsistent`). A deletion between the two changes
  of an import leaves a connection in a folder that is no more (`Integrity.DeleteDuringImportStrands`).
* From a folder list all of which can be reached, an operation keeps all of it so exactly when it adds a folder at the
  root or below a listed one, moves a folder to the root or to where the way from the root does not pass through it,
  or deletes a folder without child folders (`ScreenAfterRuns.ReachableExactly`). The others succeed all the same. From
  any other list, `ScreenAfterRuns.UpdateKeepsRooted` and `ScreenAfterRuns.RemovalKeepsRooted` say the same of what
  can be reached in it.
* `send_input` returns unless the channel, from some attempt on that the call gets to, reports nothing but writes of
  zero bytes: such a write neither makes progress nor looks at the clock (`Shell.EndlessIffIdleForever`,
  `Shell.NothingTakenIsEndless`).
* `Drop` empties all three slots of an SSH connection unless the target session's own disconnect fails while there
  is a jump session (`Teardown.DropEmptiesExactly`, `Teardown.DropLeavesJump`); an earlier disconnect, even a failing
  one, cures that (`Teardown.SecondDisconnectEmptiesAll`).

Every induction is written out: no lemma leaves one to the verifier.

Filtering commutes with rendering except for the number in each folder's header, which counts what the filter left
(`FolderTree.FilterCommutes`). The comment on `Vault::delete_folder` speaks of connections only; the child folders of
a deleted folder stay in the list, and not in the tree (`ScreenAfterRuns.DeleteHidesChildren`) until `update_folder`
moves them (`ScreenAfterRuns.MoveBringsChildBack`); the folder dialog goes on listing them, with an unknown parent.

## Model

| member | source | states |
|---|---|---|
| Import.Importer.ParseNodes | rust/src/api/import.rs:32-124 | the walk leaves its lists, its name map and the UUID count exactly as the flattening of the tree built from the XML says, appended to what they held |
| ImportNode.ElementReadBack | rust/src/api/import.rs:40-117 | a connection written as a Node element with the attributes of mRemoteNG is read back with its name, host, port, protocol and non-empty optional texts |
| ImportNode.OtherPortsAre22 | rust/src/api/import.rs:71-72 | the port is taken over iff its text is digits only, after an optional plus, and fits 16 bits; every other text leaves 22 |
| ImportNode.ContainerReadBack | rust/src/api/import.rs:40-57 | a container written as a Node element becomes a folder of its name in the enclosing folder, with what is inside it and nothing after it filed there |
| ImportNode.MissingAttributes | rust/src/api/import.rs:40-117 | what an element leaves out or leaves empty has its default: a connection named Unnamed, no host, port 22, SSH, no texts, 30 seconds |
| Import.ParseDocument | rust/src/api/import.rs:8-30 | the parse fails exactly when no Connections element exists; otherwise the two lists are the flattening of the first such element's content |
| Import.FindsFirst | rust/src/api/import.rs:21-24 | the walk starts at the first Connections element among all elements of the document in document order; none is missed |
| Import.ImportIsForest | rust/src/api/import.rs:39-121 | folders and connections count exactly the reachable Node elements, all ids differ, every parent is strictly earlier in the list, every connection is filed in a listed folder or in none |
| Import.BuildCounts | rust/src/api/import.rs:39-57 | each reachable container becomes a folder of its own, so containers of one name never merge |
| Import.BuildDrawsInOrder | rust/src/api/import.rs:45-57 | ids are handed out in document order, one to each reachable Node element |
| Import.BuildIsLinked | rust/src/api/import.rs:46-57 | every item carries the id of the container around it |
| Forest.Rebuild | lib/screens/home_screen.dart:642-756 | for every linked forest with distinct folder ids, the rows built from its flat lists, all expanded, are its preorder with the depth as indent |
| Forest.ParentsComeFirst | rust/src/api/import.rs:46-57 | in the flattening of a linked forest parents precede children and connections refer to listed folders |
| ImportRender.ImportIsDedup | rust/src/api/vault.rs:208-228 | importing a flattened tree is the same as removing repeated endpoints from the tree and flattening then |
| ImportRender.ImportThenRender | lib/screens/home_screen.dart:642-756 | for every file: import into an empty vault, all folders expanded, no filter, shows the preorder of the file without connections whose (name, host, port) came before |
| ImportRender.DistinctImportThenRender | rust/src/api/app.rs:214-226 | when no (name, host, port) repeats, the screen shows the preorder of the whole file |
| App.ImportXml | rust/src/api/app.rs:214-226 | result, memory and file after an import: a file without the element or a locked vault changes nothing; otherwise the old lists stay in front, the counts are those of what came, nothing comes twice, and with fresh UUIDs all ids stay distinct; a failing save keeps the import in memory and the file as it was |
| App.ImportArrives | rust/src/api/vault.rs:208-228 | whatever the vault held: one folder for each container, the connections whose (name, host, port) is new, old items under their ids, and new ids that nothing else has |
| App.ImportLists | rust/src/api/app.rs:217-225 | from the two lists on: result, memory and file, a failing save keeping the import in memory |
| App.AddFolders | rust/src/api/app.rs:217-220 | the loop files all folders in order, or fails at the first on a locked vault |
| App.ImportAndShow | rust/src/api/app.rs:214-226 | the objects together take a file to the preorder of its connections and containers on screen, or to the notice that there are none when the file has containers only |
| App.CreateVault | rust/src/api/app.rs:43-46 | success leaves an empty vault that the password opens, in memory and in the file, and failure leaves the files alone |
| FolderTree.ChainIsUnique | lib/screens/home_screen.dart:642-675 | a folder is reached from a root along one way at most |
| FolderTree.ChainBound | lib/screens/home_screen.dart:670-756 | the path of the recursion never repeats a folder and is never longer than the folder list: the search ends on every list with unique ids |
| FolderTree.NextFolder | lib/screens/home_screen.dart:749-752 | going down to a child folder stays on a root path and brings the recursion closer to its bound, and adds the rows of that child |
| FolderTree.VisitsAreOpenChains | lib/screens/home_screen.dart:642-756 | the search visits exactly the root paths through expanded folders, each once |
| FolderTree.EachVisibleFolderOnce | lib/screens/home_screen.dart:646-664 | each folder has one header at most, and has one iff its parents lead to a root through existing, expanded folders |
| FolderTree.StrandedFoldersAreHidden | lib/screens/home_screen.dart:646-675 | folders on or below a parent cycle or a dangling parent are never shown, whatever is expanded |
| FolderTree.HiddenIffStranded | lib/screens/home_screen.dart:646-675 | with every folder expanded, a listed folder is hidden iff it is in a set of non-roots that holds every listed parent of its members |
| FolderTree.EachShownConnectionOnce | lib/screens/home_screen.dart:648-660 | the connections shown are, with multiplicity, those without a folder or in a shown and expanded folder |
| FolderTree.RowsTellTruth | lib/screens/home_screen.dart:646-756 | each header says whether its folder is expanded, how many connections are filed in it and how deep it lies, and each connection row is one step deeper than its folder |
| FolderTree.ConnectionsUnderTheirFolders | lib/screens/home_screen.dart:648-741 | unfiled connections come first; above every other connection row there are only connections of its folder up to that folder's header |
| FolderTree.FilterThenGroup | lib/screens/home_screen.dart:99-136 | grouping the filtered list is filtering each group: grouping is a stable partition |
| FolderTree.FilterCommutes | lib/screens/home_screen.dart:99-136 | the rows of the filtered connections are all rows without the rejected connections, each header recounting its folder |
| HomeScreen.State.GroupByFolder | lib/screens/home_screen.dart:127-136 | each key in use maps to its connections in list order, and no other key is there |
| HomeScreen.State.ToggleFolder | lib/screens/home_screen.dart:138-146 | exactly one folder changes between expanded and collapsed |
| HomeScreen.State.BuildFolder | lib/screens/home_screen.dart:670-756 | the recursive method produces the rows of the folder at the end of a root path |
| HomeScreen.State.BuildTree | lib/screens/home_screen.dart:642-668 | the list of rows is that of the tree specification for the grouped connections |
| HomeScreen.State.Build | lib/screens/home_screen.dart:466-467 | filter, group and build give the unfiltered rows with the rejected connections taken out, and list exactly the connections that meet each criterion set and whose folder is open |
| HomeScreen.State.Show | lib/screens/home_screen.dart:566-626 | a notice replaces the list exactly when there is no connection, and another exactly when none meets the criteria; otherwise each connection that meets them, in an open folder, is listed as often as it is in the vault, and no other; folders alone are not shown |
| HomeScreen.FilterLists | lib/screens/home_screen.dart:99-125 | of what the rendering of the filtered list shows: the protocol asked for, the folder asked for, and the query standing in the lowered name, host, user name or a tag; all that meet these in open folders, and no others |
| ScreenAfterRuns.ScreenIsExactAfterRuns | rust/src/api/vault.rs:233-278 | after every run of operations naming existing folders, rendering is defined and shows exactly what is visible, once |
| ScreenAfterRuns.UpdateHidesExactly | rust/src/api/vault.rs:248-258 | if every folder can be reached, update_folder keeps all so iff the folder moves to the root or below a folder to which a way leads that avoids it |
| ScreenAfterRuns.UpdateKeepsRooted | rust/src/api/vault.rs:248-258 | from any list of unique ids, all that can be reached stays so iff the folder could not be reached itself, or moves clear |
| ScreenAfterRuns.DeleteHidesExactly | rust/src/api/vault.rs:263-278 | if every folder can be reached, delete_folder keeps the others so iff the deleted one has no child folders |
| ScreenAfterRuns.RemovalKeepsRooted | rust/src/api/vault.rs:263-268 | from any list of unique ids, all else that can be reached stays so iff the folder could not be reached itself, or has no child folders |
| ScreenAfterRuns.AddKeepsAllRooted | rust/src/api/vault.rs:233-238 | if every folder can be reached, add_folder keeps all so iff the new one is a root or its parent is listed |
| ScreenAfterRuns.ReachableExactly | rust/src/api/vault.rs:140-278 | for each operation that succeeds, every folder can still be reached iff the operation meets its condition |
| ScreenAfterRuns.RunsKeepAllVisible | rust/src/api/vault.rs:140-278 | over every run of operations that meet it, every listed folder is on the screen when all are expanded, and every connection, once |
| ScreenAfterRuns.MoveIntoChildHidesBoth | rust/src/api/vault.rs:248-258 | an input that fails the condition: moving a folder into its own child succeeds and takes both off the screen |
| ScreenAfterRuns.DeleteHidesChildren | rust/src/api/vault.rs:263-278 | right after the deletion the child folders of the deleted one are in the list and not in the tree |
| ScreenAfterRuns.MoveBringsChildBack | rust/src/api/vault.rs:248-258 | an update that files such a child at the root shows it again, whatever is expanded |
| VaultOps.ImportAddsFirstOccurrences | rust/src/api/vault.rs:208-228 | the old list is kept and followed by the first of each new (name, host, port); the count is that of the distinct new ones |
| VaultOps.ImportInTwo | rust/src/api/vault.rs:208-228 | importing a + b is importing a and then b, counts added up |
| VaultOps.ReimportAddsNothing | rust/src/api/vault.rs:214-221 | a second import of a batch adds nothing and changes nothing |
| VaultOps.ApplyDoes | rust/src/api/vault.rs:139-278 | each operation is refused iff it needs an id that is not there, and otherwise adds at the end, replaces or removes the first of the id, unfiles, or imports, every other position as before |
| VaultOps.DoesOneThing | rust/src/api/vault.rs:139-278 | that description leaves no choice: two results that fit it are the same |
| VaultOps.ApplyKeepsConsistent | rust/src/api/vault.rs:140-278 | each operation keeps folder ids unique and connections filed in existing folders or in none |
| VaultOps.RunsKeepConsistent | rust/src/api/vault.rs:140-278 | the same over all runs of operations, one after the other, whose callers name existing folders |
| Integrity.CarefulRunsKeepConsistent | rust/src/api/app.rs:98-226 | the same for memory and files over every run of any number of threads, if callers name folders that exist when their call starts and deletions, creates and loads keep apart from calls that file connections |
| Integrity.DeleteDuringImportStrands | rust/src/api/app.rs:214-223 | a folder deleted between the two changes of its import leaves the imported connection filed under a folder that is not listed |
| VaultOps.DeleteFolderExactly | rust/src/api/vault.rs:263-278 | connections keep count, order and ids, exactly those of the folder move to the root, and the newly dangling folders are exactly its children |
| VaultOps.ImportRun | rust/src/api/app.rs:217-222 | the folder loop and the batch leave all folders appended and the batch imported, and obey the rule for callers |
| Vault.Vault.Create | rust/src/api/vault.rs:104-124 | success leaves an empty state and a key that agree on the password; a failing hash or derivation leaves both fields alone and is reported as such |
| Vault.Vault.Lock | rust/src/api/vault.rs:127-130 | both fields are cleared |
| Vault.Vault.AddConnection | rust/src/api/vault.rs:140-145 | the list is as before with the connection at its end; a locked vault refuses |
| Vault.Vault.UpdateConnection | rust/src/api/vault.rs:168-183 | the first connection of that id is the given one, every other position as before; a locked vault or a missing id is refused for that reason, and nothing else changes |
| Vault.Vault.DeleteConnection | rust/src/api/vault.rs:186-196 | the first connection of that id is gone, the others in order; a locked vault or a missing id is refused for that reason, and nothing else changes |
| Vault.Vault.ReplaceConnections | rust/src/api/vault.rs:199-204 | the list becomes the given one |
| Vault.Vault.ImportConnections | rust/src/api/vault.rs:208-228 | the loop computes the batch import; the list grows by the number returned, nothing new has a twin, each of the batch has its like, and what is new is from the batch under the id drawn for it |
| Vault.Vault.AddFolder | rust/src/api/vault.rs:233-238 | the list is as before with the folder at its end; a locked vault refuses |
| Vault.Vault.UpdateFolder | rust/src/api/vault.rs:248-258 | the first folder of that id is the given one, every other position and the connections as before; a locked vault or a missing id is refused for that reason, and nothing else changes |
| Vault.Vault.DeleteFolder | rust/src/api/vault.rs:263-278 | the first folder of that id is gone, the others in order, and exactly its connections have lost their folder, in place; a locked vault or a missing id is refused for that reason, and nothing else changes |
| Vault.Vault.SaveToFile | rust/src/api/vault.rs:283-312 | writes exactly the text of the present state under the present key, or writes nothing and says whether the vault is locked or the write has failed |
| Vault.Vault.LoadFromFile | rust/src/api/vault.rs:316-349 | all or nothing: success puts the opened state and key, which agree on the password; any failure leaves both fields as they were and is reported as what it is |
| Vault.RunsKeepThePassword | rust/src/api/vault.rs:140-278 | no run of operations changes which password opens the vault |
| Vault.RestartKeepsData | rust/src/api/vault.rs:283-349 | after any run, saving and loading with the password restores the data, key passphrases erased, and the same key |
| Vault.Restart | rust/src/api/app.rs:43-57 | save, lock and load on the objects restore the state with key passphrases erased |
| VaultFile.DecryptUndoesEncrypt | rust/src/api/vault.rs:374-406 | nonce and ciphertext come apart again at byte 12 |
| VaultFile.SavedFileOpens | rust/src/api/vault.rs:283-349 | the text of a saved vault opens, under any nonce, to the same salt, hash and key and the erased data |
| VaultFile.OtherPasswordIsRefused | rust/src/api/vault.rs:323-328 | a password that fails the stored hash never opens the file |
| VaultFile.RefusedExactly | rust/src/api/vault.rs:316-349 | why a load is refused: a malformed file, then a password that fails the hash, then a failing derivation, and only after these what unsealing and parsing say |
| VaultFile.FileIsLaidOut | rust/src/api/vault.rs:283-383 | a saved file holds salt and hash in the clear, and the nonce in front of what the key seals under it, which is the data; saving fails iff the key is not of 32 bytes |
| VaultFile.NoPassphraseInFile | rust/src/api/models.rs:23-24 | the text of a saved vault does not depend on the key passphrases in it |
| VaultFile.OpenedIsUnlocked | rust/src/api/vault.rs:316-349 | whatever opens agrees with the password that opened it and holds no key passphrase |
| Json.DataBack | rust/src/api/models.rs:13-45 | reading what was written gives the data with key passphrases erased |
| Json.OlderConnectionLoads | rust/src/api/models.rs:29-38 | a connection stored without timeout and domain loads with 30 seconds and none |
| Json.ReadIsErased | rust/src/api/models.rs:23-24 | nothing that is read has a key passphrase |
| Concurrency.StepKeepsLocks | rust/src/api/vault.rs:283-287 | no step of one thread takes or frees a lock that another holds |
| Concurrency.OnlyLocksHoldUp | rust/src/api/vault.rs:283-287 | a thread with something to do cannot step iff another thread holds the lock it wants |
| Concurrency.NoDeadlock | rust/src/api/vault.rs:283-287 | with locks held as the steps take them, some unfinished call can take a step |
| Concurrency.RunsNeverDeadlock | rust/src/api/vault.rs:104-349 | over every run of any number of threads, unless all calls are over some call can take a step |
| Concurrency.RunsEnd | rust/src/api/app.rs:43-226 | once no call begins any more, every schedule ends within as many steps as work was left |
| Solo.StepIsSection | rust/src/api/vault.rs:104-349 | every step moves locks only, or does all that its critical section does |
| Solo.CallReaches | rust/src/api/app.rs:43-226 | the steps of a call that no other interrupts lead where its sections, one after the other, do |
| Serial.ChangeAndSave | rust/src/api/app.rs:139-207 | each operation on the objects, and its save, leave memory, key and files as the sections of its script do; after a refusal nothing is saved |
| Serial.CreateAndSave | rust/src/api/app.rs:43-46 | the same for creating a vault |
| Serial.Unlock | rust/src/api/app.rs:49-51 | the same for loading one |
| Serial.Lock | rust/src/api/app.rs:55-57 | the same for locking it |
| Serial.ImportAndSave | rust/src/api/app.rs:217-225 | the same for an import from its two lists on |
| KeyAgreement.KeysAgreeInExclusiveRuns | rust/src/api/vault.rs:104-135 | in every run whose creates, loads and locks do not overlap one another, except locks and loads of one vault, and whatever else overlaps them: with none of them in its puts, the state is present iff the key is, and a password given to a create or load of the run passes the hash and derives the key from the salt |
| KeyAgreement.UnlockedHasState | rust/src/api/vault.rs:116-135 | at every moment of such a run, in the midst of creates, loads and locks too, a vault with a key has a state: keys are put after their state and cleared before it |
| KeyAgreement.DoubleUnlockIsExclusive | rust/src/api/app.rs:49-51 | two unlocks of one file under one password are among those that may overlap |
| KeyAgreement.OverlappingInstallsMix | rust/src/api/vault.rs:341-346 | any two overlapping creates or loads can end with the state of one and the key of the other, which agree iff the keys are the same or the one's password unlocks the mixture |
| KeyAgreement.LockDuringInstallLeavesKey | rust/src/api/vault.rs:116-135 | a lock during a create or a load can leave a key without a state: the vault reports itself unlocked and refuses every operation |
| Durability.QuiescentDurability | rust/src/api/app.rs:98-226 | with one file, successful writes, creates, loads and locks that overlap one another only as above, and loads apart from edits: the file opens to what is in memory or an unfinished call owes its save; with all calls over, it opens to what is in memory, under a password given in the run |
| Durability.WritesAreCurrent | rust/src/api/vault.rs:283-312 | whenever the file changes in such a run, with no other thread in a create, it opens from then on to the memory of that moment: no older snapshot overwrites a newer one |
| Durability.LoadAroundEditLosesIt | rust/src/api/vault.rs:316-349 | a load that reads before an edit and installs after it leaves memory without the saved edit, all calls having succeeded |
| Durability.SaveDuringCreateIsTorn | rust/src/api/app.rs:43-46 | an edit that saves between the two puts of a create writes the new state under the old key; unless a password that passes the new hash derives that key, none opens the file with it |
| Utf8.RoundTrip | rust/src/frb_generated.rs:3307-3313 | decoding the UTF-8 encoding of a text gives the text |
| Utf8.Canonical | rust/src/frb_generated.rs:3307-3313 | only the encoding of a text decodes to it |
| Wire.ConnectionRoundTrip | rust/src/frb_generated.rs:3322-3358 | either half reads back a connection and leaves exactly what follows, iff all lengths are below 2^31 and, when Dart reads, no text starts with a byte order mark |
| Wire.FolderRoundTrip | lib/src/rust/frb_generated.dart:3576-3583 | the same for folders |
| Wire.DataRoundTrip | rust/src/frb_generated.rs:3528-3538 | the same for the vault's data with both lists |
| Wire.ConnectionUniquelyDecodable | rust/src/frb_generated.rs:3985-4004 | no encoding of a connection is a prefix of another's |
| Wire.DataUniquelyDecodable | rust/src/frb_generated.rs:4032-4070 | no encoding of the vault's data is a prefix of another's |
| Wire.FolderUniquelyDecodable | rust/src/frb_generated.rs:4006-4013 | no encoding of a folder is a prefix of another's |
| Wire.TextUniquelyDecodable | rust/src/frb_generated.rs:3971-3976 | no encoding of a text is a prefix of another's |
| Wire.OptUniquelyDecodable | rust/src/frb_generated.rs:4062-4070 | no encoding of an optional text is a prefix of another's |
| Wire.TextsUniquelyDecodable | rust/src/frb_generated.rs:4022-4030 | no encoding of a list of texts is a prefix of another's |
| Wire.CallUniquelyDecodable | lib/src/rust/frb_generated.dart:1937-1950 | two add_connection calls that differ in any argument differ on the wire |
| Wire.MarkIsLost | lib/src/rust/frb_generated.dart:3514-3519 | an input that does not survive: a text of a byte order mark and a letter arrives in Dart as the letter |
| Wire.CallRoundTrip | lib/src/rust/frb_generated.dart:1937-1950 | the 13 arguments Dart writes for add_connection are those Rust serves, with nothing left over, iff all lengths are below 2^31 |
| Wire.OversizedList | lib/src/rust/frb_generated.dart:3603-3625 | a list of 2^31 to 2^32 - 1 records is read by Dart as empty with all items left over, and refused by Rust |
| Vectors.ConnectionExample | rust/src/frb_generated.rs:3985-4004 | the bytes of one connection, every field different, in both byte orders |
| Vectors.FolderExample | rust/src/frb_generated.rs:4006-4013 | the bytes of one folder, with and without a parent |
| Vectors.DataExample | rust/src/frb_generated.rs:4164-4170 | the connections' count comes before the folders |
| Vectors.CallExample | lib/src/rust/frb_generated.dart:1937-1950 | the bytes of one add_connection call |
| Vectors.ProtocolExamples | rust/src/frb_generated.rs:4072-4090 | the code of each protocol |
| Vectors.JsonExample | rust/src/api/models.rs:13-38 | what stands under which name in the JSON of one connection |
| Vectors.ShortCharacters | rust/src/frb_generated.rs:3971-3976 | an example of section 7 of RFC 3629 with characters of one, two and three bytes |
| Vectors.MarkAndLongCharacter | rust/src/frb_generated.rs:3971-3976 | another, of a byte order mark and a character of four bytes |
| Serializer.SseSerializer.WriteData | rust/src/frb_generated.rs:3971-4170 | the writer appends exactly the specified bytes to its buffer |
| Serializer.SseSerializer.WriteConnection | lib/src/rust/frb_generated.dart:3962-3981 | field by field, the writer appends the bytes of the connection |
| Serializer.SseDeserializer.ReadData | rust/src/frb_generated.rs:3307-3538 | the reader returns what the bytes at its cursor parse to and moves the cursor to where they end |
| Serializer.SseDeserializer.ReadConnection | lib/src/rust/frb_generated.dart:3539-3574 | field by field, the reader returns the connection at its cursor |
| Serializer.SendData | rust/src/frb_generated.rs:3971-4170 | one half's writer and the other's reader together are the identity, iff lengths fit and, when Dart reads, no text starts with a byte order mark |
| Pump.Conservation | rust/src/api/ssh.rs:131-169 | in every schedule: while the loop runs each side has been given all the other gave, in order; at its end each a prefix, at most one short, by 8192 bytes at most |
| Pump.StreamsDecide | rust/src/api/ssh.rs:131-169 | by the streams' answers alone: the loop runs on iff no side was at its end, failed or took less than a chunk; it ends in the first turn in which one did, with exactly what was read up to there taken and what was written delivered |
| Pump.ShuttleThrough | rust/src/api/ssh.rs:138-150 | one direction through the shared buffer delivers what it read, whatever the buffer held before, and goes on unless a stream ends it |
| Pump.RunPump | rust/src/api/ssh.rs:132-169 | the loop over the one buffer runs on iff the streams let it, and takes and delivers exactly what they say, nothing lost and nothing twice |
| Shell.SendInput | rust/src/api/ssh.rs:362-390 | the reply by the channel's own answers, each of the five iff its cause; the stream grows by exactly the data on success or a failing flush, by what was accepted, a proper prefix, on every other end |
| Shell.ReplyIsEarned | rust/src/api/ssh.rs:373-390 | Sent iff the channel takes all bytes before it gives up and the flush works, FlushError iff it does not; Timeout or WriteError iff an attempt that is reached blocks past two seconds or fails; NotYet otherwise |
| Shell.WriteAll | rust/src/api/ssh.rs:373-384 | the loop ends where the attempts lead, having put exactly the accepted part on the stream |
| Shell.EndlessIffIdleForever | rust/src/api/ssh.rs:373-384 | the call never returns iff, before some attempt, the channel neither fails nor blocks past the timeout nor takes all bytes, and reports only writes of zero bytes from there on |
| Shell.WritingIffReaches | rust/src/api/ssh.rs:373-384 | the loop is still writing after some attempts iff the channel's own answers so far let it, and has then written what the channel accepted |
| Shell.NothingTakenIsEndless | rust/src/api/ssh.rs:373-384 | such a channel: one that takes nothing, for ever, of a single byte |
| Shell.ProgressEnds | rust/src/api/ssh.rs:368-384 | on a channel that never reports a write of nothing, the call returns within a number of attempts given by its bytes and its timeout |
| Senders.SendsAreAtomic | rust/src/api/ssh.rs:362-390 | over every run with any number of senders, openers and closers, each channel's stream is the calls' contributions one after the other, whole for Ok and a prefix for failures |
| Senders.OrderOnlyGrows | rust/src/api/ssh.rs:363-366 | the order of the contributions is that in which the guard was taken, and is never revised |
| Senders.RepliesAreEarned | rust/src/api/ssh.rs:362-390 | in every run each call that has returned has replied as the answers to its own attempts, and its own flush, make a lone send_input reply |
| Senders.ChannelsFollowOrder | rust/src/api/ssh.rs:322-326 | the slot holds the channel of the last open in guard order unless a close came after it, and each sender writes to the channel that the calls before it have left, or finds none |
| Senders.SomeoneCanMove | rust/src/api/ssh.rs:363-366 | in every run the owner of the guard can go on whatever the channel answers, and without an owner every waiting call can take it |
| Senders.NothingOnNewChannel | rust/src/api/ssh.rs:322-326 | no call has written on a channel before it was opened |
| Teardown.RunsKeepAccounts | rust/src/api/ssh.rs:52-78 | over every run each session and channel ever stored is in one place: a slot, closed, or overwritten |
| Teardown.NothingTwice | rust/src/api/ssh.rs:269-287 | over every run no channel is closed twice and no session disconnected twice |
| Teardown.SlotsAfterRun | rust/src/api/ssh.rs:52-436 | by the calls alone: a slot is full iff a call filled it and none since has emptied it, and session and channel are then the ones made last |
| Teardown.LostIffFilledOver | rust/src/api/ssh.rs:302-326 | over every run no session or channel is thrown out unclosed unless a call fills a slot that is full |
| Teardown.DropEmptiesExactly | rust/src/api/ssh.rs:432-436 | after Drop, channel and session are closed; the jump session stays in its slot iff there is one and the session's disconnect fails |
| Teardown.DropLeavesJump | rust/src/api/ssh.rs:278-286 | such a run: after a jumped connection and a failing Drop, the jump session is in its slot and was never disconnected |
| Teardown.SecondDisconnectEmptiesAll | rust/src/api/ssh.rs:278-286 | what a failing disconnect leaves, a later one takes: all slots empty, everything in them closed once |
| Teardown.SshConnection.Connect | rust/src/api/ssh.rs:52-78 | stores the session or sessions only on success |
| Teardown.SshConnection.OpenShell | rust/src/api/ssh.rs:295-326 | needs a session, and stores a new channel in place of the last |
| Teardown.SshConnection.CloseShell | rust/src/api/ssh.rs:420-429 | closes the channel in the slot, if any, and empties it |
| Teardown.SshConnection.Disconnect | rust/src/api/ssh.rs:269-287 | closes the channel, then the session, and the jump session unless that fails |
| Teardown.SshConnection.Drop | rust/src/api/ssh.rs:432-436 | does what a disconnect does, whatever its outcome |

## Left out

- FolderTree.FilterCommutes: the number in a folder's header counts the connections the filter left, so rows equal the unfiltered ones up to that number.
- FolderTree.ChainBound: rendering is stated for folder lists with unique ids, which `VaultOps.RunsKeepConsistent` keeps; a hand-made vault file that repeats an id is not covered.
- KeyAgreement.KeysAgreeInExclusiveRuns: the condition says which calls may overlap, not which schedules; of two calls that must not overlap some schedules are harmless.
- Integrity.CarefulRunsKeepConsistent: assumes that a sealed text opens to itself or not at all under whatever key (`VaultFile.Primitives.Authentic`), as AES-GCM's tags are for; the condition is sufficient, for which calls may overlap.
- Durability.WritesAreCurrent: excepts a write while another thread is in a create, which `Durability.SaveDuringCreateIsTorn` shows to be torn until the create saves.
- Wire.CallRoundTrip: Dart integers wider than 16 or 64 bits and unpaired surrogates in Dart strings, which the model's types exclude; a panic or exception in a reader is a value, not an abort.
- Wire.OversizedList: in Rust, allocating such a list may fail first.
- Senders.SendsAreAtomic: `resize_pty` also takes the guard but writes no bytes; the clocks of concurrent calls are not related to one another.
- VaultOps.DoesOneThing: excepts the import, whose order `VaultOps.ImportAddsFirstOccurrences` gives.
- Pump.Conservation: liveness, since reads on the jump session may block; failing flushes, which the source ignores, do not lose bytes here.
- Vault.Vault.ImportConnections: fresh ids are supplied for every element of a batch and those of duplicates go unused, while the source draws them only when needed.
- Vault.Vault.SaveToFile: partial writes; creating the directory and writing the file succeed or fail as one.
- Concurrency.RunsNeverDeadlock: mutex poisoning after a panic; readers of the vault's data are a section that changes nothing.
- The name map of the import is written and never read in the source; the model keeps it and proves nothing of it.
- UUIDs are an injective supply; AES-GCM, Argon2, base64 and JSON text are functions with their inverse laws; UTF-8 and the JSON fields with their defaults are modelled.
- XML text parsing, `to_uppercase` and `toLowerCase` are library functions: the model starts at element trees and takes the case functions as parameters.
- The other operations of app.rs (add, update and delete of connections and folders) are a mutation followed by a save and appear as scripts in `Concurrency` and together as `Serial.ChangeAndSave`, not one by one in `App`.
- The reader thread of `open_shell` is one direction of the pump with a smaller buffer.
- SSH handshake and authentication, `execute_command`, RDP, VNC, TCP, the keyring, URL launching and exporting.
- Widgets, dialogs, terminal tabs and all of the generated dispatch code other than the codec of data types.
