# Verification of the xlReg registry

A Dafny model of the xlReg registry protocol and proofs of what it guarantees. `dafny verify dfyconfig.toml`
checks everything.

The system has a server that keeps clusters of members and a filter of node IDs in use, any number of sessions
served concurrently, and clients that join a cluster and poll until they know their fellow members. Three text
formats describe clients, clusters and the registry's credentials.

## How it is modelled

- **Small steps.** `Handlers` splits every message handler at its locks: `Receive` takes a message through the
  dispatch table, and each `Advance` is one critical section. `Runs` interleaves these steps over any number of
  connections: arbitrary peers that send anything, and MemberMaker clients that follow their scripts.
  `Theorems`, `Races` and `Overlaps` state what holds of every reachable state, and what can happen from every one.
- **Objects.** `Objects`, `InHandlers` and `Makers` hold the classes that the source updates in place
  (RegCluster, Registry, InHandler, MemberMaker), with their loops. Each method is proved against a function on
  values: `Whole` says what a whole message comes to, and `Alone` proves that this is what the critical sections
  come to when nobody interrupts them, and that it is a run of the whole system.
- **Text.** `Lines` and `Numbers` model trimming, splitting, hex, decimal, shift and or; `ClientText`,
  `ClusterText` and `CredText` print and parse. Each round trip holds if and only if a stated condition on the
  value holds.
- **Libraries.** What other packages do (RSA, SHA1, the Bloom filter's key selector, node and endpoint
  constructors, BaseNode text) are function parameters: fields of `Env`, `Codec` and `Forms`. Random IDs are
  parameters too. Every theorem is for every choice of them; the few laws needed (a signature verifies, a key
  text is read back) are stated as predicates.
- **Panics.** A Go panic in a session stops the server: the session's pc becomes `Panicked` and the world
  `crashed`. So no handler has a precondition on the message it gets.

## Where the code and its documentation differ

The model follows the code. Where that breaks something that is promised, there is a run that shows it from every
state the server can be in, and the exact condition under which the promise holds.

- The protocol document says a second Create of a name is answered with an error. The code answers it with the
  existing cluster's properties (`Theorems.CreatesAgree`), except in two cases. A Create without a name is refused
  once a cluster has the name that stands in for none (`Whole.CreateRefusedExactlyWhen`). And of two racing Creates
  of one name the later to reach AddCluster is refused (`Theorems.CreateRefusedExactlyAt`).
- The protocol document says a Join of a full cluster is refused. The code never compares with the size
  (`Whole.JoinIgnoresSize`, `Overlaps.OverfullReachable`).
- The protocol document promises an error for a Join of an unknown cluster. The code goes on with a nil cluster
  and panics (`Theorems.PanicsExactlyWhen`, `Overlaps.CrashByJoinReachable`).
- IDs are meant to be issued and registered once. Check and insertion are separate, so an ID is repeated exactly
  when two sessions hold it in between (`Races.IDsDistinctExactlyWhen`, `Overlaps.IDRaceReachable`).
- Member names are meant to be unique within their cluster. Check and append are under different locks, so a name is
  repeated exactly when two sessions past the check bring it (`Races.NamesDistinctExactlyWhen`,
  `Overlaps.NameRaceReachable`).
- Member IDs are meant to be unique within their cluster too, but AddMember looks up the cluster's own ID, so an
  append keeps them distinct exactly when the member's ID was not listed (`Stores.AppendDistinctIDs`,
  `Overlaps.SharedIDReachable`). The by-ID index keeps the last member with each ID.
- An endpoint count below one is meant to be an error, but the error is overwritten (`Objects.RegCluster.Make`).
- Attrs of a cluster are printed as 64 bits but parsed as a signed number, so values from 2^63 on do not come back
  (`Numbers.ParsePrintedHex`).

## Model

| member | source | states |
|---|---|---|
| `Theorems.SlotsComeFromMembers` | memberNode.go:494-553 | in every reachable state, a filled slot i of a client's table is what the client makes of the token of member i of its cluster |
| `Theorems.ClientsAgree` | memberNode.go:530-547 | in every reachable state, two clients of one cluster agree wherever both have filled a slot |
| `Theorems.CompleteMeansFull` | memberNode.go:548-550 | a client with nothing left to get, before or after its Bye, has a table of exactly the cluster's max size, every slot filled |
| `Theorems.CompleteClientsEqual` | memberNode.go:494-553 | two clients of one cluster with nothing left to get, whether or not either has finished, hold equal tables |
| `Theorems.TableInStep` | memberNode.go:489-553 | in every reachable state at most 32 Gets were sent, and from the answer to its Join to the end of its script a client's table has max-size slots, filled if and only if the bit is clear |
| `Theorems.SlotsAreKept` | memberNode.go:494-553 | no step of anyone overwrites a filled slot, and the mask of a polling client only shrinks |
| `Theorems.FullGetCompletes` | memberNode.go:494-573 | a Get answered from at least max-size members, the first max-size of them convertible, leaves nothing to get, and SelfIndex is then the least slot with the client's ID |
| `Theorems.SelfIndexIsJoinPosition` | memberNode.go:554-573 | SelfIndex of a complete client, before or after its Bye, is its join position, if that is below max size and no earlier member has its ID |
| `Theorems.RegistryConsistent` | registry.go:184-223 | in every reachable state the cluster list and both indexes describe the same clusters, names and IDs are pairwise distinct, and sizes are in 2..64 |
| `Theorems.PositionsArePermanent` | registry.go:196-216 | from any moment of a run on, clusters keep position, name, ID, size and endpoint count, and member lists only grow |
| `Theorems.CreatesAgree` | msg_handlers.go:186-236 | all successful Creates of one name in a run carry the same ID, max size (in 2..64) and endpoint count |
| `Theorems.JoinsAgreeWithCreates` | msg_handlers.go:319-341 | a successful Join, by ID or by name, of the cluster a Create answered for carries the same ID, max size and endpoint count |
| `Theorems.SessionsSpeakTheLanguage` | in_handler.go:136-203 | the successful messages of any session form a prefix of (Member Create? (Join Get*)?)? Bye and lead to its state |
| `Theorems.OneReplyEach` | in_handler.go:159-202 | every message but the one under way has had exactly one reply, the partner of the request or Error, and Error if and only if the session is closed |
| `Theorems.ClientIsSet` | msg_handlers.go:319-322 | whenever AddMember runs for a session its client is set and its cluster is listed |
| `Theorems.CreateRefusedExactlyAt` | registry.go:196-222 | in every reachable state, a Create that has got to AddCluster is refused if and only if a listed cluster has its name or its ID by then |
| `Theorems.CreateIsTakenUp` | msg_handlers.go:186-211 | on receipt a Create is answered at once if a listed cluster has its name, and otherwise goes on to draw an ID; it is never refused there |
| `Theorems.PanicsExactlyWhen` | in_handler.go:151-159 | in every reachable state a step brings the server down if and only if it delivers a message whose op is outside 2..12, or whose state is untabled, or a Join that no listed cluster matches |
| `Theorems.AdvanceNeverPanics` | msg_handlers.go:99-438 | no critical section after receipt panics |
| `Theorems.ScriptsNeverMisstep` | user_client.go:92-118 | no request of the solo, admin, user or bootstrap script, including a bootstrapper's Bye after failed polling, reaches badCombo, in any state and after any number of Gets |
| `Theorems.ScriptsEndInBye` | solo_client.go:89-98 | a script that ran to its end leaves the session in BYE_RCVD |
| `Theorems.IDsInUseAreKnown` | registry.go:119-159 | in every reachable state the filter answers yes for every inserted ID, every cluster, every member and every session's client |
| `Runs.NextKeeps` | reg_server.go:81-99 | every step of every interleaving keeps the invariant of stores, sessions, clients, log and filter, and the stores only grow |
| `Races.IDsAreConserved` | registry.go:139-165 | in every run, races or not, the insert count is 1 plus client IDs inserted plus clusters listed, refused or about to be added |
| `Races.IssuedIDsAreFresh` | registry.go:228-244 | if at no moment two sessions hold one ID between check and insertion, every inserted ID differs from all before it, despite false positives, and the count is the number of distinct IDs |
| `Races.TwinsRepeatID` | registry.go:139-159 | two sessions holding one ID insert it twice if each takes its next critical section, in any state |
| `Races.IDsDistinctExactlyWhen` | registry.go:139-244 | throughout a run no ID is repeated, nor would be by any two sessions going on, if and only if at no moment two sessions hold one ID between check and insertion |
| `Races.MemberNamesAreDistinct` | reg_cluster.go:88-132 | if at no moment two sessions past the name check bring one name to one cluster, member names are distinct and the by-name index is exactly the name view of the list |
| `Races.RivalsRepeatName` | reg_cluster.go:93-128 | two sessions past the name check that bring one name to one cluster list it twice if each goes on, in any state |
| `Races.NamesDistinctExactlyWhen` | reg_cluster.go:88-132 | throughout a run no name is listed twice, nor would be by any two sessions past the name check going on, if and only if at no moment two of them bring one name to one cluster |
| `Races.MemberIndexesAreListed` | reg_cluster.go:119-128 | under every interleaving the by-name keys are the listed names with a listed member each, and the by-ID index gives the last member with each ID |
| `Races.OverlapRepeatsID` | registry.go:139-159 | two overlapping InsertIDs of one unknown ID insert it twice |
| `Races.OverlapRepeatsName` | reg_cluster.go:93-128 | two overlapping AddMembers of one free name list it twice |
| `Overlaps.IDRaceReachable` | msg_handlers.go:121-128 | from every reachable state and for every acceptable unknown ID, a run inserts it twice |
| `Overlaps.NameRaceReachable` | reg_cluster.go:88-132 | from every reachable state, for every cluster that takes members and every acceptable client with a free name, a run lists the name twice |
| `Overlaps.SharedIDReachable` | reg_cluster.go:109-117 | from every reachable state, for every cluster that takes members, two acceptable clients with one ID and two free names both join without overlapping, and the ID is listed twice |
| `Overlaps.CrashByJoinReachable` | msg_handlers.go:289-322 | from every reachable state, a Join of any ID that no listed cluster has brings the server down |
| `Overlaps.CrashByOpReachable` | in_handler.go:151-159 | from every reachable state, any message whose op is outside 2..12 brings the server down |
| `Overlaps.OverfullReachable` | reg_cluster.go:88-132 | from every reachable state, every full cluster that takes members can be given one more |
| `Sessions.ReceiveKeeps` | in_handler.go:147-159 | receiving any message in any open session keeps the session invariant, which covers its state, its trace and its reply |
| `Sessions.AdvanceKeeps` | msg_handlers.go:99-438 | each critical section keeps the invariants of the stores and of the session, and the stores only grow |
| `Sessions.ErrorChangesNothing` | in_handler.go:164-175 | a step that answers Error closes the session and changes no list and no index; only the filter may have grown |
| `Stores.AddClusterKeeps` | registry.go:184-223 | AddCluster is refused with -1 and no change if and only if the name or ID is listed; otherwise the cluster takes the next position, and list and indexes still agree |
| `Stores.AppendKeeps` | reg_cluster.go:119-128 | an append keeps both member indexes exact, even if the name or the ID is already listed |
| `Stores.AppendDistinct` | reg_cluster.go:93-128 | member names are distinct after an append if and only if they were before and the name was free at that moment |
| `Stores.AppendDistinctIDs` | reg_cluster.go:108-128 | member IDs are distinct after an append if and only if they were before and the member's ID was not in the by-ID index |
| `Stores.NameView` | reg_cluster.go:88-132 | with distinct names, looking up each member's name gives that member |
| `Stores.ClustersDistinct` | registry.go:199-216 | two positions of the cluster list differ in name and in ID |
| `GetReply.PackIsAligned` | msg_handlers.go:404-426 | for every mask and list, token k belongs to the k-th lowest bit of the returned mask, the mask is within the requested and existing members, and a wanted one is missing only from the first unmakeable token on |
| `GetReply.PackTokens` | msg_handlers.go:410-425 | the token loop computes exactly the specified mask and tokens, aligned |
| `GetReply.PackStable` | msg_handlers.go:405-425 | a reply depends only on the members counted, so joins during the token loop do not disturb it |
| `GetReply.PackUnpack` | memberNode.go:530-547 | unpacking an aligned reply puts every token back in the slot it came from and leaves all other slots alone |
| `GetReply.RoundKeepsStep` | memberNode.go:494-553 | a round keeps "slot filled if and only if bit clear", even when a token does not convert, and touches no filled slot |
| `GetReply.FailureRemains` | memberNode.go:539-544 | a failed last conversion leaves its bit to get |
| `GetReply.RoundCompletes` | memberNode.go:548-550 | a round against a cluster with at least as many members as the table has slots, those convertible, empties the mask |
| `Dispatch.TableAccess` | in_handler.go:114-159 | the table index is in range if and only if the op is in 2..12 and the state is one of the four tabled ones |
| `Dispatch.AdmittedIffInLanguage` | in_handler.go:48-57 | the table admits a message sequence if and only if it is a prefix of (Member Create? (Join Get*)?)? Bye |
| `Dispatch.LanguageAdmitted` | in_handler.go:48-57 | every word of that language is admitted, and a word with its Bye ends in BYE_RCVD |
| `Signing.MakeToken` | memberNode.go:331-371 | the client's loops strip and sign exactly the bytes the server will hash, so under the sign and verify law the token verifies |
| `Signing.CheckToken` | msg_handlers.go:68-98 | the server's digest loop and checks accept exactly the tokens whose keys parse and whose signature verifies over the token's own fields |
| `Signing.HonestMemberIsHeard` | msg_handlers.go:76-129 | an honestly signed Member message reaches the ID stage with exactly the sender's data, for every name, attrs, keys and endpoints |
| `Digest.DigestCoversAttrs` | msg_handlers.go:83-95 | for one name no two attrs values give the same bytes to hash, whatever keys and endpoints follow |
| `Whole.CreateRefusedExactlyWhen` | msg_handlers.go:186-222 | an uninterrupted Create is refused if and only if it has no name, a cluster has the name that stands in for none, and a new ID was drawn |
| `Whole.JoinIgnoresSize` | msg_handlers.go:319-344 | a Join is accepted if and only if the name and the cluster's own ID are free, so the size is kept if and only if the cluster was below it or the Join was refused |
| `Whole.MessageOnce` | in_handler.go:159-198 | a message is answered exactly once if its handler comes to an end and not at all otherwise |
| `Alone.MessageAlone` | msg_handlers.go:34-462 | for every message in every state, the critical sections run without interruption come to the whole-message function |
| `Alone.JoinAlone` | reg_cluster.go:88-132 | the three lock sections of AddMember, uninterrupted, are one atomic AddMember |
| `Alone.FinishIsRun` | in_handler.go:159 | an uninterrupted handler is a run of the whole system in which no other session changes |
| `Alone.SessionSound` | in_handler.go:136-203 | a whole session served alone keeps every invariant of the runs |
| `Objects.RegCluster.Make` | reg_cluster.go:43-74 | makes the cluster unless the size is zero with a positive endpoint count |
| `Objects.RegCluster.AddMember` | reg_cluster.go:88-132 | appends the member and updates both indexes, or changes nothing, exactly as the value-level AddMember |
| `Objects.Registry.constructor` | registry.go:81-126 | the new registry has no clusters and a filter holding its own ID, unless even the empty filter answers yes for it |
| `Objects.Registry.ContainsID` | registry.go:130-138 | answers what the filter answers |
| `Objects.Registry.InsertID` | registry.go:139-159 | refuses an ID the filter knows, otherwise inserts it |
| `Objects.Registry.InsertUniqueNodeID` | registry.go:228-244 | the retry loop inserts the first drawn ID the filter does not know, and nothing if there is none |
| `Objects.Registry.IDCount` | registry.go:160-165 | returns the number of insertions |
| `Objects.Registry.AddCluster` | registry.go:184-223 | list and pointer indexes move exactly as the value-level AddCluster, and the index returned is its position or -1 |
| `InHandlers.InHandler.DoClientMsg` | msg_handlers.go:43-154 | leaves the registry, the client, the reply and the exit state as the whole Member message does, including every error path |
| `InHandlers.InHandler.DoCreateMsg` | msg_handlers.go:164-240 | leaves the registry, the cluster, the reply and the exit state as the whole Create message does |
| `InHandlers.InHandler.DoJoinMsg` | msg_handlers.go:248-349 | leaves the cluster and the session as the whole Join message does, or panics exactly when that has no cluster |
| `InHandlers.InHandler.DoGetMsg` | msg_handlers.go:363-439 | changes nothing but the reply and the exit state, which are those of the whole Get message |
| `InHandlers.InHandler.DoByeMsg` | msg_handlers.go:443-462 | answers Ack and leaves the session in BYE_RCVD |
| `InHandlers.InHandler.BadCombo` | msg_handlers.go:34-36 | sets the error that closes the session |
| `InHandlers.InHandler.Serve` | in_handler.go:147-199 | one turn of the loop: the handler object still stands for the session after the whole message, and its outgoing message is the session's reply |
| `InHandlers.InHandler.Start` | in_handler.go:136-205 | the loop over any input leaves the registry and the handler, and has sent the replies, of the whole session |
| `Makers.MemberMaker.constructor` | memberNode.go:199-210 | the table has one empty slot per proposed member |
| `Makers.MemberMaker.JoinAndReply` | memberNode.go:459-477 | takes over size and endpoint count, with a new empty table exactly when the size changes |
| `Makers.MemberMaker.FillSlots` | memberNode.go:527-547 | the slot loop fills the array and clears the bits of converted tokens as the unpacking functions say, also when it breaks off, which it does if and only if the mask has more bits than tokens |
| `Makers.MemberMaker.FindSelf` | memberNode.go:554-573 | SelfIndex becomes the least filled slot with the client's ID, or stays |
| `Makers.MemberMaker.GetAndMembers` | memberNode.go:483-576 | for every sequence of replies, also those that make it break off, the nested loops leave the client, and have sent the requests, of the polling function, and at most 32 requests |
| `Makers.PollsBounded` | memberNode.go:489-494 | polling sends at most 32 Gets whatever the replies |
| `ClientText.ClientStrings` | clientInfo.go:142-156 | the printing loops produce the specified lines |
| `ClientText.CollectAttrs` | clientInfo.go:161-189 | the shift-and-or loop reads what the attrs parser reads |
| `ClientText.CollectMyEnds` | clientInfo.go:190-220 | the peek-and-append loop reads what the endpoint parser reads, including its panic on running out of lines |
| `ClientText.ParseClientInfo` | clientInfo.go:228-250 | the chain of steps parses as the client parser does |
| `ClientText.AttrsRoundTrip` | clientInfo.go:161-189 | all 2^64 attrs values survive 16 hex digits decoded by shift and or |
| `ClientText.ClientRoundTrip` | clientInfo.go:142-250 | printing then parsing, at any indentation and before any tail, gives the client and that tail if and only if its endpoints are nil, or non-empty with trimmed, non-blank entries other than a brace |
| `ClientText.ClientTextRoundTrip` | clientInfo.go:158-226 | through joined and split text the same, if and only if besides no endpoint holds a newline |
| `ClientText.ClientEqual` | clientInfo.go:101-138 | Equal holds if and only if all fields are equal, with nil and empty endpoint lists apart |
| `ClusterText.ClusterStrings` | reg_cluster.go:218-239 | the nested printing loops produce the specified lines |
| `ClusterText.ParseRegCluster` | reg_cluster.go:248-386 | the parser's steps and its member loop parse as the cluster parser does |
| `ClusterText.ClusterRoundTrip` | reg_cluster.go:218-386 | printing then parsing before any tail gives an Equal cluster and that tail if and only if attrs are below 2^63, the name is not empty and not blank at its end, the ID has a node ID's length, a zero size comes only with no endpoints, member names are distinct, no member but the last has the cluster's ID, and all members' endpoints come back |
| `ClusterText.ClusterTextRoundTrip` | reg_cluster.go:241-247 | through joined and split text the same, if and only if besides neither the name nor any member's endpoint holds a newline |
| `ClusterText.ClusterEqual` | reg_cluster.go:149-214 | Equal holds if and only if the printed fields and the member lists are equal |
| `ClusterText.AddAllExact` | reg_cluster.go:345-359 | a list of members can be added one by one if and only if names are new and distinct and the cluster's ID occurs at most at the end; exactly they are appended |
| `Numbers.DecodeEncode` | clientInfo.go:171 | hex decoding undoes hex encoding |
| `Numbers.AssembleBigEndian` | clientInfo.go:176-180 | or-ing the bytes shifted into place rebuilds the 64-bit word |
| `Numbers.ParsePrintedHex` | reg_cluster.go:269-273 | a printed 64-bit word is parsed back as a signed number if and only if it is below 2^63 |
| `Numbers.ParsePrintedDec` | reg_cluster.go:312-331 | a printed count is parsed back |
| `CredText.CredText` | reg_cred.go:27-51 | the printing loop produces the specified CRLF text |
| `CredText.EndPointsLoop` | reg_cred.go:122-142 | the endpoint loop reads what the endpoint parser reads |
| `CredText.ParseRegCred` | reg_cred.go:53-176 | the chain of steps parses as the credential parser does |
| `CredText.CredRoundTrip` | reg_cred.go:27-176 | printing then parsing gives the credentials back if and only if the name is not empty, on one line, without blanks at its ends and without a colon-space; for any number of endpoints and despite the blank lines left by the keys |
| `CredText.CredReprint` | reg_cred.go:27-176 | printing, parsing and printing again gives identical text |

## Left out

- AES sessions, the hello exchange, RSA and SHA1 themselves: library calls; sessions start in HELLO_RCVD and the laws needed are predicates.
- Protobuf encoding: messages are records whose absent scalars read as zero, and transport loses nothing.
- TCP, acceptors, timeouts, sleeps, logging, debug prints and the text of error messages.
- Internals of HAMT, Bloom filter, BitMap64, NodeID, endpoints and BaseNode: maps, a set of bit positions with an unknown key selector, sets of bit numbers, byte strings of 20 or 32 bytes, and function parameters. HAMT creation and insertion always succeed.
- Whether drawing a random ID ends: an uninterrupted draw over given values may end without a new one, and says so.
- Preloaded clusters, the backing file and the credentials file of a registry.
- Concurrent use of the objects: `InHandlers` serves one session alone; concurrent sessions are in the step model, where objects are values and a cluster pointer is the cluster's position in the list.
- A bootstrapper that says Bye while its JoinCluster is still under way.
- A member count of 2^32 or more, where the 32-bit Size would wrap.
- A token without an ID, for which the client would draw a random one; the server always sends an ID.
- In the signed-number parser, digit separators and the binary and octal prefixes of newer Go versions; printed text has none.
- CredText.CredRoundTrip: takes for granted that key, endpoint and version texts are trimmed single lines without a colon-space that their own parsers read back.
- ClientText.ClientTextRoundTrip: takes for granted, as does ClusterText.ClusterTextRoundTrip, that BaseNode text has no newline within a line and that its parser leaves the end of the lines it was given.
- RegNode serialization, the RegServer serialization stubs, ParseRegistry, indexClusterMember, command-line set-up and option records.
