# Verification model

A Dafny 4.11 model of the parts of the platform whose behaviour spans several functions, with proofs of
what they promise. `dafny verify dfyconfig.toml` checks everything.

Each component has two layers. A specification defines the state and what one call does to it, as
functions on values; lemmas prove what every call, run or interleaving keeps. Beside it, methods and
classes follow the source statement by statement (loops over mutable maps, sets, counters and tables)
and are proved to compute exactly the specified result, so the lemmas hold of them.

| files | component |
|---|---|
| `Inventory`, `ArchitectureModel`, `FlowGraph`, `GraphCompiler` | inventory collection, VPC buckets, the deduplicated and laid-out graph |
| `ModelRows`, `Lookups`, `PlacedOnce` | the model and the lookups read back to inventory rows, and how often each id is stored |
| `GraphTheorems`, `GraphProperties`, `GraphEdges`, `GraphContainment`, `GraphLooks`, `AccountNodes` | what the graph contains: nodes and edges exactly, closure, reachability, counting, captions and columns, whose rows |
| `Mermaid`, `MermaidIds`, `DiagramMeaning`, `DiagramPlaces`, `DiagramRows` | the diagram text as a sequence of lines, the identifiers it declares, its arrows and subgraphs, for any model and by rows |
| `Sessions`, `SessionRuns`, `RefreshRuns`, `AuthCodes`, `AuthService` | sessions, refresh rotation and one-time codes, interleaved statement by statement |
| `Organizations`, `OrganizationRuns`, `MemberCalls`, `SeatPromises`, `OrganizationService` | memberships, invites, seats and owners over runs of calls, and when each call succeeds |
| `Billing`, `BillingRuns`, `CheckoutChecks`, `PlanSnapshots`, `SubscriptionStatus`, `CreationSaga`, `BillingService` | subscription records, plan switches, webhooks, plan snapshots, record states and the creation saga with failing calls |
| `SyncTables`, `EcsSync`, `EcsLinks`, `EcsService` | the ECS sync over three linked tables, which rows it stores and what they link to |
| `TaxIds` | CPF and CNPJ |

Assumptions about the outside, all visible as parameters, preconditions or the shape of the state:

- Fresh ids and tokens are counters or parameters required to be unused, the token hash is injective, and
  the row created last has the largest number, so "newest" is "largest".
- The save of a refresh updates its row or, when the row is gone, inserts it again with the columns that were
  read, as TypeORM's `save` does. Reading and saving are separate steps.
- No two users start with the same address; the calls keep it so.
- Times are parameters. External calls take their answers from parameters: a Stripe call works, throws
  without effect, or takes effect and throws; an AWS call answers or throws.
- An owner row is refused when its user does not exist, as the foreign key of the members table demands.
- Deleting an organization cascades to its memberships, invites and subscription record, as the foreign
  keys of `backend/src/db/migrations/1776100000000-organization-subscriptions.ts` declare for the record.
- Role arguments of invites and role changes are never OWNER (`backend/src/organization/dto.ts`), and the
  requester's membership is the one resolved for the organization of the request.
- A Stripe subscription always has a customer and never moves to another one. A subscription counts as
  live while it is neither canceled nor incomplete_expired and its customer has not been deleted.
- VPC ids are unique and none has the form given to the unassigned bucket (they are UUIDs).

Results that differ from what one might expect of the code:

- A session that was logged out or trimmed comes back exactly when a refresh had read it and saves afterwards
  (`RemovedReturnsIff`, `RemovalFinalIff`), so a user can end with four sessions (`FourSessions`).
- One refresh token yields as many token pairs as refreshes had read it before the first of them saved
  (`PairsPerToken`, `TwoRefreshes`).
- Edge ids merge distinct edges exactly when a source, as printed, continues another one past `->` and the
  targets fit (`EdgeIdMergeIff`, `EdgeIdCollision`); the graph theorems that need it require ids without
  `->`, which UUIDs satisfy.
- Closure of the graph holds exactly when every listener's load balancer is listed; collection guarantees it.
- A creation leaves an organization that never has an owner and can never be removed, exactly when the answer
  of its first save is lost, or its owner row is not stored and the cleanup is refused (`OneOwnerAlways`).
- A plan downgrade makes the acceptance of promised invites fail exactly when the new positive limit does not
  cover members and pending invites (`PromisesKeptIff`).
- Reading the subscription of a canceled organization restores its plan limits unless there is no price, no
  readable plan, or a zero plan (`ReadingRestoresPlan`).
- A late payment event turns a canceled record active, and its plan is granted again (`CanceledReactivatedIff`).
- Applying a completed checkout session a second time throws exactly when it names a previous subscription other
  than its own, where only running subscriptions can be cancelled (`SameSessionTwice`).
- A plan switch leaves running subscriptions behind exactly when there are running ones that are neither on the
  first page of a hundred nor the replaced one (`SwitchLeavesOne`, `SwitchCanMiss`).
- A creation can leave a Stripe customer or an organization row behind, exactly in the cases of
  `CreateAllOrNothing`.
- A CPF of one digit repeated passes both check digits, whichever digit it is; only the explicit test refuses it
  (`SameDigitCpf`). For a CNPJ that is so for zero alone (`SameDigitCnpj`).

## Model

| member | source | states |
|---|---|---|
| Inventory.CollectGuarantees | backend/src/aws/assessment/aws-assessment-report.service.ts:107-200 | of every table that names its owner exactly the account's rows are collected, below its VPCs and load balancers exactly theirs; with unique keys, collected ids are unique |
| ArchitectureModel.VpcMap.Place | backend/src/aws/assessment/aws-assessment-architecture.service.ts:214-220 | one resource goes into its listed VPC's bucket or, when the VPC is absent or unknown, into the bucket created on first need; every other bucket and the order of buckets stay as they were |
| ArchitectureModel.PlaceStep | backend/src/aws/assessment/aws-assessment-architecture.service.ts:167-220 | lazy creation of the unassigned bucket commutes with filling: the map after one more placement is the old map with that one bucket extended |
| ArchitectureModel.PlaceLoadBalancers | backend/src/aws/assessment/aws-assessment-architecture.service.ts:296-316 | all load balancers are placed, and the side table answers for each id the VPC of the last load balancer that names one |
| ArchitectureModel.PlaceTaskDefs | backend/src/aws/assessment/aws-assessment-architecture.service.ts:372-390 | exactly the task definitions some service uses are placed |
| ArchitectureModel.BuildArchitectureModel | backend/src/aws/assessment/aws-assessment-architecture.service.ts:167-556 | the mutable maps end as the model defined by the list of placements, VPCs in table order and the unassigned bucket last if anything needed it |
| ModelRows.ModelHolds | backend/src/aws/assessment/aws-assessment-architecture.service.ts:167-556 | a bucket of the model holds a subnet or resource if and only if a row of the inventory makes it and is at home there, with the row's columns; buckets have the columns of their VPC, and one bucket stands for each id |
| ModelRows.SummaryOf | backend/src/aws/assessment/aws-assessment-architecture.service.ts:226-262 | a subnet's summary has its columns, its visibility by type, and exactly the instances with its AWS id |
| ModelRows.GlobalRows | backend/src/aws/assessment/aws-assessment-architecture.service.ts:467-556 | the account-wide resources are those of the tables, kind by kind |
| FlowGraph.PrintInjective | backend/src/aws/assessment/aws-assessment-architecture.service.ts:745-803 | the printed node ids of two resources are equal only when kind and id are equal, whatever the ids contain |
| FlowGraph.EdgeIdMergeIff | backend/src/aws/assessment/aws-assessment-architecture.service.ts:649-671 | two edge ids coincide, for relationships without ':', if and only if the edges are the same or one source continues the other past a printed arrow and the targets fit |
| FlowGraph.SourcesCollideIff | backend/src/aws/assessment/aws-assessment-architecture.service.ts:649-671 | for two different sources some targets make the ids coincide if and only if the longer source begins with the shorter one and '->' |
| FlowGraph.EdgeIdInjective | backend/src/aws/assessment/aws-assessment-architecture.service.ts:649-671 | two edge ids are equal only when source, target and relationship all agree, for sources without '->' and relationships without ':' |
| FlowGraph.EdgeIdCollision | backend/src/aws/assessment/aws-assessment-architecture.service.ts:649-671 | the arrow condition cannot be dropped: two different printed edges from VPCs to subnets with one id |
| FlowGraph.DedupExactIff | backend/src/aws/assessment/aws-assessment-architecture.service.ts:649-671 | deduplication keeps every pushed edge if and only if no two pushed edges print alike although they differ |
| FlowGraph.GraphBuilder.AddNode | backend/src/aws/assessment/aws-assessment-architecture.service.ts:602-647 | pushing a node keeps arrays, id sets and counters equal to the fold of all pushes; a repeated id changes nothing and takes no position |
| FlowGraph.GraphBuilder.AddEdge | backend/src/aws/assessment/aws-assessment-architecture.service.ts:649-671 | pushing an edge keeps arrays and id sets equal to the fold of all pushes |
| FlowGraph.NodesExact | backend/src/aws/assessment/aws-assessment-architecture.service.ts:602-647 | after any pushes the graph has exactly one node per distinct reference pushed |
| FlowGraph.NodeCount | backend/src/aws/assessment/aws-assessment-architecture.service.ts:602-647 | the number of nodes is the number of distinct references pushed |
| FlowGraph.PositionsDistinct | backend/src/aws/assessment/aws-assessment-architecture.service.ts:569-647 | no two nodes of any run of pushes share a position, because each column's counter equals the nodes already in it |
| FlowGraph.ColumnsStacked | backend/src/aws/assessment/aws-assessment-architecture.service.ts:569-600 | the nodes of a column stand at 80, 200, 320 and so on in order of appearance |
| FlowGraph.EdgesExact | backend/src/aws/assessment/aws-assessment-architecture.service.ts:649-671 | deduplication is exact: two pushed edges merge if and only if source, target and relationship agree, and none is lost |
| GraphCompiler.BuildReactFlowGraph | backend/src/aws/assessment/aws-assessment-architecture.service.ts:558-1174 | all loops over buckets, routes, load balancers, services and global collections together push the script of the model, and the result is its fold |
| GraphTheorems.PlacedExact | backend/src/aws/assessment/aws-assessment-architecture.service.ts:167-556 | placement neither loses nor invents: a resource is placed if and only if its row is in the inventory (task definitions: in use; instances: subnet listed) |
| GraphTheorems.BucketsNodes | backend/src/aws/assessment/aws-assessment-architecture.service.ts:805-1005 | the nodes of the bucket loops are one per bucket and those of everything placed |
| GraphTheorems.RefsExact | backend/src/aws/assessment/aws-assessment-architecture.service.ts:805-1149 | the nodes of the compiled graph are exactly those of the inventory, for every kind |
| AccountNodes.NodesBelong | backend/src/aws/assessment/aws-assessment-report.service.ts:107-200 | a node is in an account's graph if and only if a row of that account makes it, itself or through its VPC or load balancer, or it is the unassigned bucket |
| GraphLooks.GraphLooksRight | backend/src/aws/assessment/aws-assessment-architecture.service.ts:602-803 | every node carries the id and name of a row and stands in the column of its kind; an edge is animated if and only if it shows a running service or traffic |
| Lookups.SubnetByIdIs | backend/src/aws/assessment/aws-assessment-architecture.service.ts:1007-1040 | a look-up by id means the last row with that id |
| Lookups.SubnetByAwsIdIs | backend/src/aws/assessment/aws-assessment-architecture.service.ts:1007-1050 | a look-up by AWS id means the last row with that AWS id |
| Lookups.AssociatedSubnetIs | backend/src/aws/assessment/aws-assessment-architecture.service.ts:1007-1024 | an association means the subnet with that AWS id or, when there is none, the one with that id |
| Lookups.ResolveLbIs | backend/src/aws/assessment/aws-assessment-architecture.service.ts:1050-1066 | a service's reference means the last load balancer with its ARN or, when it gives none or an unknown one, the first with its name |
| Lookups.SubnetOwnerIs | backend/src/aws/assessment/aws-assessment-architecture.service.ts:830-850 | the network edge goes to the VPC the subnet's row names |
| GraphProperties.ScriptEnds | backend/src/aws/assessment/aws-assessment-architecture.service.ts:805-1174 | every edge pushed by any loop ends in nodes pushed by some loop, save that a listener's load balancer may be missing |
| GraphProperties.ClosedGraph | backend/src/aws/assessment/aws-assessment-architecture.service.ts:558-1174 | with every listener on a listed load balancer no edge of the graph dangles |
| GraphProperties.ClosedIffListed | backend/src/aws/assessment/aws-assessment-architecture.service.ts:910-934 | and that is the exact condition: the graph has no dangling edge if and only if every listener's load balancer is listed |
| GraphProperties.Reachable | backend/src/aws/assessment/aws-assessment-architecture.service.ts:805-1149 | every pushed node other than the root and the VPCs has a pushed path of one or two edges from one of those |
| GraphProperties.GraphReachable | backend/src/aws/assessment/aws-assessment-architecture.service.ts:805-1149 | the same in the finished graph, after deduplication |
| GraphProperties.Conservation | backend/src/aws/assessment/aws-assessment-report.service.ts:210-244 | across collection, model and graph: nodes + unused task definitions + unhosted instances = summary total + 1 + (1 if the unassigned bucket exists) |
| GraphProperties.UnassignedIff | backend/src/aws/assessment/aws-assessment-architecture.service.ts:200-220 | the unassigned bucket exists if and only if there are ECS clusters or services or a resource whose VPC is absent or unlisted |
| GraphProperties.AssessmentGraph | backend/src/aws/assessment/aws-assessment-report.service.ts:107-244 | for tables with unique keys the served graph is closed, within two edges of its roots, has distinct ids, positions and edges, the node count the summary predicts, and nodes for the account's rows and nobody else's |
| GraphProperties.BuildAssessmentArchitecture | backend/src/aws/assessment/aws-assessment-architecture.service.ts:167-1174 | the three calls in sequence return that graph |
| GraphEdges.TaskDefSays | backend/src/aws/assessment/aws-assessment-architecture.service.ts:1068-1090 | a service's task-definition edges are exactly its reference to a listed task definition and that definition's listed roles |
| GraphEdges.ServiceSays | backend/src/aws/assessment/aws-assessment-architecture.service.ts:1031-1106 | a service whose cluster is listed contributes exactly the edges its row, its task definition and the resolved rows call for; one whose cluster is not contributes none |
| GraphContainment.BucketsSay | backend/src/aws/assessment/aws-assessment-architecture.service.ts:811-1005 | the edges of all buckets are exactly those of the placements, whatever bucket they were stored in |
| GraphContainment.PlacementsMean | backend/src/aws/assessment/aws-assessment-architecture.service.ts:226-460 | and those are containment by home VPC, hosting by subnet, and listeners of load balancers, read off the inventory rows |
| GraphContainment.EdgesMean | backend/src/aws/assessment/aws-assessment-architecture.service.ts:558-1174 | the graph has an edge if and only if inventory rows stand in the relation it shows; with GraphTheorems.RefsExact this fixes the whole graph independently of how it is compiled |
| Mermaid.DiagramNested | backend/src/aws/assessment/aws-assessment-architecture.service.ts:1176-1389 | for every model the diagram is a balanced word of subgraph and end, no prefix closes more than it opened, nesting at most two deep |
| Mermaid.DiagramDeclares | backend/src/aws/assessment/aws-assessment-architecture.service.ts:1176-1389 | every edge line mentions only nodes declared on earlier lines, and the declared nodes are exactly the model's resources, subnets and bucket roots |
| DiagramMeaning.ArrowsMean | backend/src/aws/assessment/aws-assessment-architecture.service.ts:1335-1386 | for every model an arrow with this text is in the diagram if and only if root and content, subnet and instance, load balancer and instance, or two account-wide resources stand in its relation |
| DiagramPlaces.PlacesMean | backend/src/aws/assessment/aws-assessment-architecture.service.ts:1200-1333 | for every model a node is declared inside exactly the subgraphs of its VPC and kind, or of its account-wide kind |
| DiagramRows.ArrowsAreRows | backend/src/aws/assessment/aws-assessment-architecture.service.ts:1335-1386 | the diagram of an inventory has an arrow if and only if rows stand in its relation |
| Mermaid.BuildMermaidDiagram | backend/src/aws/assessment/aws-assessment-architecture.service.ts:1176-1389 | the loops over the lines array produce that diagram |
| MermaidIds.DeclaredOnceIff | backend/src/aws/assessment/aws-assessment-architecture.service.ts:1176-1331 | no identifier is declared twice if and only if the underscored ids of roots, subnets and resources are distinct |
| MermaidIds.UnderscoredCollision | backend/src/aws/assessment/aws-assessment-architecture.service.ts:1176-1186 | two different ids can print as one identifier |
| MermaidIds.UnderscoredInjective | backend/src/aws/assessment/aws-assessment-architecture.service.ts:1176-1186 | underscoring merges no two ids that hold no '_', as UUIDs do not |
| MermaidIds.DistinctIdsDeclaredOnce | backend/src/aws/assessment/aws-assessment-architecture.service.ts:1176-1331 | for ids without '_', no identifier is declared twice if and only if no id stands twice in the model |
| PlacedOnce.EachPlacedOnce | backend/src/aws/assessment/aws-assessment-architecture.service.ts:167-556 | conservation with multiplicity: the ids in the model are one root per bucket, one id per row shown and one per account-wide resource, none lost or stored twice |
| PlacedOnce.InventoryDeclaredOnce | backend/src/aws/assessment/aws-assessment-architecture.service.ts:1176-1331 | for UUIDs no two rows share, and distinct AWS subnet ids, the diagram of an inventory declares no identifier twice |
| SessionRuns.SessionCap | backend/src/auth/auth.service.ts:373-391 | however the statements of logins, listings, refreshes and logouts interleave, a user's sessions never exceed 3 plus the logins still in flight plus the rows a refresh inserted again |
| SessionRuns.PlainSessionCap | backend/src/auth/auth.service.ts:373-391 | so where every refresh still finds its row, 3 plus the logins in flight is the limit |
| SessionRuns.NewestSurvive | backend/src/auth/auth.service.ts:450-474 | once all logins have finished and nothing else removed rows, a session exists if and only if fewer than three newer ones were ever created or a refresh inserted it again, and the latter only happens to sessions with three newer ones |
| SessionRuns.PlainNewestSurvive | backend/src/auth/auth.service.ts:450-474 | and where every refresh still finds its row, exactly the newest three are left |
| RefreshRuns.RemovedReturnsIff | backend/src/auth/auth.service.ts:393-405 | a removed session is stored again during a run if and only if a refresh that had read it saves in that run |
| RefreshRuns.RemovalFinalIff | backend/src/auth/auth.service.ts:393-405 | what can be checked at the removal: no run stores the session again if and only if no refresh that has read it is unfinished |
| RefreshRuns.FourSessions | backend/src/auth/auth.service.ts:198-230 | from any state with three unexpired sessions and nothing in flight, a refresh of the oldest around a login leaves four with nothing in flight |
| RefreshRuns.RotationRetires | backend/src/auth/auth.service.ts:198-230 | when a refresh saves, the new token is accepted for the session that was read as far as it is unexpired and its user active, and no refresh presenting the old one is accepted in any later run |
| RefreshRuns.PairsPerToken | backend/src/auth/auth.service.ts:198-230 | the refreshes given tokens for one refresh token are exactly those that had read it when the first of them saved, one pair each |
| RefreshRuns.TwoRefreshes | backend/src/auth/auth.service.ts:198-230 | two refreshes of one token are both given tokens when both read before either saves; once one has saved, the other is never accepted |
| RefreshRuns.OneSessionPerToken | backend/src/auth/auth.service.ts:393-405 | in every reachable state a refresh token names at most one session |
| RefreshRuns.AdmissionWindow | backend/src/auth/jwt.guard.ts:47-91 | whatever happens, a request is admitted only for the session's owner and at most 7 days after its login, and after a removal only if a refresh that had read the row saved it back |
| RefreshRuns.AdmissionTurns | backend/src/auth/jwt.guard.ts:47-91 | switching a user off or on, and the passing of the term, take effect at the next request |
| SessionRuns.LoginAlone | backend/src/auth/auth.service.ts:373-391 | issueTokens run alone is the sequence of interleavable statements, so the interleaved runs include it |
| SessionRuns.RefreshAlone | backend/src/auth/auth.service.ts:198-230 | refresh run alone is a read and, when accepted, a save, and leaves what the method leaves |
| RefreshRuns.RowGoesIff | backend/src/auth/auth.service.ts:309-343 | which rows each statement removes: expired ones of the user, those beyond the three newest found, the one logged out, an expired one met by a refresh or request; all others stay as they are unless a refresh saves |
| AuthCodes.AtMostOneExchange | backend/src/auth/auth.service.ts:244-278 | in every interleaving of exchanges of a Google code, at most one is given tokens |
| AuthCodes.OneExchangeSucceeds | backend/src/auth/auth.service.ts:244-278 | once some exchange has read a code as usable, in every interleaving, when all that read it have finished and the row was not swept, exactly one was given tokens |
| AuthCodes.LoneExchangeSucceeds | backend/src/auth/auth.service.ts:244-278 | an exchange of an unused, unexpired code that nobody interrupts gets tokens |
| AuthCodes.CodeWindow | backend/src/auth/auth.service.ts:244-278 | whatever happens in between, a look-up finds a code good if and only if it is unused and at most a minute old, and it is its user's |
| Sessions.EnforceExact | backend/src/auth/auth.service.ts:450-474 | a row survives enforcement, unchanged, if and only if it is somebody else's, or unexpired with fewer than three newer unexpired ones of its user |
| AuthService.Service.EnforceActiveSessionLimit | backend/src/auth/auth.service.ts:450-474 | leaves, unchanged, exactly the user's three newest unexpired sessions and everyone else's rows |
| AuthService.Service.IssueTokens | backend/src/auth/auth.service.ts:373-391 | inserts a session of the standard lifetime, which survives, and leaves the user at most three |
| AuthService.Service.Refresh | backend/src/auth/auth.service.ts:198-230 | accepts exactly the one unexpired session of an active user with that token, rotates its token and changes nothing else; a refusal deletes at most an expired row |
| AuthService.Service.Logout | backend/src/auth/auth.service.ts:232-236 | removes exactly the named session |
| AuthService.Service.RemoveMySession | backend/src/auth/auth.service.ts:327-343 | removes the session only when it is the caller's, and reports whether it was the current one |
| AuthService.Service.ListMySessions | backend/src/auth/auth.service.ts:309-325 | enforces the limit first and lists what is left, newest first |
| AuthService.Service.CanActivate | backend/src/auth/jwt.guard.ts:36-91 | admits exactly an unexpired session of its active owner and removes it when expired |
| AuthService.Service.IssueGoogleAuthCode | backend/src/auth/auth.service.ts:413-427 | sweeps expired codes and stores the hash of a new one |
| AuthService.Service.ExchangeGoogleAuthCode | backend/src/auth/auth.service.ts:244-278 | succeeds exactly on a stored, unused, unexpired code, which it uses up |
| AuthService.EnforceKeepsNewest | backend/src/auth/auth.service.ts:450-474 | the newest session of a user always survives enforcement, with at most two others |
| Organizations.FindMember | backend/src/organization/organization.service.ts:146-152 | finds a row of that organization and user whenever there is one |
| OrganizationRuns.OneOwnerAlways | backend/src/organization/organization.service.ts:56-90 | in every run no organization has two owners, owners exist as users, no user has two memberships of one organization; and every organization has an owner if and only if no creation lost the answer of its first save, or failed to store the owner and then had its cleanup refused |
| OrganizationRuns.CreateSound | backend/src/organization/organization.service.ts:56-90 | whatever fails in a creation, the organization it leaves, if it leaves one, has an owner exactly unless it was orphaned in one of those two ways |
| OrganizationRuns.StepOwnerless | backend/src/organization/organization.service.ts:136-144 | no call removes an organization without an owner or gives it one |
| OrganizationRuns.StepSound | backend/src/organization/organization.service.ts:56-483 | every single call keeps memberships, row references and users in order, keeps the owner of each organization that stays, and removes only organizations that had an owner |
| OrganizationRuns.JoinSound | backend/src/organization/organization.service.ts:332-352 | accepting an invite adds at most one membership, never an owner, and never a second one for the user |
| OrganizationRuns.RemoveUserSound | backend/src/users/users.service.ts:142-158 | deleting a user never leaves a membership behind, because it is refused while one exists |
| OrganizationRuns.RoleChangeBelowRequester | backend/src/organization/organization.service.ts:447-483 | a successful role change touches only the target's row and both finds and leaves it strictly below the requester |
| OrganizationRuns.RemovalBelowRequester | backend/src/organization/organization.service.ts:419-445 | a successful removal takes one row of the organization, below the requester's level, never the requester's own, and leaves the target no other |
| MemberCalls.RemoveMemberIff | backend/src/organization/organization.service.ts:419-445 | a removal succeeds if and only if the target is another user's non-owner row that ranks below the requester; which refusal otherwise; exactly that row goes |
| MemberCalls.UpdateRoleIff | backend/src/organization/organization.service.ts:447-483 | a role change succeeds if and only if the row is no owner's and both roles rank below the requester; which refusal otherwise; exactly that role changes |
| MemberCalls.LevelsRank | backend/src/rbac/roles.enum.ts:39-47 | OWNER over ADMIN over MEMBER over VIEWER |
| MemberCalls.InviteMemberIff | backend/src/organization/organization.service.ts:200-276 | an invitation succeeds if and only if the organization exists, a seat is free beyond members and pending invites, and the address is no member's; which refusal otherwise; the table it leaves |
| MemberCalls.GetInviteIff | backend/src/organization/organization.service.ts:180-198 | an invite is returned if and only if it is pending and not overdue; which error otherwise, and which are marked EXPIRED |
| MemberCalls.OpenUntil | backend/src/organization/organization.service.ts:180-198 | an open invite stays open as time passes exactly until its term |
| MemberCalls.JoinIff | backend/src/organization/organization.service.ts:332-352 | how a join ends and what it leaves, over membership and free seats |
| MemberCalls.AcceptDoneIff | backend/src/organization/organization.service.ts:278-417 | an acceptance succeeds if and only if the invite is open, the user with its address exists and is no member, and a seat is free |
| MemberCalls.RemoveUserIff | backend/src/users/users.service.ts:142-158 | a deletion succeeds if and only if an existing user asks for its own and is a member of nothing; then exactly that user goes |
| MemberCalls.CreateUserIff | backend/src/users/users.service.ts:84-98 | a new user is stored under its address in lower case if and only if nobody has it |
| MemberCalls.ChangeEmailIff | backend/src/users/users.service.ts:110-123 | an address changes if and only if the user exists and nobody else has it |
| OrganizationRuns.SeatReservation | backend/src/organization/organization.service.ts:558-584 | while limits change only so that a positive limit covers members and pending invites, members plus pending invites stay within the limit in every run, and accepting a valid invite is never refused for lack of seats |
| SeatPromises.RefusedIff | backend/src/organization/organization.service.ts:558-584 | an acceptance of a valid invite by a known user who is not yet a member is refused for lack of seats if and only if the limit is positive and the members reach it; otherwise it becomes a membership |
| SeatPromises.NoneRefusedIff | backend/src/organization/organization.service.ts:278-417 | acceptances of different invites by different such users, in any order, are all free of that refusal if and only if the limit is not positive or covers the members and all of them |
| SeatPromises.PromisesKeptIff | backend/src/organization/organization.service.ts:558-584 | what a caller can check before a plan change: under a new limit every order of accepting all pending invites is free of refusals if and only if nothing is pending, the limit is not positive, or it covers members and pending invites |
| SeatPromises.FixedSeatReservation | backend/src/organization/organization.service.ts:558-584 | with limits that never change no promised seat is ever refused |
| SeatPromises.DowngradeBreaksPromise | backend/src/organization/organization.service.ts:344-344 | a reachable state in which a downgrade makes a promised seat be refused |
| OrganizationRuns.InviteUsedOnce | backend/src/organization/organization.service.ts:278-417 | an invite gives its own role in its own organization to a user with its address, and after any further calls accepting it again is refused |
| OrganizationRuns.RunOnePending | backend/src/db/migrations/1773000000000-add-unique-index-invites.ts:5-17 | in every run an organization has at most one pending invite for an address |
| OrganizationRuns.InviteReplaces | backend/src/organization/organization.service.ts:200-276 | a successful invitation leaves its address with the new invite, with the given role and lifetime, as the only pending one |
| OrganizationRuns.OrphanedIff | backend/src/organization/organization.service.ts:56-90 | a creation leaves an organization without an owner if and only if its first save's answer is lost, or the owner is not stored and the cleanup is refused |
| OrganizationRuns.RemoveOrgIff | backend/src/organization/organization.service.ts:136-144 | a removal succeeds if and only if the caller owns the organization, and then no membership or invite of it is left |
| OrganizationRuns.LeaveIff | backend/src/organization/organization.service.ts:146-165 | a member leaves if and only if it has a row and is not the owner; exactly its row goes |
| MemberCalls.CleanupIff | backend/src/organization/organization.service.ts:513-527 | the cleanup deletes exactly the overdue invites already marked EXPIRED |
| OrganizationRuns.CleanupKeepsValid | backend/src/organization/organization.service.ts:513-527 | the cleanup takes away no invite that could still be accepted, no pending one, and leaves nothing overdue among those marked EXPIRED |
| OrganizationServices.Service.CreateOrganization | backend/src/organization/organization.service.ts:56-90 | each save may work, be refused or take effect and throw; the new organization is left without an owner exactly in the two orphaning ways, and every table invariant is kept |
| OrganizationServices.Service.EnsureCanAddUser | backend/src/organization/organization.service.ts:558-584 | refuses exactly when there is no usable plan or the positive limit is reached, counting pending invites when asked |
| OrganizationServices.Service.Invite | backend/src/organization/organization.service.ts:200-276 | succeeds exactly when the organization exists, a seat is free and the address is no member's; the new invite is then the only pending one for its address |
| OrganizationServices.Service.InviteByToken | backend/src/organization/organization.service.ts:180-198 | returns only pending, unexpired invites and marks an overdue one EXPIRED |
| OrganizationServices.Service.Accept | backend/src/organization/organization.service.ts:278-367 | succeeds exactly for an open invite whose address is a registered non-member's with a free seat, or asks for registration, with the token spent even when already a member |
| OrganizationServices.Service.AcceptWithUserId | backend/src/organization/organization.service.ts:369-417 | succeeds exactly for an open invite, an existing non-member whose address matches, and a free seat |
| OrganizationServices.Service.LeaveOrganization | backend/src/organization/organization.service.ts:146-165 | succeeds exactly for a member who is not the owner, and removes exactly its row |
| OrganizationServices.Service.Remove | backend/src/organization/organization.service.ts:419-445 | succeeds exactly when the requester may remove the target, and takes exactly that row |
| OrganizationServices.Service.UpdateMemberRole | backend/src/organization/organization.service.ts:447-483 | succeeds exactly when the requester may give that role, and changes exactly that row's |
| OrganizationServices.Service.RemoveOrganization | backend/src/organization/organization.service.ts:136-144 | succeeds exactly for the owner, and leaves no membership of the organization |
| OrganizationServices.Service.CleanupExpiredInvites | backend/src/organization/organization.service.ts:513-527 | every invite that could be accepted still can, no other can, and no overdue one marked EXPIRED is left |
| OrganizationServices.Service.RemoveInScope | backend/src/users/users.service.ts:142-158 | succeeds exactly for an existing user who asks for its own deletion and is a member of nothing |
| Billing.FindBySub | backend/src/billing/billing.service.ts:680-684 | finds a record with that subscription whenever there is one |
| CheckoutChecks.AttemptedIff | backend/src/billing/billing.service.ts:584-635 | the checks let a session through if and only if it is complete where that matters, names a recorded organization and the expected one, and Stripe returns its subscription for that record's customer |
| CheckoutChecks.CheckoutEnds | backend/src/billing/billing.service.ts:584-635 | each error a session can end with, and the quiet end, if and only if its own condition holds; nothing changes unless the switch is attempted |
| CheckoutChecks.AttemptEnds | backend/src/billing/billing.service.ts:637-678 | an attempted switch goes through if and only if every needed cancellation works, and then stores each column of the subscription and its plan; failing, it stores nothing |
| CheckoutChecks.ListedNewest | backend/src/billing/billing.service.ts:880-900 | a page lists exactly the customer's hundred newest subscriptions |
| CheckoutChecks.ReadEnds | backend/src/billing/billing.service.ts:271-293 | a read ends well if and only if its session's switch did and there is a record; an incomplete session changes nothing |
| CheckoutChecks.UpdateStores | backend/src/billing/billing.service.ts:680-718 | an update event stores each column of its payload in the record of its subscription, keeps customer and link, and copies the plan |
| CheckoutChecks.UnknownIgnored | backend/src/billing/billing.service.ts:680-742 | events about a subscription no record has change nothing |
| CheckoutChecks.DeletionStores | backend/src/billing/billing.service.ts:720-742 | a deletion event changes exactly the status, the cancellation flag and the plan columns |
| BillingRuns.CancelEachExact | backend/src/billing/billing.service.ts:880-900 | the cancel loop only ever cancels, never the kept subscription, and when it completes it has cancelled exactly the listed ones that were still running |
| BillingRuns.SwitchLeavesOne | backend/src/billing/billing.service.ts:584-678 | after a persisted switch the record names the kept, untouched subscription, and another subscription of the customer is dead if and only if it was listed, already dead, or the replaced one; other customers' subscriptions are untouched unless one is the replaced one |
| BillingRuns.SwitchWithinLimit | backend/src/billing/billing.service.ts:584-678 | with at most 100 subscriptions of the customer, every other one is dead after a persisted switch |
| BillingRuns.SwitchMisses | backend/src/billing/billing.service.ts:880-900 | with more than 101 other running subscriptions, a persisted switch leaves some of them running |
| BillingRuns.SwitchCanMiss | backend/src/billing/billing.service.ts:880-900 | such a switch exists: a customer with 103 active subscriptions |
| BillingRuns.FailedSwitch | backend/src/billing/billing.service.ts:584-678 | when a check or a cancellation throws no stored row has changed, and the subscription to keep was not cancelled |
| BillingRuns.CustomersFixed | backend/src/billing/billing.service.ts:181-269 | in every run a record's customer never changes, its subscription belongs to that customer, and two organizations share neither customer nor subscription |
| BillingRuns.WebhookTouchesOne | backend/src/billing/billing.service.ts:680-778 | a webhook about a subscription changes no other organization's record or plan, and at most one record could have been meant |
| BillingRuns.StepSound | backend/src/billing/billing.service.ts:584-778 | creations, deletions, webhooks, reconciliations and Stripe's own moves each keep records linked to their customer |
| BillingRuns.CreateSound | backend/src/organization/organization.service.ts:56-90 | creation keeps that linkage whichever of its calls fail, and whichever compensations fail |
| PlanSnapshots.SnapshotFollowsPrice | backend/src/billing/billing.service.ts:948-960 | with a fixed catalogue and successful lookups, an organization whose record has a price shows that price's plan or the zero snapshot; exactly the plan when no deletion event or failed cleanup occurred |
| PlanSnapshots.UpdateFitsIff | backend/src/billing/billing.service.ts:680-718 | when lookups may fail, an update leaves the right snapshot if and only if the lookup worked or the old snapshot was right already |
| PlanSnapshots.ReadingRestoresPlan | backend/src/billing/billing.service.ts:271-293 | after a deletion event and a read the zero snapshot still stands if and only if the record has no price, its plan cannot be read, or that plan is zero; otherwise the canceled organization has its plan's limits back |
| SubscriptionStatus.InvoiceSetsStatus | backend/src/billing/billing.service.ts:744-778 | an invoice event sets the status of exactly the records with its subscription, of which there is at most one |
| SubscriptionStatus.ActivatedIff | backend/src/billing/billing.service.ts:680-778 | a webhook makes an inactive record active if and only if it is a payment for its subscription, an update of it that says active, or a checkout that switches to an active subscription |
| SubscriptionStatus.CheckoutActivatesIff | backend/src/billing/billing.service.ts:584-678 | a checkout session makes an inactive record active if and only if it is applied for that organization and the subscription is active |
| SubscriptionStatus.CanceledReactivatedIff | backend/src/billing/billing.service.ts:720-778 | a record canceled by a deletion event becomes active at the next webhook exactly in those ways; a late payment grants its plan again although the snapshot is zero |
| SubscriptionStatus.SwitchRefusedIff | backend/src/billing/billing.service.ts:637-647 | where only running subscriptions can be cancelled, a switch fails if and only if the replaced subscription is another one that is unknown or dead |
| SubscriptionStatus.SameSessionTwice | backend/src/billing/billing.service.ts:584-678 | applying a completed session again throws if and only if it names a previous subscription other than its own; otherwise no record or subscription changes |
| CreationSaga.CompletesIff | backend/src/billing/billing.service.ts:181-269 | creation completes if and only if every call of it works, and then organization, OWNER row, record, customer and subscription are all present and linked |
| CreationSaga.CreatorlessIff | backend/src/organization/organization.service.ts:56-90 | without a creator only the organization is saved, and it is there unless the save was refused |
| CreationSaga.SubscriptionUndone | backend/src/billing/billing.service.ts:837-853 | a failed creation that knows its subscription cancels it if and only if that is not refused, whatever becomes of the customer |
| CreationSaga.CreateAllOrNothing | backend/src/organization/organization.service.ts:56-90 | a failed creation leaves no row, no customer and no live subscription if and only if no creation answer was lost before its id was known and no needed compensation was refused |
| CreationSaga.RefusalsAreClean | backend/src/organization/organization.service.ts:56-90 | with a refusal injected at any calls and compensations that work, creation ends with everything or nothing |
| CreationSaga.CreationsAgree | backend/src/organization/organization.service.ts:56-90 | creation seen with every billing call and creation seen as one organization call leave the same organizations, agree on success and on whether the new one has an owner |
| BillingServices.Service.CancelOtherSubscriptions | backend/src/billing/billing.service.ts:880-900 | the loop over the listed page, stopping at the first failure, does what its specification says |
| BillingServices.Service.CancelBeforeSwitch | backend/src/billing/billing.service.ts:637-647 | the replaced subscription is cancelled before any other, and nothing further after a failure |
| BillingServices.Service.ApplyCheckoutSession | backend/src/billing/billing.service.ts:584-678 | checks, cancellations, record and snapshot in the source's order; an unfinished session is refused exactly when strict, and nothing changes unless the switch is attempted |
| BillingServices.Service.HandleWebhookEvent | backend/src/billing/billing.service.ts:518-570 | each event reaches its handler with the state change of that handler |
| BillingServices.Service.HandleSubscriptionUpdated | backend/src/billing/billing.service.ts:680-718 | copies the event into the record found by subscription and syncs the plan |
| BillingServices.Service.HandleSubscriptionDeleted | backend/src/billing/billing.service.ts:720-742 | marks the record canceled and zeroes the snapshot |
| BillingServices.Service.HandleInvoicePaymentFailed | backend/src/billing/billing.service.ts:744-760 | every record with that subscription, and no other, becomes past due, and the linkage of records to customers is kept |
| BillingServices.Service.HandleInvoicePaymentSucceeded | backend/src/billing/billing.service.ts:762-778 | every record with that subscription, and no other, becomes active, and the linkage of records to customers is kept |
| BillingServices.Service.GetSubscriptionOf | backend/src/billing/billing.service.ts:271-293 | reconciles a named session strictly, then refreshes the snapshot; an incomplete session is refused and changes nothing |
| BillingServices.Service.RollbackStripeResources | backend/src/billing/billing.service.ts:837-853 | tries both undo calls, whatever the first one does |
| BillingServices.Service.InitializeSubscription | backend/src/billing/billing.service.ts:181-269 | every exit of the try block undoes exactly what is known to exist in Stripe |
| BillingServices.Service.CreateOrganization | backend/src/organization/organization.service.ts:56-90 | organization, owner, billing, and on failure the cascading delete |
| SyncTables.UpsertAllExact | backend/src/aws/ecs/aws-ecs.service.ts:248-305 | after a sync the table is keyed by ARN, old rows keep id, account and ARN, listed ARNs hold the last listed data, unlisted rows are untouched |
| SyncTables.UpsertAllShape | backend/src/aws/ecs/aws-ecs.service.ts:248-305 | which ids a sync hands out depends on the ARNs alone |
| SyncTables.Resync | backend/src/aws/ecs/aws-ecs.service.ts:248-305 | syncing the same items again equals having synced once at the later time |
| EcsSync.GroupsResolvedExactly | backend/src/aws/ecs/aws-ecs.service.ts:772-792 | null if and only if no listed group is known, else exactly the ids of the known ones |
| EcsSync.ServicesStoredIff | backend/src/aws/ecs/aws-ecs.service.ts:560-756 | a service has a row after a sync if and only if it had one or AWS described it with its cluster and task definition known; other rows are untouched |
| EcsLinks.ClustersStoredIff | backend/src/aws/ecs/aws-ecs.service.ts:222-308 | which clusters have rows after a sync, what they hold, and when nothing changes |
| EcsLinks.TasksStoredIff | backend/src/aws/ecs/aws-ecs.service.ts:318-514 | a definition has a row if and only if it had one or was described before the first description that threw; its row holds what was described, with execution and task role linked to the account's roles of those ARNs; success if and only if nothing threw |
| EcsLinks.ServiceRowsIff | backend/src/aws/ecs/aws-ecs.service.ts:524-762 | a service has a row if and only if it had one or was described before any cluster failed and can be placed; its row holds what was described and links cluster, definition, role and known groups in order |
| EcsLinks.SyncLinksRoles | backend/src/aws/ecs/aws-ecs.service.ts:222-762 | the full sync keeps every stored role link right, and missing only where the account has no such role |
| EcsLinks.GroupsLinked | backend/src/aws/ecs/aws-ecs.service.ts:772-792 | the known groups' rows in listing order, or null when none is known |
| EcsLinks.ListingFailsIff | backend/src/aws/ecs/aws-ecs.service.ts:318-352 | a listing fails if and only if some page does |
| EcsLinks.PagesListed | backend/src/aws/ecs/aws-ecs.service.ts:318-352 | a listing follows a page chain of any length to its end and keeps every ARN in order |
| EcsSync.SyncKeepsTables | backend/src/aws/ecs/aws-ecs.service.ts:222-762 | the three syncs keep every table keyed by ARN, keep every row's id, and store only services linked to rows with their own cluster's and task definition's ARNs |
| EcsSync.SyncIdempotent | backend/src/aws/ecs/aws-ecs.service.ts:222-762 | on unchanged AWS answers the three syncs run twice leave what one run at the later time leaves, ids included |
| EcsServices.Service.SyncClustersFromAws | backend/src/aws/ecs/aws-ecs.service.ts:222-308 | list, describe, upsert in order; a throwing call leaves the table alone |
| EcsServices.Service.ListTaskDefinitions | backend/src/aws/ecs/aws-ecs.service.ts:318-352 | the do/while loop returns all pages of the token chain in order, or fails if any page does |
| EcsServices.Service.SyncTaskDefinitionsFromAws | backend/src/aws/ecs/aws-ecs.service.ts:318-514 | does what EcsLinks.TasksStoredIff says: duplicates removed, undescribed ones skipped, roles resolved, and on a throwing description the rows saved before it stay |
| EcsServices.Service.ResolveSecurityGroupIds | backend/src/aws/ecs/aws-ecs.service.ts:772-792 | the loop resolves the groups as specified |
| EcsServices.Service.SyncServicesFromAws | backend/src/aws/ecs/aws-ecs.service.ts:524-762 | for one cluster or all listed ones; services without known cluster or task definition are skipped, and rows saved before a failing cluster stay |
| TaxIds.SameRule | frontend/lib/validators/cnpj.ts:8-16 | the CPF rule and the CNPJ rule give the same digit for every sum |
| TaxIds.IsValidCpf | frontend/lib/validators/cpf.ts:5-55 | the two loops and the remainder folding accept exactly the specified numbers |
| TaxIds.CnpjByDigits | frontend/lib/validators/cnpj.ts:1-26 | comparing with the number rebuilt from its base says the same as checking each check digit |
| TaxIds.CpfWrongDigit | frontend/lib/validators/cpf.ts:5-55 | a valid CPF as typed with one digit replaced is accepted if and only if both sums are blind to the change, which can only be at digits 1 and 6 |
| TaxIds.CnpjWrongDigit | frontend/lib/validators/cnpj.ts:1-26 | a valid CNPJ as typed with one digit replaced is accepted if and only if both sums are blind to the change, which can only be at digits 1, 5 and 9 |
| TaxIds.MissedIffBlind | frontend/lib/validators/cnpj.ts:8-24 | exactly when two check digits both miss one changed digit, for every pair of weights the two numbers use |
| TaxIds.BlindCpf | frontend/lib/validators/cpf.ts:5-55 | both exceptional CPF positions occur: valid numbers one digit apart |
| TaxIds.BlindCnpj | frontend/lib/validators/cnpj.ts:1-26 | all three exceptional CNPJ positions occur: valid numbers one digit apart |
| TaxIds.CpfRoundTrip | frontend/lib/validators/cpf.ts:60-76 | stripping a formatted CPF gives back its first eleven digits |
| TaxIds.CnpjRoundTrip | frontend/lib/validators/cnpj.ts:28-36 | stripping a formatted CNPJ gives back all its digits |
| TaxIds.CpfFormatValidityIff | frontend/lib/validators/cpf.ts:60-76 | formatting changes whether a CPF is valid if and only if it cuts digits off and the first eleven are valid |
| TaxIds.CnpjFormatKeepsValidity | frontend/lib/validators/cnpj.ts:28-36 | formatting a CNPJ never changes whether it is valid, and formatting twice changes nothing more |
| TaxIds.CpfFormatShape | frontend/lib/validators/cpf.ts:60-76 | where the dots and the dash of a formatted CPF stand, with digits everywhere else |
| TaxIds.CnpjFormatShape | frontend/lib/validators/cnpj.ts:28-36 | where the dots, the slash and the dash of a formatted CNPJ stand, with digits everywhere else |
| TaxIds.SameDigitCpf | frontend/lib/validators/cpf.ts:5-55 | one digit eleven times passes both check digits, whichever it is, and is refused by the explicit test alone |
| TaxIds.SameDigitCnpj | frontend/lib/validators/cnpj.ts:1-26 | one digit fourteen times passes both check digits only when it is zero, and is refused whichever it is |

## Left out

- Node payloads beyond id, position and caption, tags, regions, metadata and mapper functions of the
  architecture service; captions and label escaping of the Mermaid output, and the order of its lines beyond what
  is declared before it is mentioned.
- Buckets are values in the mutable map and are replaced, where the source mutates shared bucket objects;
  no two map keys alias one bucket in the source, so only identity is lost.
- A refresh is a read step, which also removes an expired row, and a save step; the look-up that TypeORM's
  `save` makes before it writes is not a step of its own, and neither is the one in the guard before it removes
  an expired row.
- Access tokens, their signing and expiry, cookies, password hashing and Google's OAuth exchange; the guard's
  token verification is taken as done.
- OrganizationRuns.SeatReservation: each service call is one atomic step, so two concurrent seat checks do
  not race.
- Billing handlers are atomic steps; lost updates between concurrent handlers are not modelled, and neither is
  a database write that fails inside a webhook handler.
- Creation without a creator is in `Billing.Create` only. The organization runs have a creator in every creation
  and see the owner lookup and billing as one outcome, which `CreationsAgree` ties to the detailed creation.
- Direct deletion of users other than through the scoped endpoint, since no route reaches it; the update of
  organization names; listing queries.
- A plan limit that is not a number, and the parsing of plan metadata and module lists: the catalogue holds
  the parsed, normalised plan.
- Lower-casing of addresses is modelled for ASCII letters.
- Payment methods, the checkout session request itself, plan listing, and webhook signatures.
- Stripe's answer to cancelling an already canceled subscription is one of the modelled outcomes rather than
  a fixed one.
- Columns of ECS rows other than ids, ARNs, links, data and time stamp are one opaque value; the cluster and
  service listings are the single page the source reads; the family filter only narrows what AWS answers.
- Credential normalisation and encryption of cloud accounts, other AWS, Azure and GCP services, the sync
  queues, Excel reports, cost analysis and the web pages: they would add easy members or repeat the ECS
  pattern.
- NestJS, TypeORM, mail and logging.
