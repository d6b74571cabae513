# The concurrent bank server of Project 2, modelled and proved

The repository's second project is a home-banking server. User processes write requests to a FIFO; one
producer thread reads them into a bounded queue; N office threads pop them and execute them against a
shared account table with one mutex per account; an authorised shutdown starts a drain-and-stop. This
project models that server, the data structures under it and the client in front of it, and proves what
they keep.

## Layers

**The server as steps.** `Server.dfy` is a state machine with one step per lock, unlock, semaphore
operation, and read or write of shared data. The actors are the office threads, the main thread and any
number of user processes; N, the accounts and the traffic are arbitrary. The hash program and the salts
are arbitrary functions. `Bank.Execute` is the meaning of one request running alone, and the yardstick of
every layer; `Meaning` says, operation by operation, what it answers and does in terms of stored hashes and
balances. Histories (writes, writers, pushes, pops, popping offices, commits, answers, mutexes left locked)
record what has happened; no step depends on them, except that a request's place in the pops names its salt.

A client keeps the request FIFO open until it has its reply (`user_util.c:477-493`), unless its alarm or a signal
ends it first (`user_util.c:32-50`). In the machine a user may leave at any time after its write; one that leaves
without its reply *gives up*, which is all that is modelled of the alarm and the signal. `Users.RunsWithin` are the
runs in which only users of a given set give up; with the empty set every user waits, with all users any run counts.

- `Gauges`, `HallSafety`, `Tickets`, `Locks`, `Books`, `Lifecycle`: the six parts of the invariant; `Invariant`
  joins them and carries them over every run.
- `Users`, `Progress`, `Claims`: no message is lost before the queue, runs are finite, and when the queue cannot be
  popped empty.
- `Deadlock`, `Drain`, `Blocked`, `Traffic`: exactly when a state is stuck, what a complete run has done, exactly which
  offices no run can ever move, and what all that means for a given traffic.
- `Money`, `Conservation`, `Guarantees`, `Answers`: conservation, exactly and behind the client, and the run-level
  results for users and maintainers.
- `Scenarios`, `Crash`: runs of the code as written that go wrong, built for every number of offices.

**The stores.** `RequestQueue` is the linked list with its header node and cached size; `Accounts` is the
account array with `insert`, `exists` and the operations. Both are classes updated in place; the queue is
tied to the sequence operations that the machine uses, the store to `Bank.Execute`.

**The client.** `CString` is the part of the C library that parsing rests on (`strtok` in place, `strtol`,
`atoi`), `Client` validates and formats a command, `Verdicts` says which texts get which verdict, and `Wire`
frames requests and replies. `Boundary` puts the layers together: what the client lets through is what the
server relies on.

## Where the code departs from its intent

The model follows the code; these are the places where that matters.

- `queue_create` leaves `size` unset (`request_queue.c:3-10`); it is modelled as 0.
- `queue_insert` beyond the size, and `queue_delete` at the size or on an empty list, follow a null pointer
  (`request_queue.c:45`, `:62`, `:75`). These are preconditions of the class. In the machine a pop of an empty
  queue is the `crashed` state, after which nothing is enabled.
- The emptiness test and the pop are separate critical sections (`server_bank_office.c:53-61`, `:69-76`). While every
  user waits for its reply, end-of-file means that everything written has been answered, so the queue is empty as
  `closeOffices` starts and no run pops an empty queue, with any number of offices (`Claims.PatientUsersNeverCrash`).
  A user that gives up can leave its request behind for two offices to compete for: `Crash.CrashesExactlyWhen` says
  exactly which servers can then pop an empty queue, on which requests, and because of whose giving up.
  `Config.fused` selects the variant that pops in the critical section of the test; the code as written is
  `fused == false`. Every result holds for both unless it names `fused`.
- A creation on an existing identifier returns with the account mutex locked (`server_accounts.c:42-43`), and a
  transfer to oneself locks one mutex twice (`server_operations.c:66-80`). An office is blocked for ever when it waits
  for an account mutex and no continuation of the run moves it. `Blocked.BlockedExactlyWhen` shows when that is so:
  when the chain of mutex holders that it waits for ends at a mutex that has leaked, at a creation that is about to
  leak it, or at a transfer to oneself. `Crash.RecreationCanBlock` and `Crash.SelfTransferCanBlock` are runs to both,
  in which nobody gives up.
- The code keeps balances at or above 0, not `MIN_BALANCE` (`server_operations.c:87`, against `types.h:28`);
  `Bank.TransferKeepsMinimumIff` says when a transfer does.
  `RC_SAME_ID` (`types.h:27`) is never returned.
- The ceiling test adds in 32 bits (`server_operations.c:89`). It is exact for balances within `MAX_BALANCE`, which
  is what the client guarantees; `Bank.TransferConservesIff` says exactly when an accepted transfer conserves money,
  `Conservation.MoneyIsConservedExactlyWhen` when a run does, and `Conservation.TransferCanLoseMoney` names requests
  that do not.
- `closeCommunication` destroys the semaphores before `closeOffices` posts on one of them (`server_bank_office.c:376-377`,
  `server.c:80-83`); the destruction is modelled as doing nothing.
- The account array is static, so before `initAccounts` every slot reads as account 0. `Guarantees.LaunchIsSafe` is why
  no office sees that.
- Identifiers go through an `int`: 4294967301 is accepted as account 5 (`user_validation.c:22-37`). The validator
  and the formatter still agree on the account.
- `strtol` consumes nothing of an empty text and no character is left over, so an empty account, delay or operation
  passes as 0 (`user_validation.c:8-9`, `:75-76`, `:94-95`); `Verdicts.EmptyText`.
- A password or argument made of spaces only gives the C library a null pointer (`user_validation.c:48-50`, `:170-172`);
  this is the verdict `NullPointer`.

## Model

| member | source | states |
|---|---|---|
| Bank.LoginIsStable | Project 2/src/server/server_bank_office.c:94-113 | as long as accounts are only added and salts and hashes do not change, the header check of a request on an existing account gives the same verdict |
| Bank.TransferConservesIff | Project 2/src/server/server_operations.c:85-96 | an accepted transfer keeps the sum of all balances if and only if it pays its own account or the 32-bit credit does not wrap |
| Bank.TransferKeepsMinimumIff | Project 2/src/server/server_operations.c:87-93 | the payer of an accepted transfer is left with at least MIN_BALANCE if and only if it pays less than it has, or had that much and pays itself |
| Meaning.LoginFailsExactlyWhen | Project 2/src/server/server_bank_office.c:97-101 | for every request: RC_LOGIN_FAIL if and only if the account does not exist or the hash of password plus salt is not the stored one |
| Meaning.NotAllowedExactlyWhen | Project 2/src/server/server_bank_office.c:103-110 | RC_OP_NALLOW if and only if the login holds and the request is one of the four forbidden pairs of operation and account |
| Meaning.RefusedAtTheHeader | Project 2/src/server/server_bank_office.c:146-160 | a request refused at the header changes nothing, and its reply names its account and has no body |
| Meaning.TransferExactlyWhen | Project 2/src/server/server_operations.c:85-92 | for a logged-in, permitted transfer to another account, exactly when each of RC_ID_NOT_FOUND, RC_NO_FUNDS, RC_TOO_HIGH and RC_OK is answered, over the two stored balances |
| Meaning.TransferMoves | Project 2/src/server/server_operations.c:93-98 | an accepted transfer takes the amount from the payer, adds it modulo 2^32 to the payee, answers the payer its new balance, and changes nothing else |
| Meaning.RefusedTransferStays | Project 2/src/server/server_operations.c:87-98 | a refused transfer changes nothing and answers the payer its balance |
| Meaning.SelfTransferStays | Project 2/src/server/server_operations.c:85-98 | a transfer to the paying account, which the code would have to lock twice, is judged by the same tests on one balance and would change nothing |
| Meaning.CreationExactlyWhen | Project 2/src/server/server_accounts.c:31-57 | a permitted creation succeeds if and only if its identifier is free, and then stores the salt, the hash of password plus salt and the balance asked for |
| Meaning.NewOwnersLogIn | Project 2/src/server/server_accounts.c:6-29 | the owner of an account just created logs in with the password of the creation and reads the balance of the creation |
| Meaning.CheckReadsTheBalance | Project 2/src/server/server_operations.c:24-50 | a permitted check answers the stored balance and changes nothing |
| Meaning.ShutdownRaisesTheFlag | Project 2/src/server/server_bank_office.c:339-341 | the flag goes up exactly by a permitted shutdown, nothing takes it down, and a shutdown leaves the accounts alone |
| HallSafety.StepKeepsHall | Project 2/src/server/server_bank_office.c:45-91 | every step keeps mutual exclusion on the queue and on the counter, the permit law of `full`, the slot law of `empty`, the counter law, FIFO order, and that nobody leaves before a wake-up |
| Tickets.StepKeepsTickets | Project 2/src/server/server_bank_office.c:72-84 | a popped request stays with the office that popped it until it is answered, is logged once exactly when its office is past the commit point, and is answered once, with the logged reply |
| Tickets.CommitCrosses | Project 2/src/server/server_bank_office.c:137-226 | a step of `handleRequest` commits exactly when it crosses the commit point, never twice, with the reply that will be sent |
| Locks.OfficeKeepsLocks | Project 2/src/server/server_operations.c:76-102 | an account mutex that somebody will unlock is held by exactly the office whose program counter is inside its critical section, whatever the step |
| Locks.OfficeKeepsLeaks | Project 2/src/server/server_accounts.c:36-50 | the mutexes left locked are exactly the targets of the creations answered RC_ID_IN_USE |
| Books.CommitReplies | Project 2/src/server/server_operations.c:3-108 | a commit gives the reply that the request gets when it runs alone on the books |
| Books.StepIsLocal | Project 2/src/server/server_operations.c:85-96 | neither a write to the table nor a commit changes an account whose mutex the office does not hold |
| Books.OthersFacts | Project 2/src/server/server_bank_office.c:146-160 | what an office has established (login, decision, free identifier) survives the steps of every other office |
| Books.StepKeepsBooks | Project 2/src/server/server_bank_office.c:137-226 | every step keeps the table equal to the log replayed one request at a time, up to the half-done transfers of mutex holders, and the logged replies faithful |
| Lifecycle.StepKeepsLife | Project 2/src/server/server_bank_office.c:255-336 | every step keeps the dummy writer open until a shutdown, the FIFO readable while the producer reads, and the producer's loop running until no writer is left |
| Lifecycle.AdminIsFixed | Project 2/src/server/server_accounts.c:26-29 | no sequence of requests changes the administrator's account: its salt, the hash of its password plus salt, and the balance 0 |
| Lifecycle.ShutdownIsAuthorised | Project 2/src/server/server_bank_office.c:103-107 | the shutdown flag is up exactly when a shutdown with the administrator's password has taken effect |
| Invariant.StepKeepsInv | Project 2/src/server/server_bank_office.c:38-92 | every enabled step of every actor keeps the six invariants together |
| Invariant.ReachableInv | Project 2/src/server/server.c:24-87 | the invariant holds in every state of every run from start-up |
| Progress.StepFalls | Project 2/src/server/server_bank_office.c:38-92 | every step of every actor lowers one natural number over queue permits, program counters, unread input and pending users |
| Progress.RunsAreFinite | Project 2/src/server/server_bank_office.c:286-372 | no schedule is longer than the measure of the state it starts from |
| Deadlock.WaitChain | Project 2/src/server/server_operations.c:64-83 | because accounts are locked in descending order, a chain of waiting offices in a server that cannot go on ends at one that waits for a leaked mutex or for one that it holds itself |
| Deadlock.StillMeansOver | Project 2/src/server/server_bank_office.c:51-79 | if no office waits so and neither an office nor the main thread can go on, the server has finished, or it waits for a user with every office at its first wait and nothing in flight |
| Drain.StuckExactlyWhenCornered | Project 2/src/server/server_bank_office.c:51-79 | a state that nobody can leave without giving up is neither finished nor waiting for users if and only if some office waits for a leaked mutex or for one that it holds itself |
| Blocked.DoomedStaysDoomed | Project 2/src/server/server_accounts.c:36-43 | a mutex whose chain of holders ends at a leak, at a leak about to happen or at a transfer to oneself stays so in every run, and the offices that wait for it never move |
| Blocked.FreeUp | Project 2/src/server/server_operations.c:76-102 | any other locked mutex is unlocked by some run, which moves only holders of mutexes up to it |
| Blocked.BlockedExactlyWhen | Project 2/src/server/server_operations.c:66-80 | no continuation of the run moves an office that waits for an account mutex if and only if that mutex is doomed, which can be read off the state by following the holders |
| Blocked.StuckExactlyWhenBlocked | Project 2/src/server/server_bank_office.c:51-79 | a reachable state that nobody can leave without giving up is neither finished nor waiting for users if and only if some office is blocked for ever |
| Blocked.DoomedHasACause | Project 2/src/server/server_accounts.c:42-43 | a doomed mutex goes back to a transfer to the paying account or to a creation of an account that the administrator or an earlier creation has taken |
| Blocked.GoodTrafficBlocksNobody | Project 2/src/server/server_operations.c:64-83 | without transfers to oneself and repeated creations, every office that waits for an account mutex can still get it |
| Claims.CoveredBeforeWakes | Project 2/src/server/server_bank_office.c:48-76 | until `closeOffices` posts, the offices past the emptiness test are at most as many as the requests in the queue |
| Claims.FusedOrSingleNeverCrashes | Project 2/src/server/server_bank_office.c:51-76 | with the test and the pop in one critical section, or with one office, no run pops an empty queue |
| Claims.EmptyAtCloseNeverCrashes | Project 2/src/server/server_bank_office.c:356-362 | as written, with any number of offices, no run pops an empty queue if the queue is empty as `closeOffices` starts |
| Claims.QueueAtTheEnd | Project 2/src/server/server_bank_office.c:294-334 | a request that is still queued as the producer ends is that of a user that gave up, beside an authorised shutdown that another user sent |
| Claims.PatientUsersNeverCrash | Project 2/src/user/user_util.c:477-493 | as written, with any number of offices and any traffic, if every user waits for its reply no run pops an empty queue, and the queue is empty as the producer ends |
| Claims.TameNeverCrashes | Project 2/src/server/server_bank_office.c:53-76 | no run pops an empty queue unless an authorised shutdown and another user's giving up meet two offices or more that test apart from popping |
| Crash.TwoOfficesCanCrash | Project 2/src/server/server_bank_office.c:53-76 | as written, for every number of offices from two on and every traffic with an authorised shutdown and another request whose user may give up, a run exists in which that user gives up and an empty queue is popped |
| Crash.CrashesExactlyWhen | Project 2/src/server/server_bank_office.c:53-76 | for every list of requests and every set of users that may give up: some run pops an empty queue if and only if there are two offices or more, the test is apart from the pop, and the list holds an authorised shutdown and another request whose user may give up |
| Crash.CrashesWhenAnyoneMayGiveUp | Project 2/src/user/user_util.c:32-50 | when any user may give up, an authorised shutdown and any other request are enough, and nothing less is |
| Crash.RecreationCanBlock | Project 2/src/server/server_accounts.c:42-43 | as written, for every number of offices and every traffic with two authorised creations of the administrator's account, a run in which nobody gives up leaves an office that no continuation moves |
| Crash.SelfTransferCanBlock | Project 2/src/server/server_operations.c:66-80 | as written, for every number of offices and every traffic in which an account is opened and pays itself, a run in which nobody gives up leaves its office waiting for ever for the mutex that it holds |
| Crash.BlockedPreventsTheEnd | Project 2/src/server/server_bank_office.c:364-369 | a server with an office blocked for ever comes neither to an end nor to rest in any continuation |
| Crash.RecreationCanPreventTheEnd | Project 2/src/server/server_accounts.c:42-50 | such a traffic reaches, with nobody giving up, a state from which no run ends in a finished or an idle server |
| Drain.RefusalHasATwin | Project 2/src/server/server_accounts.c:42-43 | a creation is refused only if it targets the administrator or an account created by an earlier request in the log |
| Drain.JoinedMeansAnswered | Project 2/src/server/server_bank_office.c:364-369 | when the main thread has joined all offices, everything that users wrote to the FIFO has been popped in the order of the writes and answered exactly once, whatever the traffic |
| Drain.MaximalRun | Project 2/src/server/server_bank_office.c:38-92 | a run of good traffic that nobody can continue without giving up has answered every request written to the FIFO exactly once, has no user left, and has finished if some user wrote an authorised shutdown |
| Users.WrittenAreUsers | Project 2/src/server/server_bank_office.c:294-331 | the requests written are those of the users that have sent, one each, and at every moment they are exactly what was pushed, then what the producer holds, then what is in the FIFO, in order |
| Users.LeaversWereAnswered | Project 2/src/user/user_util.c:477-493 | in a run in which only given users give up, every other user that has left after its write has been answered |
| Traffic.SomebodyCanMove | Project 2/src/server/server_bank_office.c:51-79 | for good user traffic, in every reachable state that is neither finished nor idle nor crashed some actor can take a step, and nobody needs to give up for it |
| Traffic.EveryRunDrains | Project 2/src/server/server_bank_office.c:286-372 | for good user traffic every run is bounded by the initial measure; unless an authorised shutdown and another user's giving up can meet two offices or more that test apart from popping, it never crashes, and can only stop when every user has gone, each request that a user wrote has been answered exactly once, and all offices are joined if one of them was an authorised shutdown |
| Traffic.PatientTrafficDrains | Project 2/src/user/user_util.c:477-493 | as written, with any number of offices: good traffic whose users wait for their replies always drains in this sense |
| Money.TransfersDoNotWrap | Project 2/src/server/server_operations.c:87-94 | for any 32-bit amount, the ceiling sum behind a passed funds test, the credit and the debit do not wrap, in every state of every run |
| Money.MoneyIsConserved | Project 2/src/server/server_operations.c:85-96 | in every reachable state the sum of the balances, less what is credited and not yet debited, is the sum of the initial balances of the successful creations, and every balance is within 0..MAX_BALANCE, those of half-done transfers included |
| Conservation.MoneyIsConservedExactlyWhen | Project 2/src/server/server_operations.c:85-96 | whatever balances the creations ask for, in every reachable state the sum of all balances, less half-done transfers with their credit as it was stored, is that of the creations less 2^32 for each accepted transfer whose credit wrapped, so it is conserved if and only if none did |
| Conservation.TransferCanLoseMoney | Project 2/src/server/server_operations.c:87-94 | three requests that the server accepts in a row, two creations and a transfer, after which 2^32 has become 0 |
| Guarantees.Linearizable | Project 2/src/server/server_operations.c:3-108 | every reachable state is explained by the logged requests run one at a time in log order: logged replies, answers, the shutdown flag, and the table at every account that nobody is working on |
| Guarantees.RealTimeOrder | Project 2/src/server/server_bank_office.c:72-84 | a request answered before another one is popped takes effect before it |
| Guarantees.RunGrows | Project 2/src/server/server_accounts.c:42-45 | along every run the histories only grow, accounts are only added with fixed salt and hash, and nothing is pushed after the producer's loop |
| Guarantees.LoginStaysValid | Project 2/src/server/server_bank_office.c:146-160 | the verdict of the unlocked header check on an existing account is the same at every later moment of every run |
| Guarantees.WritersHoldTheMutex | Project 2/src/server/server_operations.c:76-102 | an office whose step changes or adds an account holds that account's mutex |
| Guarantees.LeakedExactlyWhenRefused | Project 2/src/server/server_accounts.c:36-50 | a locked mutex that no thread is inside the critical section of is exactly one on which a creation was answered RC_ID_IN_USE |
| Guarantees.QueueIsFifoAndBounded | Project 2/src/server/server_bank_office.c:70-79 | popped then queued is pushed; empty slots, queued requests and slots in hand add up to N, so the queue never exceeds N; each popped request is with one office, the one that popped it |
| Guarantees.PermitsMeanRequests | Project 2/src/server/server_bank_office.c:48-76 | the permit law at all times; before any wake-up an office with a permit finds a request, and no office leaves |
| Guarantees.ActiveCountIsInRange | Project 2/src/server/server_bank_office.c:65-67 | the counter that a shutdown reads is the number of offices counted in, its own among them, so one less is at least 0 and less than N; `Answers.ShutdownAnswersCount` is about the reply |
| Guarantees.LaunchIsSafe | Project 2/src/server/server.c:60-80 | no office leaves its first wait before accounts, administrator and queue are in place, and the administrator's account is as installed for ever |
| Guarantees.ShutdownCausesTheEnd | Project 2/src/server/server_bank_office.c:294-354 | the producer's loop ends only after an authorised shutdown has taken effect, and every wake-up comes after the last push |
| Answers.LoginsNeedThePassword | Project 2/src/server/server_bank_office.c:97-101 | along every run, a logged request is answered RC_LOGIN_FAIL if and only if its account does not exist at its place in the log or its password is not the account's; any other request has the password of an account that the table still holds |
| Answers.AnswersNeedThePassword | Project 2/src/server/server_bank_office.c:94-113 | along every run, whoever is answered anything but RC_LOGIN_FAIL gave, up to a collision of hashes, the administrator's password or the one with which an earlier logged request opened the account |
| Answers.PayersGaveThePassword | Project 2/src/server/server_operations.c:85-96 | in every reachable state, an office whose step lowers a balance is at a transfer that has the password of the account it pays from, and either takes exactly its amount from that account or wraps the credit of the payee |
| Answers.AnswersAreExact | Project 2/src/server/server_bank_office.c:222-223 | along every run, each answer is the whole reply that its request gets when it runs alone at its place in the log, but for the office count of an accepted shutdown |
| Answers.ShutdownCountsTheOthers | Project 2/src/server/server_bank_office.c:209-212 | the step that reads the counter leaves in the reply the number of the other offices counted in at that state, which is at least 0 and less than N |
| Answers.ShutdownAnswersCount | Project 2/src/server/server_bank_office.c:209-212 | along every run, each answer to an accepted shutdown carries the number of other offices that were counted in when its office read the counter, at some state on the way; it is at least 0 and less than N |
| Answers.LateUsersAreTurnedAway | Project 2/src/server/server_bank_office.c:339-354 | once an accepted shutdown is answered, a user that has not opened the request FIFO by then never sends its request, in any continuation of the run |
| RequestQueue.Queue.constructor | Project 2/src/request_queue.c:3-10 | a new queue is a header node alone and holds nothing |
| RequestQueue.Queue.Insert | Project 2/src/request_queue.c:12-51 | inserts at any position up to the size: one new node, the rest of the chain in place, acyclic, with the cached size its length |
| RequestQueue.Queue.Delete | Project 2/src/request_queue.c:53-84 | deletes inside the queue, refuses any other position but the size itself with -1 and no change |
| RequestQueue.Queue.Retrieve | Project 2/src/request_queue.c:99-120 | the element at a position, or none outside the queue |
| RequestQueue.Queue.Push | Project 2/src/request_queue.c:86-89 | appends the request |
| RequestQueue.Queue.Pop | Project 2/src/request_queue.c:91-97 | removes and returns the first request of a non-empty queue, allocating nothing |
| RequestQueue.Queue.Empty | Project 2/src/request_queue.c:122-128 | leaves the queue empty and valid, using only nodes it had |
| RequestQueue.Queue.IsEmpty | Project 2/src/request_queue.c:130-136 | the header has no successor exactly when the queue holds nothing |
| Accounts.Store.Init | Project 2/src/server/server_accounts.c:77-88 | from any memory contents: no account exists, every mutex is free |
| Accounts.Store.Exists | Project 2/src/server/server_accounts.c:59-70 | whether an account with that identifier exists, identifiers beyond the array included |
| Accounts.Store.Insert | Project 2/src/server/server_accounts.c:31-57 | adds an account and releases its mutex, or refuses an identifier in use with the table unchanged and the mutex left locked |
| Accounts.Store.CheckRequestHeader | Project 2/src/server/server_bank_office.c:94-113 | reading the array, the same verdict as on the abstract table: login first, then permission |
| Accounts.Store.OpCreateAccount | Project 2/src/server/server_operations.c:3-22 | ledger and reply are those of the creation running alone; the mutex stays locked exactly on RC_ID_IN_USE |
| Accounts.Store.OpCheckBalance | Project 2/src/server/server_operations.c:24-50 | ledger and reply are those of the check running alone; all mutexes as before |
| Accounts.Store.OpTransfer | Project 2/src/server/server_operations.c:52-108 | ledger and reply are those of the transfer running alone; all mutexes as before |
| Accounts.Store.HandleRequest | Project 2/src/server/server_bank_office.c:137-226 | from header check to reply, ledger and reply are those of `Execute`, and a mutex stays locked exactly on RC_ID_IN_USE |
| Wire.FieldRoundTrip | Project 2/src/types.h:76-76 | a password field gives back its text up to the first zero byte |
| Wire.HeaderRoundTrip | Project 2/src/types.h:73-78 | a buffer that starts with a request's value gives back pid, account, password and delay, and holds the arguments behind them |
| Wire.DecodeRoundTrip | Project 2/src/types.h:102-117 | a request decodes from its value whatever an earlier message left in the rest of the reused buffer |
| Wire.LittleEndian | Project 2/src/types.h:73-78 | a number is sent with its least significant byte first |
| Wire.PrefixBytes | Project 2/src/types.h:9-15 | the operation numbers 0 to 3 and the value lengths 62, 33, 41 and 33, byte by byte |
| Wire.HeaderBytes | Project 2/src/types.h:73-78 | the position of process, account, password and delay in the message of a request |
| Wire.ArgumentBytes | Project 2/src/types.h:83-96 | the position of the arguments of a creation or a transfer in its message, whose length is 70, 49 or 41 |
| Wire.PasswordBytes | Project 2/src/types.h:76-76 | a password field is the password followed by zeros, 21 bytes in all |
| Wire.EncodeAllSplit | Project 2/src/user/user_util.c:340-346 | a concatenation of requests starts with the type, the length and the value of the first one |
| Wire.ReceiveOne | Project 2/src/server/server_bank_office.c:297-316 | three reads take exactly the first request off the FIFO, or find end-of-file |
| Wire.ReceiveAll | Project 2/src/server/server_bank_office.c:294-334 | requests written whole, in any number, come out exactly as they went in |
| Wire.ReplyBytes | Project 2/src/types.h:18-176 | the bytes of a reply: type, length, account, the number 0 to 11 of its return code, and the balance or office count |
| Wire.DecodeReplyRoundTrip | Project 2/src/types.h:128-176 | a reply decodes from its value: the length says whether there is a body, the type says which |
| Wire.ReadReply | Project 2/src/user/user_util.c:348-367 | the client's three reads give back the reply that was written and leave what follows it |
| CString.Tokenizer.Next | Project 2/src/user/user_validation.c:170-191 | `strtok` by a space, in place, yields the words of the text one by one and then nothing |
| CString.WordThenRest | Project 2/src/user/user_validation.c:170-175 | a text that is spaces, a word and then a space or nothing has that word first and then the words of what follows the space |
| CString.WordsMakeTheText | Project 2/src/user/user_validation.c:170-191 | the words of a text, one after the other, are the text without its spaces |
| CString.DigitsReadNumerals | Project 2/src/user/user_validation.c:25-25 | reading digits from the left gives the number that they write, and stops at the first other character |
| CString.NumberOfDigits | Project 2/src/user/user_validation.c:25-28 | a text of digits is wholly a number, the one it writes |
| CString.NumberIs | Project 2/src/user/user_validation.c:5-9 | white space, an optional sign and digits read as the signed number that the digits write, up to the first other character |
| CString.NumberIsNone | Project 2/src/user/user_validation.c:5-9 | where no digit follows the white space and sign, the number is 0 and nothing is consumed |
| CString.NumberForms | Project 2/src/user/user_validation.c:5-9 | every text is white space, an optional sign, digits that may be missing, and a rest that does not start with a digit, so the two cases above are all |
| CString.StrtolClamps | Project 2/src/user/user_validation.c:25-25 | `strtol` gives the number itself where it fits in a `long`, and the nearest `long` where it does not |
| CString.ToIntIsTheLowHalf | Project 2/src/user/user_validation.c:25-25 | the conversion to `int` gives the one `int` that differs from the number by a multiple of 2^32 |
| Client.BalanceAcceptedExactlyInRange | Project 2/src/user/user_validation.c:108-140 | the unsigned 64-bit comparison accepts exactly the numerals of 1..MAX_BALANCE, for balances and amounts alike, and `atoi` reads the same value |
| Client.AcceptedIdIsItsNumeralExactlyWhen | Project 2/src/user/user_validation.c:22-37 | an accepted identifier numeral is below MAX_BANK_ACCOUNTS itself if and only if it fits in an `int` |
| Client.IntNumeralsAreJudgedByValue | Project 2/src/user/user_validation.c:3-106 | an account, a delay or an operation written as a numeral that fits in an `int` is accepted exactly when the number written is in its range |
| Client.WrappedIdIsAccepted | Project 2/src/user/user_validation.c:25-34 | 4294967301 is accepted and means account 5 |
| Client.ValidCreationOperation | Project 2/src/user/user_validation.c:160-197 | the verdict on creation arguments, every refusal included, as a function of their words |
| Client.ValidTransferOperation | Project 2/src/user/user_validation.c:206-234 | the verdict on transfer arguments, every refusal included, as a function of their words |
| Client.Command.ValidUserAccount | Project 2/src/user/user_validation.c:3-20 | accepts exactly the identifiers in range; the command keeps the identifier even when it is out of range |
| Client.Command.ValidPassword | Project 2/src/user/user_validation.c:39-56 | accepts exactly the passwords of 8 to 20 bytes without a space, and copies only those |
| Client.Command.ValidDelay | Project 2/src/user/user_validation.c:70-87 | accepts and stores exactly the delays in range |
| Client.Command.ValidOperation | Project 2/src/user/user_validation.c:89-106 | accepts and stores exactly the four operations |
| Client.Command.ValidArguments | Project 2/src/user/user_validation.c:142-158 | the verdict that fits the operation already stored |
| Client.Command.CheckArguments | Project 2/src/user/user_validation.c:243-263 | the first refusal in command-line order; acceptance exactly when all five arguments are in range, and then the command holds them |
| Client.AcceptedCreation | Project 2/src/user/user_util.c:230-250 | accepted creation arguments are three words whose `atoi` values are an account identifier and the balance that was validated |
| Client.AcceptedTransfer | Project 2/src/user/user_util.c:252-271 | accepted transfer arguments are two words whose `atoi` values are an account identifier and the amount that was validated |
| Client.Command.FormatCreate | Project 2/src/user/user_util.c:230-250 | the second tokenisation yields three words: the request carries the `atoi` of the first two as identifier and balance and the third as password |
| Client.Command.FormatTransfer | Project 2/src/user/user_util.c:252-271 | the second tokenisation yields two words: the request carries their `atoi` as payee and amount |
| Client.Command.FormatRequest | Project 2/src/user/user_util.c:273-338 | operation 0, 1, 2 or 3 becomes a creation, a check, a transfer or a shutdown, with the command's account, password and delay and the words of its arguments |
| Verdicts.WholeExactlyWhen | Project 2/src/user/user_validation.c:8-9 | a text passes the end-of-number test if and only if it is empty or white space, an optional sign and at least one digit |
| Verdicts.OtherTexts | Project 2/src/user/user_validation.c:8-9 | any other text is refused by every validator of a number |
| Verdicts.EmptyText | Project 2/src/user/user_validation.c:3-140 | an empty text passes for account 0, no delay and operation 0, and is too small a balance or amount |
| Verdicts.NegativeTexts | Project 2/src/user/user_validation.c:3-140 | a minus sign makes an identifier, a delay or an operation negative and a balance or an amount too large, with the code for it |
| Verdicts.OtherSums | Project 2/src/user/user_validation.c:108-140 | a balance or an amount written without a minus sign is too small, accepted or too large by the number that its digits write |
| Verdicts.OtherNumbers | Project 2/src/user/user_validation.c:3-106 | an identifier, a delay or an operation written without a minus sign, if it fits in an `int`, is accepted or too large by the number that its digits write |
| Verdicts.LargeTexts | Project 2/src/user/user_validation.c:3-106 | any other identifier, delay or operation is judged by the low 32 bits of the clamped number |
| Verdicts.PasswordExactlyWhen | Project 2/src/user/user_validation.c:39-68 | for each code of a password and of a new password, exactly which texts get it |
| Verdicts.CreationVerdictExactlyWhen | Project 2/src/user/user_validation.c:160-197 | for each verdict on the arguments of a creation, exactly which texts get it |
| Verdicts.TransferVerdictExactlyWhen | Project 2/src/user/user_validation.c:206-234 | for each verdict on the arguments of a transfer, exactly which texts get it |
| Verdicts.OtherArguments | Project 2/src/user/user_validation.c:142-158 | balance checks and shutdowns take exactly the empty text, and no other operation number takes any |
| Verdicts.CommandVerdictExactlyWhen | Project 2/src/user/user_validation.c:243-263 | a refusal is that of the first argument, in command-line order, that is refused |
| Boundary.SentRequestsAreInRange | Project 2/src/user/user_util.c:230-346 | what the client sends fits its frame, names an account below MAX_BANK_ACCOUNTS, and asks for 1..MAX_BALANCE |
| Boundary.ClientsKeepTheMoneySafe | Project 2/src/server/server_operations.c:85-96 | whatever commands the client's users give, every reachable state has all balances within MAX_BALANCE and has conserved the money |
| Boundary.AnswersAreReadable | Project 2/src/server/server_bank_office.c:228-253 | every answer of every run is framed for the type of its request, so that the client decodes it to the same reply |

## Left out

- Guarantees.Linearizable: a shutdown reply's count of active offices is masked, because it reads a counter that other threads change; `Answers.ShutdownAnswersCount` says what it is.
- Wire.ReceiveAll: says nothing about malformed lengths, unknown types or reads that return less than asked for; every message is well-formed and written whole.
- Drain.MaximalRun: asks for no transfer to oneself and no repeated creation, because the code blocks on both (`Blocked.BlockedExactlyWhen`).
- Traffic.EveryRunDrains: asks that no user gives up who could make the code crash (`Crash.CrashesExactlyWhen`); a user that finds the FIFO missing or closed to writers leaves without writing, and nothing is said of its request.
- Crash.RecreationCanBlock: with `Crash.SelfTransferCanBlock`, names traffic that can block an office, and `Blocked.GoodTrafficBlocksNobody` traffic that cannot; between them, which lists can depends on which salts are drawn and which hashes collide.
- Accounts.Store.HandleRequest: the mutexes that it locks must be free, because a sequential method cannot wait; waiting is modelled in the machine.
- Client.Command.CheckArguments: what the rejected command holds after a refusal is stated by the single validators only; the client exits then.
- Project 1, whose option parsing, `stat` calls and formatting hold no protocol.
- Logging, and the failure returns that come only from it.
- SHA-256 and salt generation: any function of password plus salt, and any salt per request.
- The C layout of passwords: the 21st byte of a field, which the client copies without setting, is modelled as zero.
- Delays, and when an alarm or a signal comes; a user's alarm or signal is its giving up at any moment after its write, one before the write and one that ends the server are not modelled.
- File permissions beyond the closing of the FIFO to writers, and unlinking.
- Failures of thread, semaphore and file calls, and the closing of an already closed descriptor by a second shutdown.
- `RC_USR_DOWN`: a reply reaches its user's FIFO; an absent user changes no shared data.
- `initAccounts` and the read of one whole request are single steps of the machine; `Accounts.Store.Init` and `Wire.ReceiveOne` are their loops and reads.
- The struct copy of a new account, and unlocked reads of one variable, are single steps.
- Unknown request types, and office counts outside 1..99.
