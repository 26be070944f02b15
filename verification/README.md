# Game server backbone: a Dafny model

The server is written in Go. Most of it wraps databases and libraries; what is modelled here are its
stateful cores, where goroutines share objects and the guarantees depend on what they may do in between
each other's steps.

* **TCP server** (`TcpServer`, `TcpInvariant`, `TcpAdmission`, `TcpSweep`, `TcpProgress`, `Network`). One accept
  loop, any number of connection handlers, the heartbeat sweeper and Start/Stop share the connection map, a
  bounded free list of reused `Connection` objects and a WaitGroup. `TcpServer` is a step system with one label
  per access to shared state; a label that is not enabled changes nothing, so every list of labels is a run.
  `TcpInvariant` proves an invariant of all runs and the main results, `TcpAdmission` what decides on a new
  socket, `TcpSweep` what becomes of an object that the sweeper has loaded, `TcpProgress` that no goroutine is
  stuck when Stop waits. `Network` has the classes with their fields and methods; a ghost trace ties each object
  to a run of the step system, so that all results hold of it.
* **Object pool** (`ObjectPool`). The channel with its counters, with concurrent `Get` and `Put` calls cut
  into their atomic accesses.
* **Lobby** (`Lobby`, `LobbyRuns`, `LobbyRace`). Room documents, their atomic updates, the service that reads,
  checks and then writes; sequential runs, and races of joins and leaves on one room.
* **Rate limiter** (`Limiter`, `LimiterRuns`). One token bucket per key, over the reals, with idle eviction.
* **Framing** (`Framing`). Length-prefixed messages with a message id, on both ends.
* **Discovery and publishing** (`RoundRobin`, `Discovery`, `DiscoveryRuns`, `Nsq`). Two load balancers, a cache
  filled by racing fetches, round-robin publishing with failover.
* **Actor** (`Actor`), **alerts** (`Alerts`), **buffers** (`Buffers`, `MessageRuns`). Mailbox order and
  stopping, alert cooldown, reuse of message buffers and of pooled messages.

Code that changes fields is a class whose methods are proved against functions on values, loop by loop; the
lemmas about runs are about those functions. Outcomes of calls into databases, clocks, sockets and factories
are parameters.

`dafny verify dfyconfig.toml` checks the whole project.

## Where the code does not do what it seems to promise

* An owner who leaves a shared room is first pulled from the document, and then the room read before that is
  written back with only the owner changed (`internal/server/lobby_server.go:626-640`): the owner stays a
  member. If that second write fails, the failure is only logged and the room has an owner who is not in it.
  `LobbyRuns.DepartureExact` and `LobbyRuns.OwnerUpdateExact` say exactly when each happens.
* The heartbeat sweeper loads the object of an idle connection and closes it later, by when the object may be
  another connection's: it then closes the socket of a connection that was not idle
  (`TcpSweep.SweepHitsLaterOccupant`). It hits its target iff the object still carries the id it was found
  under (`TcpSweep.SweepExact`); the code does not look.
* Two overlapping leaves of one member take the count below the number of players, two overlapping joins of
  one user put him into the room twice (`LobbyRace.TwoLeavesBreakTheCount`, `LobbyRace.TwoJoinsBreakTheIds`;
  `LobbyRace.MembershipExact` says exactly when the pending requests are harmless), and n joins that overlap
  can overfill a room by n - 1 (`LobbyRace.OvershootAttained`).
* Evicting an idle bucket is invisible only if the bucket would have refilled by then; in particular a rate
  of 0 with a positive burst makes it visible (`LimiterRuns.EvictionExact`).
* A message buffer set to a large length and then to a small one before its release goes back to the pool
  with its large capacity (`Buffers.KeptCapacityExact`).
* A message that is put back twice is handed out to two holders, who overwrite each other's data
  (`MessageRuns.DoublePutBreaks`); `MessageRuns.StalePutExact` says exactly when a second Put does no harm.
* An old registry read that is written late leaves a stale list in the cache until the next fetch
  (`DiscoveryRuns.StaleWriteWins`); `DiscoveryRuns.CacheExact` says exactly when the cache stays current.

## Model

| member | source | states |
|---|---|---|
| `TcpInvariant.NextInv` | internal/network/tcp_server.go:74-274 | Every atomic step of every goroutine keeps the whole invariant: ownership, numbering, sockets, identity, what any object carries, map contents, WaitGroup count, cap, put-backs and closes. Put's counting, reset and offer, and the load and the use of an object by the sweeper and by Stop, are steps of their own. |
| `TcpInvariant.SinglePlace` | internal/network/tcp_server.go:152-182 | In every interleaving each `Connection` object is in at most one place: once in the free list, with one handler, or in the accept loop's hands (an object in none of them was dropped by a full pool). |
| `TcpInvariant.ConnectionMap` | internal/network/tcp_server.go:160-182 | The entry under k always holds an object with id k and the socket accepted as k, whose user is the one that connection k itself logged in as, 0 before its login; nothing of a previous occupant survives. |
| `TcpInvariant.DistinctObjects` | internal/network/tcp_server.go:166-182 | Distinct keys of the connection map never share an object, although objects are reused. |
| `TcpInvariant.LookupFindsOwnUser` | internal/network/tcp_server.go:287-300 | Any object that shows user u other than 0, listed or loaded earlier, is occupied by a connection that logged in as u and whose handler still has it. |
| `TcpInvariant.ConnectionCap` | internal/network/tcp_server.go:144-170 | At most maxConns connections are stored although the count is a traversal that runs against deletions; the pool keeps to its limit as well. |
| `TcpInvariant.DrainedStop` | internal/network/tcp_server.go:95-118 | When the Wait of Stop can return there is no loop and no handler, the map is empty, every id drawn has had its object put back exactly once, and every socket that Accept returned, with an id or without, has been closed. |
| `TcpProgress.StopCanReturn` | internal/network/tcp_server.go:95-182 | From every reachable state in which Stop waits, wherever the accept loop, the sweeper and any number of handlers are, some run ends them all and leads to a state in which the Wait returns. |
| `TcpProgress.LoopsLiveWhileRunning` | internal/network/tcp_server.go:121-124 | In every run: the accept loop does not end while the server runs, nor the sweeper before the first Stop, and a Stop that has not returned has ended `running`. |
| `TcpAdmission.CountDecides` | internal/network/tcp_server.go:144-148 | The count of connections is a traversal, not a snapshot, yet it decides between two: a socket is admitted if fewer than maxConns were listed when its count began, refused and closed if that many are listed when it ends, whatever runs in between. |
| `TcpAdmission.AtMostOneLate` | internal/network/tcp_server.go:100-151 | Once `running` has ended, from any state and over any run without a Start, at most one more connection is taken on, and that only if the accept loop was inside Accept or held its socket. |
| `TcpAdmission.WaitsWhenFull` | internal/pool/object_pool.go:48-76 | In every run: the accept loop waits for an object to be put back, or makes one that is not counted, only when maxConns have been made. |
| `TcpSweep.KickedExact` | internal/network/tcp_server.go:260-268 | In every run each close by the sweeper hit the socket of the connection that occupied the object at that moment, and the socket it was meant for iff the object then carried the id it was meant for. |
| `TcpSweep.SweepExact` | internal/network/tcp_server.go:260-268 | Whatever the other goroutines do between the sweeper's load of the object of k and its close: the socket closed is the one accepted as k iff no step in between bound the object to another connection, iff the object's id is still k. |
| `TcpSweep.SweepHitsLaterOccupant` | internal/network/tcp_server.go:260-268 | For any two sockets a run in which the sweeper, closing for connection 1, closes the socket of connection 2 on the same object while 2 is being served. |
| `TcpSweep.SweepForgetsNone` | internal/network/tcp_server.go:253-268 | In every run, an id once found idle is dealt with before the sweeper rests again, whatever the others do meanwhile: a socket has been closed for it since, or the connection has left the map. |
| `TcpSweep.RunKeepsId` | internal/network/tcp_server.go:152-163 | Over any run, an object carries id k at the end iff it did at the start and was not bound again: an id never comes back. |
| `TcpInvariant.LiveHandlerCounted` | internal/network/tcp_server.go:169-182 | While a handler lives the WaitGroup counter is positive, so Done never takes it below zero. |
| `TcpInvariant.IdleObjectExists` | internal/pool/object_pool.go:48-56 | What the free list hands out is always an object made before. |
| `Network.Connection.Reset` | internal/network/tcp_conn.go:95-101 | Clears user, session and activity time, and keeps id and socket. |
| `Network.TCPServer.GetConnectionCount` | internal/network/tcp_server.go:304-311 | The traversal's result is the number of stored connections. |
| `Network.TCPServer.GetConnectionByUserID` | internal/network/tcp_server.go:287-300 | A connection found is listed under its own id and its occupant logged in as that user; None means that no listed connection has the user. |
| `Network.TCPServer.Start` | internal/network/tcp_server.go:74-92 | Fails iff already running; otherwise both loops are live and counted. |
| `Network.TCPServer.StopAndClose` | internal/network/tcp_server.go:95-112 | After the closing loop the sockets of all listed connections are closed, and no others have been. |
| `Network.TCPServer.ReturnFromStop` | internal/network/tcp_server.go:113-118 | At a WaitGroup count of 0 the map and the handlers are empty, there have been as many Puts as connections numbered, and every accepted socket is closed. |
| `Network.TCPServer.CountConnections` | internal/network/tcp_server.go:144-148 | The count used for the cap, as the steps that the interleaved system allows, is exact when nothing comes in between. |
| `Network.TCPServer.Admit` | internal/network/tcp_server.go:129-148 | A socket passes iff the limiter allows it and the stored connections are below the cap; one that does not pass is closed. |
| `Network.TCPServer.Obtain` | internal/pool/object_pool.go:48-73 | Get on the connection pool: the longest idle object if there is one, else a new one below the limit, counted, else the one a handler offers during the wait, else a new one that is not counted. |
| `Network.TCPServer.TakeOn` | internal/network/tcp_server.go:150-170 | The object carries the new id, the socket and no user before it is listed under that id; the handler is counted before it starts. (Nothing is put back during its Get.) |
| `Network.TCPServer.AcceptOne` | internal/network/tcp_server.go:121-172 | A whole turn of the accept loop: accepted iff allowed and below the cap, and then listed under the next id with a clean object and a counted handler; a rejected socket is closed and changes nothing else. |
| `Network.TCPServer.HeartbeatTick` | internal/network/tcp_server.go:232-274 | One tick, with nothing in between, closes exactly the sockets of the listed connections that have been idle for more than 60 s. |
| `Network.TCPServer.HandleActivity` | internal/network/tcp_conn.go:71-79 | A read stamps the connection of this handler and no other. |
| `Network.TCPServer.HandleLogin` | internal/server/gateway_server.go:225 | A login binds the user to this handler's connection and to no other, as a step of the system. |
| `Network.TCPServer.HandleLogout` | internal/server/gateway_server.go:247-262 | A logout closes this connection's socket; the connection stays listed and its handler's clean-up does the rest. |
| `Network.TCPServer.CleanUp` | internal/network/tcp_server.go:176-182 | The deferred function closes the socket, unlists the connection, counts the Put, clears the identity, offers the object to the pool once and lowers the WaitGroup, in that order, each a step of the system. |
| `ObjectPool.PoolAccounting` | internal/pool/object_pool.go:48-110 | In every interleaving the completed Gets are exactly hits, counted creations and timeout creations; the Puts exactly queued and discarded; idle objects are queued less hits, within the capacity, and handed out in the order queued. |
| `ObjectPool.CreatedBound` | internal/pool/object_pool.go:61-65 | `created` exceeds the limit by at most m - 1 when at most m Gets are between test and increment; never with serial Gets. |
| `ObjectPool.UncountedOnlyAtLimit` | internal/pool/object_pool.go:67-73 | In every interleaving: a Get waits, and an object is made without being counted, only once the counted creations have reached the limit. |
| `ObjectPool.GenericPool.Get` | internal/pool/object_pool.go:48-73 | The object is the first idle one, else a new one below the limit, else one put back within the wait, else a new one; counters change as the step system says for that path. |
| `ObjectPool.GetReceives` | internal/pool/object_pool.go:67-73 | A Get that waits takes the object put back meanwhile, also when the pool has no room at all, and counts no creation. |
| `ObjectPool.GenericPool.Put` | internal/pool/object_pool.go:77-94 | Queued behind the others if there is room, else discarded; counted either way. |
| `ObjectPool.GenericPool.Stats` | internal/pool/object_pool.go:107-110 | With no call in flight: every Get was a hit, a counted creation or a creation after the wait, every Put was kept or discarded. |
| `ObjectPool.GenericPool.Available` | internal/pool/object_pool.go:102-104 | With no call in flight: what was kept less what was handed out again, within the limit. |
| `Lobby.RoomRepository.CreateRoom` | internal/database/mongodb/room.go:28-65 | Inserts unless the id is taken or the call fails; a failure leaves all rooms. |
| `Lobby.RoomRepository.AddPlayerToRoom` | internal/database/mongodb/room.go:124-137 | Appends the player and counts it in one atomic update, without any check. |
| `Lobby.RoomRepository.RemovePlayerFromRoom` | internal/database/mongodb/room.go:140-153 | Removes all entries of the user and lowers the count by one in one atomic update, even if there was none. |
| `Lobby.RoomRepository.UpdateRoom` | internal/database/mongodb/room.go:110-121 | Replaces the whole document of that id, players and count included. |
| `Lobby.RoomRepository.DeleteRoom` | internal/database/mongodb/room.go:156-163 | Only the room of that id goes. |
| `Lobby.LobbyServer.GenerateRoomID` | internal/server/lobby_server.go:57-63 | Draws the next id, which is not drawn again. |
| `Lobby.LobbyServer.CreateRoom` | internal/server/lobby_server.go:195-297 | Store and answer code are the value function's on every path, error paths included; an id is used up by a failed insert. |
| `Lobby.LobbyServer.JoinRoom` | internal/server/lobby_server.go:341-459 | Code by code the checks in the source's order on the room as read, then the unguarded push. |
| `Lobby.LobbyServer.LeaveRoom` | internal/server/lobby_server.go:532-656 | Code by code, with the search for an heir and the write-back of the room as it was read. |
| `LobbyRuns.LobbyInvariant` | internal/server/lobby_server.go:195-656 | After every sequential run from an empty store in which no owner's update is swallowed: ids unique and below nextRoomID, 2 <= max <= 8, 1 <= current = number of players <= max, player ids distinct and not 0, the owner a member. |
| `LobbyRuns.CreateExact` | internal/server/lobby_server.go:195-297 | A create succeeds iff user, name, maximum (2 to 8), password of a private room, user lookup and insert are all right; the room stored under the drawn id then has exactly the name, game type, maximum, privacy and password asked for, is waiting, and has its maker as owner and only player; nothing else changes but the next id. |
| `LobbyRuns.CreateThenJoin` | internal/server/lobby_server.go:195-459 | Another known user gets into a room just made iff it is not private or he gives its maker's password. |
| `LobbyRuns.CreateRefusal` | internal/server/lobby_server.go:198-297 | Each error code of a create names something that is the case, and no other codes occur. |
| `LobbyRuns.JoinRefusal` | internal/server/lobby_server.go:343-459 | The same for a join. |
| `LobbyRuns.LeaveRefusal` | internal/server/lobby_server.go:534-656 | The same for a leave, and a leave that is refused changes nothing. |
| `LobbyRuns.LeaveExact` | internal/server/lobby_server.go:532-656 | In a sound lobby a leave succeeds iff the user is in the room and the first write succeeds, the deletion if he is its last player and owner, else the pull. |
| `LobbyRuns.JoinExact` | internal/server/lobby_server.go:378-452 | With a known user and a working store a join succeeds iff the room exists, waits, has a free place, does not have the user, and the password fits if it is private; the room then has him, not ready, behind the players it had, and is otherwise unchanged like all other rooms; a refusal changes nothing. |
| `LobbyRuns.JoinThenLeave` | internal/server/lobby_server.go:341-656 | A leave undoes the same user's join: the lobby is what it was. |
| `LobbyRuns.CreateThenLeave` | internal/server/lobby_server.go:195-656 | A room that its maker leaves before anyone joins leaves no trace but the used id. |
| `LobbyRuns.HeirExists` | internal/server/lobby_server.go:617-626 | In a sound shared room the search finds a member other than the owner: the test for 0 never fails. |
| `LobbyRuns.FirstOtherExact` | internal/server/lobby_server.go:617-626 | The heir is the first in the list: everyone before him is the departing owner. |
| `LobbyRuns.DepartureExact` | internal/server/lobby_server.go:594-656 | After a successful leave with all writes done, the user is still a member iff he owned a room that others share; then only the owner has changed, to the first other player in the list. Otherwise his one entry is gone, or the room with its last player. |
| `LobbyRuns.OwnerUpdateExact` | internal/server/lobby_server.go:626-640 | An owner's departure whose pull succeeded leaves the lobby sound iff the write of the new owner succeeds. |
| `LobbyRuns.WithoutPresent` | internal/database/mongodb/room.go:140-153 | Among distinct players the pull removes one entry and keeps the order of the rest. |
| `LobbyRace.OvershootBound` | internal/server/lobby_server.go:378-452 | However joins and non-owner leaves interleave, the count is at most max + n - 1 when at most n joins are between read and write; exactly the capacity for n = 1. |
| `LobbyRace.OvershootAttained` | internal/server/lobby_server.go:378-452 | The bound is tight: any open room with one free place reaches max + n - 1 with n racing joins. |
| `LobbyRace.MembershipConsistent` | internal/server/lobby_server.go:408-648 | With one request per user in flight, player ids stay distinct, the count equals the list's length and the owner stays a member, in every interleaving. |
| `LobbyRace.MembershipExact` | internal/server/lobby_server.go:408-648 | From any consistent state: however the pending writes land or fail, ids, count and owner stay right iff no user has two of them. |
| `LobbyRace.TwoLeavesBreakTheCount` | internal/server/lobby_server.go:578-648 | In any room, any member other than the owner who sends two leaves at once takes the count below the number of players. |
| `LobbyRace.TwoJoinsBreakTheIds` | internal/server/lobby_server.go:408-452 | In any room, any user who may join and sends two joins at once is in it twice. |
| `LobbyRace.JoinIsReadThenWrite` | internal/server/lobby_server.go:341-459 | The service's join, uninterrupted, is exactly the racing system's read and write on that room. |
| `LobbyRace.LeaveIsReadThenWrite` | internal/server/lobby_server.go:532-656 | The same for a non-owner's leave. |
| `Limiter.RateLimitManager.CheckLimit` | internal/security/limiter.go:49-96 | New keys start full, changed limits are applied before the request, only an allowed request moves lastRequest, no other key changes. |
| `Limiter.RateLimitManager.CleanupExpiredBuckets` | internal/security/limiter.go:114-134 | Exactly the buckets idle for more than an hour go; the others are untouched. |
| `LimiterRuns.EvictionExact` | internal/security/limiter.go:49-134 | For given rates and bursts: a manager that cleans up at arbitrary moments answers every run like one that never does, iff for every key burst <= 0 or rate * 3600 >= burst. |
| `LimiterRuns.EvictionShows` | internal/security/limiter.go:114-134 | For a key that does not refill in time there is a run on which the two managers answer differently. |
| `LimiterRuns.AdmissionBound` | internal/security/limiter.go:49-134 | In any window of length T of any run a key is admitted at most burst + rate * T times (negative values counting as 0), cleanups included if burst <= 0 or rate * 3600 >= burst. |
| `LimiterRuns.RefillExact` | internal/security/limiter.go:49-96 | A new key is allowed n requests at once iff n <= burst; emptied at s and asked n times at t, it is allowed all n iff n <= min(burst, rate * (t - s)). |
| `LimiterRuns.ReconfigureExact` | internal/security/limiter.go:74-82 | A key whose limits change at t keeps its tokens and goes on from there at the new rate, up to the new burst. |
| `LimiterRuns.CheckActivity` | internal/security/limiter.go:49-96 | Only an allowed request, or a key's first, counts as activity for the cleanup; no other key is touched. |
| `LimiterRuns.KeysIndependent` | internal/security/limiter.go:49-96 | A key's answers are those of the run without the requests on other keys. |
| `LimiterRuns.BurstAnswers` | internal/security/limiter.go:49-96 | n requests at one instant are all allowed iff the bucket holds n tokens, and they use up n. |
| `Framing.Be32Value` | examples/login/main.go:58-74 | Four big-endian bytes read back give the number modulo 2^32. |
| `Framing.BigEndian` | internal/network/tcp_server.go:199-201 | The number is smaller iff the first byte that differs is: the first byte is the most significant. |
| `Framing.FirstExact` | internal/network/tcp_server.go:188-219 | Exactly when the reader finds no length, rejects it (not in 1..1048576), lacks part of the body, or has a message, and which. |
| `Framing.DecodeFrames` | internal/network/tcp_server.go:188-219 | Decoding framed payloads followed by anything yields these payloads and then what the rest decodes to. |
| `Framing.DecodeSound` | internal/network/tcp_server.go:188-219 | On every byte stream: lengths within 1..1 MiB, the messages framed again are exactly the bytes consumed, and what follows has no complete acceptable frame, for the reason reported. |
| `Framing.DecodeComplete` | internal/network/tcp_server.go:188-219 | Acceptable frames at the head of a stream are the first messages decoded: none is missed. |
| `Framing.FrameExact` | internal/server/gateway_server.go:328-337 | A framed payload is read back iff its length is within 1..1 MiB, wrap-around of the length field included. |
| `Framing.SplitPayload` | internal/server/gateway_server.go:143-148 | Splitting what the client put together gives back id and body. |
| `Framing.PayloadOfSplit` | internal/server/gateway_server.go:143-148 | Whatever splits is the id's four bytes and the body put together again. |
| `Framing.ClientToGateway` | examples/login/main.go:53-77 | Every list of client messages within the limit arrives at the gateway as exactly that list of ids and bodies, and uses up the stream. |
| `Framing.PutUint32` | examples/login/main.go:58-74 | Overwrites the first four bytes with the big-endian number and keeps the rest. |
| `Framing.SendResponse` | internal/server/gateway_server.go:328-337 | Appends exactly one frame to what has been sent. |
| `Framing.SendMessage` | examples/login/main.go:53-77 | The two writes together are one frame of id and body; nothing is sent when not connected. |
| `Framing.ReceiveMessage` | examples/login/main.go:80-103 | Returns the stream's first frame by the server reader's own rules and moves past it, or the reason why there is none. |
| `Framing.HandleConnection` | internal/network/tcp_server.go:188-227 | The loop delivers the decoded messages of the stream in order, up to the turn at which the server stops. |
| `Discovery.WeightedLoadBalancer.Select` | internal/discovery/etcd.go:472-494 | The earliest of the least loaded online services with load below the largest int, else the first of the list, none of an empty list. |
| `Discovery.WeightedChoiceMeans` | internal/discovery/etcd.go:472-494 | No online service with a load below the largest int is less loaded than the choice, none with its load comes earlier, and if there is none such the choice is the first of the list. |
| `Discovery.WeightedChoiceUnique` | internal/discovery/etcd.go:472-494 | That description determines the choice. |
| `Discovery.RoundRobinLoadBalancer.Select` | internal/discovery/etcd.go:445-461 | The counter of the first entry's type picks the position and moves by one; other types' counters stay. |
| `Discovery.PicksCycle` | internal/discovery/etcd.go:445-461 | Over lists of one size, the positions picked for a type are consecutive counter values modulo that size, whatever other types' calls come in between. |
| `Discovery.RoundRobinFair` | internal/discovery/etcd.go:445-461 | Of any k such selections each of n positions gets floor(k/n) or ceil(k/n), from any counter. |
| `RoundRobin.CycleCount` | internal/discovery/etcd.go:445-461 | How often exactly k consecutive counter values pick a position. |
| `RoundRobin.CycleFair` | internal/discovery/etcd.go:445-461 | Hence floor(k/n) or ceil(k/n) times, wherever the counter starts. |
| `Discovery.ServiceDiscovery.GetService` | internal/discovery/etcd.go:526-546 | The weighted choice from the cached list, or, on a miss or an empty list, from the fetched one, which is cached; none and no change when the registry fails. |
| `Discovery.ServiceDiscovery.GetAllServices` | internal/discovery/etcd.go:549-569 | A cached list, even an empty one, is the answer; otherwise the fetched one, which is cached. |
| `Discovery.ServiceDiscovery.RefreshCache` | internal/discovery/etcd.go:572-594 | Exactly the cached types are refreshed; those whose fetch fails keep their list. |
| `DiscoveryRuns.CacheIsGenuine` | internal/discovery/etcd.go:376-390 | In every interleaving of refresh, watch and miss fetches, a cached list and any list a lookup chose from is one the registry has held for that type. |
| `DiscoveryRuns.CacheConverges` | internal/discovery/etcd.go:514-594 | Once a type's list stops changing and the older fetches have landed, the next write makes the cache equal to the registry, and it stays so through any further run. |
| `DiscoveryRuns.CacheExact` | internal/discovery/etcd.go:514-594 | The cache has the registry's list and keeps it through any further fetches and lookups iff it has it now and no fetch under way carries another list. |
| `DiscoveryRuns.StaleWriteWins` | internal/discovery/etcd.go:572-594 | For any two lists a run ends with the older one cached. |
| `DiscoveryRuns.CallGetService` | internal/discovery/etcd.go:526-546 | An uninterrupted GetService makes the cache that the interleaved system's lookup, or read and write (or failure), makes, and returns the weighted choice from the list those steps answer with. |
| `Nsq.NSQManager.PublishWithLoadBalancing` | internal/mq/nsq_core.go:184-209 | The producer whose turn it is is asked exactly once and no other more than once; success iff some producer is up (with failover) or that one is; on success exactly one producer has the message, on failure none; the whole effect is that of the function that the runs below are about. |
| `Nsq.NSQManager.Failover` | internal/mq/nsq_core.go:194-206 | Asks the producers other than the failed one in order, each once, up to the first that accepts, and no further. |
| `Nsq.NSQManager.Publish` | internal/mq/nsq_core.go:174-180 | In a cluster of several producers with load balancing the same; otherwise the main producer alone is asked. |
| `Nsq.Winner` | internal/mq/nsq_core.go:184-209 | The producer that gets the message: the one whose turn it is if it is up, else the earliest that is up; none iff none is up. |
| `Nsq.AskedTakes` | internal/mq/nsq_core.go:184-209 | Whoever is asked and up takes the message, and nobody else does. |
| `Nsq.AskedInVain` | internal/mq/nsq_core.go:194-206 | A publish that fails has asked every producer, or without failover the one in turn alone. |
| `Nsq.PublishingFair` | internal/mq/nsq_core.go:184-209 | k load-balanced publishes, whatever the producers answer, ask each of n producers at least floor(k/n) times; at most ceil(k/n) times without failover or when all are up; when all are up each takes between floor(k/n) and ceil(k/n) of the messages. |
| `Nsq.Turns` | internal/mq/nsq_core.go:184-209 | How often exactly: once for each of its turns, and more only through failover. |
| `Nsq.Delivered` | internal/mq/nsq_core.go:184-209 | Over any run the producers together have taken exactly one message for each publish that succeeded. |
| `Actor.MailboxFifo` | internal/actor/actor.go:63-132 | In every interleaving messages taken followed by the mailbox are the accepted ones in order, they are processed one at a time, the mailbox is within its capacity, and at most one run loop exists. |
| `Actor.MessagesCanBeTaken` | internal/actor/actor.go:71-97 | In every run an actor that is running and was never stopped has its run loop, and some continuation processes every message in its mailbox. |
| `Actor.FirstMessage` | internal/actor/actor.go:63-132 | A new actor that is started and told a message processes it, with a buffer or without. |
| `Actor.StartIsExclusive` | internal/actor/actor.go:63-78 | From the beginning of Start until OnStart has returned no message is accepted. |
| `Actor.StopCanReturn` | internal/actor/actor.go:100-115 | A Stop is never stuck: from wherever the run loop is, some run brings it to its return. |
| `Actor.StopFreezes` | internal/actor/actor.go:100-115 | When Stop returns no message is being processed, and until the next Start nothing is accepted or processed, and the mailbox keeps what it held. |
| `Actor.BaseActor.Start` | internal/actor/actor.go:63-77 | Fails iff running; otherwise exactly one run loop is live and counted, even after an earlier Stop. |
| `Actor.BaseActor.Tell` | internal/actor/actor.go:118-132 | Accepted iff running and, in time, there is room, or without a buffer a run loop to hand the message to; appended behind the others or processed at once, else nothing changes. |
| `Actor.BaseActor.ReceiveOne` | internal/actor/actor.go:80-97 | The run loop hands on the oldest message. |
| `Actor.BaseActor.Stop` | internal/actor/actor.go:100-115 | Returns with no run loop left, after any number of further messages that the loop takes, in order, before it sees the cancelled context; a second Stop changes nothing. |
| `Alerts.AlertManager.CheckRules` | internal/monitoring/monitoring.go:386-428 | Rules in order, each against the state its predecessors left, with history and lastAlert as the value function gives them. |
| `Alerts.AlertManager.GetRecentAlerts` | internal/monitoring/monitoring.go:360-368 | The last alerts, as many as asked for or all. |
| `Alerts.CheckExact` | internal/monitoring/monitoring.go:386-428 | A check at `now` raises one alert for each rule with now - lastAlert >= cooldown whose condition holds, in rule order, none for any other rule, stamps exactly those rules and keeps the earlier history. |
| `Alerts.QuietCheck` | internal/monitoring/monitoring.go:399-424 | When no condition holds a check changes neither rules nor history. |
| `Alerts.AddedRuleChecked` | internal/monitoring/monitoring.go:344-350 | A rule that was added takes part in the next check: it alerts iff it is out of its cooldown and its condition holds. |
| `Alerts.CheckSpaced` | internal/monitoring/monitoring.go:386-428 | One check at a time not before the last one keeps the history ordered and a rule's alerts its cooldown apart. |
| `Alerts.CooldownKept` | internal/monitoring/monitoring.go:386-428 | Over any run with a clock that does not go back, the history is in time order and two alerts of one rule are at least its cooldown apart. |
| `Alerts.CooldownByName` | internal/monitoring/monitoring.go:73-104 | If no two rules have the same name, two alerts that carry a rule's name are at least its cooldown apart. |
| `Alerts.AlertsPerWindow` | internal/monitoring/monitoring.go:386-428 | Any closed window of length w holds at most 1 + floor(w / cooldown) alerts of a rule with a positive cooldown. |
| `Buffers.Message.SetData` | internal/pool/message_pool.go:25-33 | The data are the argument's bytes, also when it is part of the message's own buffer; the capacity grows only when it must. |
| `Buffers.Message.Reset` | internal/pool/message_pool.go:13-22 | Empty data; a buffer whose length exceeded 4096 is replaced by one of 1024. |
| `Buffers.KeptCapacityExact` | internal/pool/message_pool.go:13-33 | At most 4096 bytes of capacity go back to the pool iff no large length was set in the cycle or the last one set was large. |
| `Buffers.OneSetPerCycle` | internal/pool/message_pool.go:13-33 | With at most one SetData per use, over any number of uses, the capacity kept is at most 4096. |
| `Buffers.ClassOf` | internal/pool/byte_buffer_pool.go:37-49 | The least size class that holds the request, none iff it exceeds them all. |
| `Buffers.ByteBufferPool.GetBuffer` | internal/pool/byte_buffer_pool.go:37-49 | A buffer of the length asked for and the capacity of its least class, taken out of that sub-pool if it is a pooled one; beyond the classes an exact one. |
| `Buffers.ByteBufferPool.PutBuffer` | internal/pool/byte_buffer_pool.go:52-64 | Kept in the sub-pool of exactly its capacity, dropped if there is none. |
| `Buffers.ByteBufferPool.Borrow` | internal/pool/byte_buffer_pool.go:37-64 | A buffer that was not re-sliced, pooled or new, goes back to the end of the class it came from; the other classes are as before. |
| `MessageRuns.HoldersKeepTheirData` | internal/pool/message_pool.go:13-71 | Over any history of GetMessage, SetData and PutMessage in which only holders use a message: each holder's message holds what he set last, nothing at first, and no two holders have the same message, however often messages were reused. |
| `MessageRuns.OwnershipExact` | internal/pool/message_pool.go:13-71 | While everybody finds his own data, this stays so whatever the holders do next, iff idle messages are distinct, empty and held by nobody and no message has two holders. |
| `MessageRuns.StalePutExact` | internal/pool/message_pool.go:69-71 | A Put by someone who is not the holder any more leaves that intact iff the message is neither idle nor held, or the pool is full and whoever holds it has set nothing yet. |
| `MessageRuns.DoublePutBreaks` | internal/pool/message_pool.go:69-71 | Putting a message back twice, with room in the pool, always allows an honest continuation that ends with one holder's data overwritten by another. |
| `MessageRuns.MessagePool.GetMessage` | internal/pool/message_pool.go:64-66 | Hands out the first idle message or a new one, empty, and changes no other's data, as the step of the histories. |
| `MessageRuns.MessagePool.FillMessage` | internal/pool/message_pool.go:25-33 | Filling a message under any ticket changes that message's data and no other's: buffers are never shared. |
| `MessageRuns.MessagePool.ResetMessage` | internal/pool/message_pool.go:13-22 | For the data of all messages, Reset by a holder is a fill with nothing. |
| `MessageRuns.MessagePool.PutMessage` | internal/pool/message_pool.go:69-71 | Empties the message and offers it to the pool under any ticket, open or not. |

## Left out

- Accept failures, which every Stop brings about: the code calls a method of the connection before it looks at the error (`internal/network/tcp_server.go:125-142`), and there is none then; a failure goes straight to the error branch here.
- `Connection.IsClosed`: `Close` never sets the flag it reads, so nothing is claimed about it. Handlers leave on a failed read or when the server stops.
- Short reads: `Read` fills its buffer or fails; the code ignores the byte count. The client's two writes of one message have no other sender's in between.
- Data races on plain fields: each access is one step, and so are the writes by which the accept loop binds an object.
- A caller that acts on a connection it has looked up earlier (`SendToUser`, `KickUser`): like the sweeper's, its object may be another connection's by then.
- Clocks: one reading per call, never going back. Floating-point rounding in the limiter: tokens are reals. `rate.Inf` is not modelled.
- Overflow of connection ids, room ids, balancer counters and the int32 player count: these integers are unbounded.
- Fairness: Stop can return from wherever the goroutines are; that the scheduler lets them go on is not stated.
- A Start between the closing of the listener and the return of Stop, which the code lets through and which can leave two accept loops; the listener itself, TLS and logging.
- The branch of the accept loop for a pool object of the wrong type: the factory makes connections only.
- `Broadcast`, `Write`, message routing by id and the keys of the rate limits: single lookups over the map that the results are about.
- LobbyRace.MembershipConsistent: does not cover an owner's departure that races with joins; the stale write-back breaks consistency there, and owner departures are covered sequentially.
- Responses that fail to marshal after a write, room timestamps, `GetRoomList`, `CountRooms`: the answer's encoding does not change the store.
- Protobuf and JSON bodies, MongoDB, Redis, etcd and NSQ clients: opaque bytes and parameters for outcomes.
- The etcd registry itself: an arbitrary changing snapshot. `UpdateLoad` takes a lock that it already holds and cannot complete.
- Nsq.NSQManager.PublishWithLoadBalancing: a producer's error means that it did not take the message. The producers are distinct objects.
- `OnStart`, `OnReceive` and `OnStop` bodies, `ActorSystem` and the actor-message pool are not modelled.
- Alerts.AlertManager.GetRecentAlerts: a negative limit, which makes the slice expression fail, is not modelled. Alert ids and the channels' `Send` are not either.
- MessageRuns.MessagePool.GetMessage: a message that another holder puts back during its wait comes one step earlier, as a Put before the Get. `PutMessage(nil)` is not modelled.
- Buffers.ByteBufferPool.GetBuffer: negative sizes are not modelled; what `sync.Pool` keeps or drops is the caller's parameter.
- NSQ subscriptions, `center_server.go`, `system_service.go`: single loops or lookups.
