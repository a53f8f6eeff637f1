# Distributed auction coordinator: a Dafny model

This project models the auction server `servidor.js`. The server runs one
single-item auction whose state lives in a shared Redis store. Every command
(`iniciar`, `lance`, `finalizar`) first takes a lock on the key
`lock:leilao:<productId>`: it does a `SET NX` with the command's own id, retries a
bounded number of times, and drops the command if the lock stays taken. Holding the
lock, the command reads the hash `leilao:<productId>`. That hash has the string
fields `ativo`, `lanceAtual`, `vencedor` and `item`. The command then decides, writes
the hash, publishes a notification (`inicio`, `lance` or `fim`) and finally
releases the lock. Releasing deletes the lock key only if the command's own id is
still stored there.

The model has two layers:

- **Values** (modules `Leilao`, `LeilaoProps`). A `Snapshot` holds the lock keys,
  the auction hash and the notifications published so far. Each command is a function
  giving its net effect. Module `LeilaoProps` proves properties across commands:
  - the invariant `Consistent` holds after any run of commands;
  - a bid never lowers the stored amount, and an equal bid changes nothing;
  - closing twice has the same effect as closing once;
  - two bids with different amounts give the same record in either order;
  - a typical auction (open, three bids, close, then one bid after the close) ends
    with the expected winner, bid and notifications.

  `Consistent` says that, while the auction is active, the bids accepted since it
  opened rise strictly, the stored bid is the last of them, and the stored winner is
  the last bidder.
- **Objects** (modules `RedisStore`, `Servidor`). Class `Redis` is the store, with
  one method per Redis command used. It also has `Expire` for a lease that runs out,
  and a ghost count of the `SET NX` commands issued. Class `Server` runs the
  commands step by step. Its methods have the same retry loops and the
  release-on-every-path shape as the source. Each method is proved to have exactly
  the net effect of its namesake in `Leilao`, and to issue at most 3 × 5 `SET NX`
  commands. `StaleReleaseScenario` runs two servers on one store. It shows that a
  release with an old id, after the lease expired and another server took the lock,
  leaves the other server's lock in place.

Bid amounts are integers. `novoLance.toString()` and `parseFloat` become
`Decimal.IntToString` and `Decimal.ParseInt`, and `ParseIntToString` proves that
reading back an amount the server wrote gives the same amount. A text that is not a
number reads as `None`, which stands for JavaScript's `NaN`. No comparison with
`None` holds, so a bid of `NaN`, or any bid against a stored `NaN`, is refused.
JavaScript's `x || default` on a missing or empty field is `Leilao.FieldOr`.

Some behaviours of the code are easy to get wrong, and the model follows the code in each:

- Opening uses `hmset`. This writes the four initial fields and keeps any other field
  of the hash; it does not replace the record.
- A bid that is too low or equal, and a bid on a closed auction, are only logged. No
  rejection notification is published.
- After a close (`ativo` = `false`), `iniciar` opens the auction again and resets the
  bid to 0. A closed auction is therefore not final.
- Release is a `GET` followed by a `DEL`, not one atomic compare-and-delete. A
  sequential model can state only what this does when it runs alone.
- Command ids are `<pid>-<milliseconds>`, so two commands started by the same
  process in the same millisecond share an id. The lock-safety scenario assumes the
  two ids differ.

## Model

| member | source | states |
|---|---|---|
| Decimal.NatToString | servidor.js:126 | the numeral written for an amount is non-empty, all digits, with no leading zero unless the amount is 0 |
| Decimal.ParseNat | servidor.js:121-122 | reading a numeral succeeds exactly on non-empty all-digit text |
| Decimal.IntToString | servidor.js:126 | the text written for an amount is non-empty and starts with `-` exactly when the amount is negative; the rest is all digits |
| Decimal.ParseInt | servidor.js:121-122 | reading an amount succeeds exactly on non-empty text that is all digits or a `-` followed by at least one digit; a negative value comes only from text starting with `-` |
| Decimal.ParseNatToString | servidor.js:121-126 | reading back a written non-negative amount gives that amount |
| Decimal.ParseIntToString | servidor.js:121-126 | reading back any written amount, negative included, gives that amount |
| Leilao.Release | servidor.js:40-45 | the lock key disappears exactly when its stored owner equals the caller's id; no other key changes, and a foreign or stale id removes nothing |
| Leilao.IniciarLeilao | servidor.js:51-88 | opens exactly when the lock is free and `ativo` is not `true`; then the four fields written hold exactly `ativo` = `true`, `lanceAtual` = `0`, `vencedor` = `none` and `item` = `Produto Padrão`, so the auction is active and the bid reads 0, the other fields are kept and exactly one `inicio` with amount 0 is appended; otherwise nothing changes and it returns false; the locks are unchanged either way |
| Leilao.ProcessarLance | servidor.js:101-144 | a bid is taken exactly when the lock is free, the auction active and the amount strictly above the stored bid; then the stored bid is exactly the text `Decimal.IntToString` writes for the new amount and reads back as it, the winner is the bidder, only `lanceAtual` and `vencedor` change and one `lance` with the amount is appended; otherwise nothing changes |
| Leilao.FinalizarLeilao | servidor.js:157-188 | on an inactive or missing auction, or with the lock taken, nothing changes; otherwise only `ativo` changes, to exactly `false`, so the auction is no longer active, and one `fim` is appended with the winner and bid as stored before the close, defaulting to `none` and `0` |
| Leilao.Despachar | servidor.js:216-234 | a message off the command channel, or with a `tipo` other than `iniciar`, `lance` or `finalizar`, changes nothing; `iniciar`, `lance` and `finalizar` on the command channel have exactly the effect of `Leilao.IniciarLeilao`, `Leilao.ProcessarLance` (with the message's name and amount) and `Leilao.FinalizarLeilao`; notifications are only appended, at most one per message; locks never change net |
| Leilao.Run | servidor.js:216-234 | handling a sequence of commands one after the other never changes the locks net, only appends notifications, at most one per command, and an empty sequence changes nothing |
| LeilaoProps.IniciarKeepsConsistent | servidor.js:64-88 | opening keeps the record in agreement with the notifications |
| LeilaoProps.LanceKeepsConsistent | servidor.js:115-137 | a bid keeps the accepted amounts strictly rising, the stored bid equal to the last of them and the stored winner equal to the last bidder |
| LeilaoProps.FinalizarKeepsConsistent | servidor.js:169-179 | closing keeps the record in agreement with the notifications |
| LeilaoProps.DespacharKeepsConsistent | servidor.js:222-234 | every handled message keeps the record in agreement with the notifications |
| LeilaoProps.RunKeepsConsistent | servidor.js:216-234 | any sequence of commands keeps the record in agreement with the notifications |
| LeilaoProps.BidNeverLowers | servidor.js:121-144 | a bid never lowers the stored amount, and a bid equal to it leaves everything unchanged |
| LeilaoProps.FinalizarIdempotent | servidor.js:169-173 | closing twice has the same effect as closing once: the second close changes nothing and publishes nothing |
| LeilaoProps.BidsOrderIndependent | servidor.js:121-137 | two bids of different amounts leave the same record in either order, holding the higher amount and its bidder when that beats the stored bid |
| LeilaoProps.ClosingAnnouncesLastBid | servidor.js:175-188 | closing an auction run by the server announces the last accepted amount and the last bidder (`none` for an empty name) |
| LeilaoProps.AuctionScenario | servidor.js:47-196 | open, alice 10 taken, bob 10 refused, bob 15 taken, close announces bob at 15, carol 100 refused: exactly four notifications, the final bid 15, the winner bob, no lock left |
| RedisStore.Redis.SetNX | servidor.js:31 | stores the value only if the key is absent, reports whether it did, and counts one attempt |
| RedisStore.Redis.Get | servidor.js:41 | returns the stored owner, or None for a missing key |
| RedisStore.Redis.Del | servidor.js:43 | removes the key and nothing else |
| RedisStore.Redis.Expire | servidor.js:31 | the lease given by `PX ttl` runs out: the key is removed whoever holds it, and nothing else changes |
| RedisStore.Redis.HGetAll | servidor.js:64 | returns the auction hash, empty when it does not exist |
| RedisStore.Redis.HMSet | servidor.js:71-76 | writes the given fields over the hash and keeps the others |
| RedisStore.Redis.HSet | servidor.js:179 | writes one field of the hash |
| RedisStore.Redis.Publish | servidor.js:81-86 | appends one notification |
| Servidor.Server.AcquireLock | servidor.js:29-38 | returns true exactly when at least one attempt is allowed and the key was absent; on success the key maps to the caller's id, on failure the owner is unchanged; exactly one SET NX on success and exactly `maxAttempts` on failure |
| Servidor.Server.ReleaseLock | servidor.js:40-45 | the lock keys become `Leilao.Release` of the old ones; the hash and the notifications are unchanged |
| Servidor.Server.AcquireWithRetry | servidor.js:51-60 | acquires exactly when the lock key was absent, after at most 3 × 5 SET NX, and leaves the owner unchanged when it fails |
| Servidor.Server.IniciarLeilao | servidor.js:47-95 | the new store and the result are exactly `Leilao.IniciarLeilao` of the old store, so the lock is released on every path that took it |
| Servidor.Server.ProcessarLance | servidor.js:97-151 | the new store is exactly `Leilao.ProcessarLance` of the old store and the message's name and amount |
| Servidor.Server.FinalizarLeilao | servidor.js:153-196 | the new store is exactly `Leilao.FinalizarLeilao` of the old store |
| Servidor.Server.HandleMessage | servidor.js:216-238 | the new store is exactly `Leilao.Despachar` of the old store, the channel and the message |
| Servidor.StaleReleaseScenario | servidor.js:40-45 | server A takes the lock, its lease expires, server B takes it, and A's release with its old id leaves the key mapped to B's id |

## Left out

- The ioredis connection, the Sentinel settings, `redis.duplicate()` and the subscription to the command channel (servidor.js:10-24, 214). These are network set-up; the store is the class `Redis` and messages are handed to `HandleMessage`.
- The backoff sleeps, their exponential growth and the random jitter (servidor.js:35, 55, 105, 160). They are timing only. Nothing else runs during a sleep in this model, so a retried SET NX meets the same store as the first attempt.
- Servidor.Server.AcquireLock: lock TTLs and their clock. The `ttl` argument is not a parameter; a lease running out is the explicit `Redis.Expire`.
- How `CLIENT_ID` is built from the process id and the clock (servidor.js:49, 99, 155). It is a parameter of every command.
- Interleaving of commands. The `message` handler is `async` and is not serialized (servidor.js:216), so the commands of one server, as well as those of different servers, can interleave at every `await`. Each command here runs as one uninterrupted sequence, and a run applies whole commands in the order they take the lock. So mutual exclusion between concurrent commands and the non-atomic GET-then-DEL of the release are not verified.
- One auction hash per store. Redis keeps a separate `leilao:<productId>` hash per product; class `Redis` and `Snapshot` hold only one, so servers of different products sharing one store would share one record in this model.
- Store failures and the `catch` branches (servidor.js:89-91, 146-147, 191-192, 235-236). In this model a Redis command never fails.
- `parseFloat` beyond whole numbers: fractions, exponents, a leading `+` or spaces, and text with a numeric prefix followed by other characters are not modelled. Amounts are unbounded integers, and a bid's `valor` arrives already parsed. JavaScript amounts are doubles: whole numbers above 2^53 lose precision, and `toString` (servidor.js:126) writes exponent form from 1e21 up. Neither effect is modelled.
- JSON encoding and decoding of messages (servidor.js:220). Messages and notifications are structured values, and the `mensagem` text of notifications is not kept.
- The console logging, the automatic opening at start-up, the 30-second timer that closes the auction, `process.exit` and the SIGINT handler (servidor.js:199-212, 240-248).
- The client program cliente.js is not part of this model.
