/** The auction server of servidor.js, step by step against the shared store: the lock
    primitives, the three lock-guarded commands and the message handler. Each command
    is proved to have the net effect its namesake in module Leilao gives.

    Between two SET NX attempts the source sleeps; nothing else runs in this model
    during that sleep, so the retries meet the same store as the first attempt. */
module Servidor {
  import opened Wrappers
  import opened Leilao
  import opened RedisStore

  class Server {
    /** The connection to the shared store. */
    const redis: Redis
    /** The product auctioned (`PRODUCT_ID`). */
    const productId: string

    constructor (redis: Redis, productId: string)
      ensures this.redis == redis && this.productId == productId
    {
      this.redis := redis;
      this.productId := productId;
    }

    /** acquireLock: up to `maxAttempts` SET NX of `lockKey -> clientId`; true on the first that stores. */
    method AcquireLock(lockKey: string, clientId: string, maxAttempts: nat) returns (acquired: bool)
      modifies redis
      ensures acquired <==> 0 < maxAttempts && lockKey !in old(redis.strings)
      ensures redis.strings == if acquired then old(redis.strings)[lockKey := clientId] else old(redis.strings)
      ensures redis.leilao == old(redis.leilao) && redis.published == old(redis.published)
      ensures redis.setCalls == old(redis.setCalls) + (if acquired then 1 else maxAttempts)
    {
      var i := 0;
      while i < maxAttempts
        invariant 0 <= i <= maxAttempts
        invariant 0 < i ==> lockKey in old(redis.strings)
        invariant redis.strings == old(redis.strings)
        invariant redis.leilao == old(redis.leilao) && redis.published == old(redis.published)
        invariant redis.setCalls == old(redis.setCalls) + i
      {
        var result := redis.SetNX(lockKey, clientId);
        if result {
          return true;
        }
        // exponential backoff: no other client acts in this model
        i := i + 1;
      }
      return false;
    }

    /** releaseLock: GET the owner, and DEL the key only when it is still `clientId`. */
    method ReleaseLock(lockKey: string, clientId: string)
      modifies redis
      ensures redis.strings == Release(old(redis.strings), lockKey, clientId)
      ensures redis.leilao == old(redis.leilao) && redis.published == old(redis.published)
      ensures redis.setCalls == old(redis.setCalls)
    {
      var currentOwner := redis.Get(lockKey);
      if currentOwner == Some(clientId) {
        redis.Del(lockKey);
      }
    }

    /** The retry loop every command runs first: up to LockRounds calls of acquireLock. */
    method AcquireWithRetry(lockKey: string, clientId: string) returns (acquired: bool)
      modifies redis
      ensures acquired <==> lockKey !in old(redis.strings)
      ensures redis.strings == if acquired then old(redis.strings)[lockKey := clientId] else old(redis.strings)
      ensures redis.leilao == old(redis.leilao) && redis.published == old(redis.published)
      ensures redis.setCalls <= old(redis.setCalls) + LockRounds * MaxAttempts
    {
      acquired := false;
      var i := 0;
      while i < LockRounds
        invariant 0 <= i <= LockRounds
        invariant !acquired
        invariant 0 < i ==> lockKey in old(redis.strings)
        invariant redis.strings == old(redis.strings)
        invariant redis.leilao == old(redis.leilao) && redis.published == old(redis.published)
        invariant redis.setCalls == old(redis.setCalls) + i * MaxAttempts
      {
        acquired := AcquireLock(lockKey, clientId, MaxAttempts);
        if acquired {
          return;
        }
        // sleep(100 * (i + 1)): no other client acts in this model
        i := i + 1;
      }
    }

    /** iniciarLeilao: under the lock, open the auction unless it is active. */
    method IniciarLeilao(clientId: string) returns (ok: bool)
      modifies redis
      ensures (redis.View(), ok) == Leilao.IniciarLeilao(old(redis.View()), productId)
      ensures redis.setCalls <= old(redis.setCalls) + LockRounds * MaxAttempts
    {
      ghost var before := redis.View();
      var lockKey := LockKey(productId);
      var acquired := AcquireWithRetry(lockKey, clientId);
      if !acquired {
        return false;
      }
      // try
      var leilao := redis.HGetAll();
      if IsActive(leilao) {
        ok := false;
      } else {
        assert lockKey in redis.strings && redis.strings[lockKey] == clientId;
        redis.HMSet(Abertura);
        redis.Publish(Inicio(productId, 0));
        ok := true;
      }
      // finally
      ReleaseLock(lockKey, clientId);
      assert redis.strings == before.locks[lockKey := clientId] - {lockKey} == before.locks;
    }

    /** processarLance: under the lock, take the bid when the auction is active and it is strictly higher. */
    method ProcessarLance(clientId: string, msg: Comando)
      modifies redis
      ensures redis.View() == Leilao.ProcessarLance(old(redis.View()), productId, msg.nome, msg.valor)
      ensures redis.setCalls <= old(redis.setCalls) + LockRounds * MaxAttempts
    {
      ghost var before := redis.View();
      var lockKey := LockKey(productId);
      var acquired := AcquireWithRetry(lockKey, clientId);
      if !acquired {
        return;
      }
      // try
      var leilao := redis.HGetAll();
      if IsActive(leilao) {
        var lanceAtual := CurrentBid(leilao);
        var novoLance := msg.valor;
        if novoLance.Some? && lanceAtual.Some? && novoLance.value > lanceAtual.value {
          assert lockKey in redis.strings && redis.strings[lockKey] == clientId;
          TakenBid(before, productId, msg.nome, novoLance.value);
          redis.HMSet(map["lanceAtual" := Decimal.IntToString(novoLance.value), "vencedor" := msg.nome]);
          redis.Publish(Lance(productId, msg.nome, novoLance.value));
        }
        // otherwise the bid is lower, equal or not a number: it is only logged
      }
      // finally
      ReleaseLock(lockKey, clientId);
      assert redis.strings == before.locks[lockKey := clientId] - {lockKey} == before.locks;
    }

    /** finalizarLeilao: under the lock, close an active auction and announce its winner. */
    method FinalizarLeilao(clientId: string)
      modifies redis
      ensures redis.View() == Leilao.FinalizarLeilao(old(redis.View()), productId)
      ensures redis.setCalls <= old(redis.setCalls) + LockRounds * MaxAttempts
    {
      ghost var before := redis.View();
      var lockKey := LockKey(productId);
      var acquired := AcquireWithRetry(lockKey, clientId);
      if !acquired {
        return;
      }
      // try
      var leilao := redis.HGetAll();
      if IsActive(leilao) {
        var vencedor := FieldOr(leilao, "vencedor", "none");
        var lanceVencedor := FieldOr(leilao, "lanceAtual", "0");
        assert lockKey in redis.strings && redis.strings[lockKey] == clientId;
        redis.HSet("ativo", "false");
        redis.Publish(Fim(productId, vencedor, lanceVencedor));
      }
      // finally
      ReleaseLock(lockKey, clientId);
      assert redis.strings == before.locks[lockKey := clientId] - {lockKey} == before.locks;
    }

    /** The `message` handler: commands on the command channel, routed on `tipo`. */
    method HandleMessage(channel: string, msg: Comando, clientId: string)
      modifies redis
      ensures redis.View() == Despachar(old(redis.View()), productId, channel, msg)
      ensures redis.setCalls <= old(redis.setCalls) + LockRounds * MaxAttempts
    {
      if channel != ComandoChannel {
        return;
      }
      if msg.tipo == "iniciar" {
        var _ := IniciarLeilao(clientId);
      } else if msg.tipo == "lance" {
        ProcessarLance(clientId, msg);
      } else if msg.tipo == "finalizar" {
        FinalizarLeilao(clientId);
      }
    }
  }

  /** Two servers share one store. A takes the lock, its lease runs out while it works,
      B takes the lock, and A's release with its old id leaves B's lock in place. */
  method StaleReleaseScenario(redis: Redis, a: Server, b: Server, key: string, idA: string, idB: string)
    requires a.redis == redis && b.redis == redis
    requires key !in redis.strings && idA != idB
    modifies redis
    ensures redis.strings == old(redis.strings)[key := idB]
    ensures redis.leilao == old(redis.leilao) && redis.published == old(redis.published)
  {
    var gotA := a.AcquireLock(key, idA, MaxAttempts);
    assert gotA;
    redis.Expire(key);
    var gotB := b.AcquireLock(key, idB, MaxAttempts);
    assert gotB;
    a.ReleaseLock(key, idA);
  }
}
