/** The Redis server, reduced to the commands the auction server issues. Commands run
    one at a time and never fail. TTLs have no clock here: a lock's lease running out
    is the explicit command Expire. */
module RedisStore {
  import opened Wrappers
  import opened Leilao

  class Redis {
    /** Plain string keys; the auction keeps its locks here. */
    var strings: map<string, string>
    /** The hash `leilao:<productId>` of the one product this store serves. Redis keeps
        one such hash per product; here every Server sharing a store shares this one
        record, so servers of different products must not share a store. */
    var leilao: Record
    /** Everything published on `notificacao-leilao`, oldest first. */
    var published: seq<Event>
    /** How many SET ... NX commands have been issued. */
    ghost var setCalls: nat

    function View(): Snapshot
      reads this
    {
      Snapshot(strings, leilao, published)
    }

    constructor ()
      ensures View() == Empty && setCalls == 0
    {
      strings, leilao, published := map[], map[], [];
      setCalls := 0;
    }

    /** `SET key value NX PX ttl`: stores the value only when the key is absent. */
    method SetNX(key: string, value: string) returns (ok: bool)
      modifies this
      ensures ok <==> key !in old(strings)
      ensures strings == if ok then old(strings)[key := value] else old(strings)
      ensures leilao == old(leilao) && published == old(published)
      ensures setCalls == old(setCalls) + 1
    {
      ok := key !in strings;
      if ok {
        strings := strings[key := value];
      }
      setCalls := setCalls + 1;
    }

    /** `GET key`: None for a missing key (null in ioredis). */
    method Get(key: string) returns (v: Option<string>)
      ensures v.Some? <==> key in strings
      ensures v.Some? ==> v.value == strings[key]
    {
      v := if key in strings then Some(strings[key]) else None;
    }

    /** `DEL key`. */
    method Del(key: string)
      modifies this
      ensures strings == old(strings) - {key}
      ensures leilao == old(leilao) && published == old(published) && setCalls == old(setCalls)
    {
      strings := strings - {key};
    }

    /** The lease of `key` runs out: Redis drops the key whoever holds it. */
    method Expire(key: string)
      modifies this
      ensures strings == old(strings) - {key}
      ensures leilao == old(leilao) && published == old(published) && setCalls == old(setCalls)
    {
      strings := strings - {key};
    }

    /** `HGETALL leilao:<productId>`: the empty map when the hash does not exist. */
    method HGetAll() returns (h: Record)
      ensures h == leilao
    {
      h := leilao;
    }

    /** `HMSET leilao:<productId> ...`: writes the given fields and keeps the others. */
    method HMSet(fields: Record)
      modifies this
      ensures leilao == old(leilao) + fields
      ensures strings == old(strings) && published == old(published) && setCalls == old(setCalls)
    {
      leilao := leilao + fields;
    }

    /** `HSET leilao:<productId> field value`. */
    method HSet(field: string, value: string)
      modifies this
      ensures leilao == old(leilao)[field := value]
      ensures strings == old(strings) && published == old(published) && setCalls == old(setCalls)
    {
      leilao := leilao[field := value];
    }

    /** `PUBLISH notificacao-leilao message`. */
    method Publish(e: Event)
      modifies this
      ensures published == old(published) + [e]
      ensures strings == old(strings) && leilao == old(leilao) && setCalls == old(setCalls)
    {
      published := published + [e];
    }
  }
}
