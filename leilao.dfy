/** The auction of servidor.js as values.

    A Snapshot is the part of the shared Redis store one auction server touches: the
    string keys that hold the locks (`lock:leilao:<productId>` maps to the id of the
    command holding it), the hash `leilao:<productId>` with its string fields `ativo`,
    `lanceAtual`, `vencedor` and `item`, and the notifications published so far on the
    channel `notificacao-leilao`, oldest first.

    Each command of the server is given here by its net effect on a Snapshot. Every
    command takes the lock under a fresh id and gives it back before it ends, or does
    nothing when another holder keeps the lock; so the lock keys end as they began,
    and the id a command used does not show in its net effect. The class Server in
    module Servidor runs the commands step by step against the store and is proved to
    have exactly these effects. */
module Leilao {
  import opened Wrappers
  import opened Decimal

  /** The channel commands arrive on. */
  const ComandoChannel: string := "comando-leilao"
  /** SET NX attempts per acquireLock call (its default `maxAttempts`). */
  const MaxAttempts: nat := 5
  /** acquireLock calls per command before the command is dropped. */
  const LockRounds: nat := 3

  function LockKey(productId: string): string { "lock:leilao:" + productId }

  /** A Redis hash: field name to string value; a missing hash reads as the empty map. */
  type Record = map<string, string>

  /** Published notifications, named by their wire `tipo`. The human-readable
      `mensagem` text is not kept. A `lance` notification carries the accepted amount
      both as `valor` and as `lanceAtual`; here it is kept once. The `fim`
      notification reports the stored strings as they are. */
  datatype Event =
    | Inicio(productId: string, lanceAtual: int)
    | Lance(productId: string, nome: string, valor: int)
    | Fim(productId: string, vencedor: string, lance: string)

  /** A parsed command message. `valor` is the bid as parsed; None stands for NaN. */
  datatype Comando = Comando(tipo: string, nome: string, valor: Option<int>)

  datatype Snapshot = Snapshot(locks: map<string, string>, leilao: Record, published: seq<Event>)

  /** A store with no locks, no auction hash and nothing published. */
  const Empty: Snapshot := Snapshot(map[], map[], [])

  predicate IsActive(rec: Record) { "ativo" in rec && rec["ativo"] == "true" }

  /** JavaScript's `rec.f || default`: a missing or empty field gives the default. */
  function FieldOr(rec: Record, f: string, default: string): string
  {
    if f in rec && rec[f] != "" then rec[f] else default
  }

  /** `parseFloat(leilao.lanceAtual || 0)`: None when the stored text is not a number. */
  function CurrentBid(rec: Record): Option<int>
  {
    ParseInt(FieldOr(rec, "lanceAtual", "0"))
  }

  /** `novoLance > lanceAtual`, where any comparison with NaN is false. */
  predicate Beats(rec: Record, valor: Option<int>)
  {
    valor.Some? && CurrentBid(rec).Some? && valor.value > CurrentBid(rec).value
  }

  /** The fields `hmset` writes when an auction opens. */
  const Abertura: Record :=
    map["ativo" := "true", "lanceAtual" := "0", "vencedor" := "none", "item" := "Produto Padrão"]

  /** The fields a bid may change. */
  const BidFields: set<string> := {"lanceAtual", "vencedor"}

  /** The lock of the auction is free, so a command gets it. */
  predicate LockFree(s: Snapshot, productId: string) { LockKey(productId) !in s.locks }

  /** Releasing `key` for `id`: the key goes exactly when `id` still owns it. */
  function Release(locks: map<string, string>, key: string, id: string): (r: map<string, string>)
    ensures key in r <==> key in locks && locks[key] != id
    ensures forall k :: k in r ==> k in locks && r[k] == locks[k]
    ensures forall k :: k in locks && k != key ==> k in r
  {
    if key in locks && locks[key] == id then locks - {key} else locks
  }

  /** iniciarLeilao: opens the auction unless it is already active; reports whether it did. */
  function IniciarLeilao(s: Snapshot, productId: string): (r: (Snapshot, bool))
    ensures r.0.locks == s.locks
    ensures r.1 <==> LockFree(s, productId) && !IsActive(s.leilao)
    ensures !r.1 ==> r.0 == s
    ensures r.1 ==>
      && IsActive(r.0.leilao)
      && CurrentBid(r.0.leilao) == Some(0)
      && FieldOr(r.0.leilao, "vencedor", "none") == "none"
      && "item" in r.0.leilao && r.0.leilao["item"] == "Produto Padrão"
      && (forall f :: f in Abertura ==> f in r.0.leilao && r.0.leilao[f] == Abertura[f])
      && r.0.leilao.Keys == s.leilao.Keys + Abertura.Keys
      && r.0.leilao - Abertura.Keys == s.leilao - Abertura.Keys
      && r.0.published == s.published + [Inicio(productId, 0)]
  {
    if !LockFree(s, productId) then (s, false)
    else if IsActive(s.leilao) then (s, false)
    else (s.(leilao := s.leilao + Abertura, published := s.published + [Inicio(productId, 0)]), true)
  }

  /** A bid is taken: the lock is free, the auction active and the amount strictly higher. */
  predicate Takes(s: Snapshot, productId: string, valor: Option<int>)
  {
    LockFree(s, productId) && IsActive(s.leilao) && Beats(s.leilao, valor)
  }

  /** processarLance: records the bid when it is strictly higher than the current one. */
  function ProcessarLance(s: Snapshot, productId: string, nome: string, valor: Option<int>): (r: Snapshot)
    ensures r.locks == s.locks
    ensures !Takes(s, productId, valor) ==> r == s
    ensures Takes(s, productId, valor) ==>
      && CurrentBid(r.leilao) == valor
      && "lanceAtual" in r.leilao && r.leilao["lanceAtual"] == IntToString(valor.value)
      && "vencedor" in r.leilao && r.leilao["vencedor"] == nome
      && r.leilao.Keys == s.leilao.Keys + BidFields
      && r.leilao - BidFields == s.leilao - BidFields
      && r.published == s.published + [Lance(productId, nome, valor.value)]
  {
    if !Takes(s, productId, valor) then s
    else
      ParseIntToString(valor.value);
      s.(leilao := s.leilao["lanceAtual" := IntToString(valor.value)]["vencedor" := nome],
         published := s.published + [Lance(productId, nome, valor.value)])
  }

  /** A bid that is taken writes its two fields over the record, as one `hmset`, and publishes one `lance`. */
  lemma TakenBid(s: Snapshot, productId: string, nome: string, v: int)
    requires Takes(s, productId, Some(v))
    ensures ProcessarLance(s, productId, nome, Some(v)) ==
      s.(leilao := s.leilao + map["lanceAtual" := IntToString(v), "vencedor" := nome],
         published := s.published + [Lance(productId, nome, v)])
  {
    assert s.leilao["lanceAtual" := IntToString(v)]["vencedor" := nome] ==
           s.leilao + map["lanceAtual" := IntToString(v), "vencedor" := nome];
  }

  /** finalizarLeilao: closes an active auction and announces its winner; otherwise nothing. */
  function FinalizarLeilao(s: Snapshot, productId: string): (r: Snapshot)
    ensures r.locks == s.locks
    ensures !(LockFree(s, productId) && IsActive(s.leilao)) ==> r == s
    ensures LockFree(s, productId) && IsActive(s.leilao) ==>
      && !IsActive(r.leilao)
      && "ativo" in r.leilao && r.leilao["ativo"] == "false"
      && r.leilao.Keys == s.leilao.Keys
      && r.leilao - {"ativo"} == s.leilao - {"ativo"}
      && r.published == s.published +
           [Fim(productId, FieldOr(s.leilao, "vencedor", "none"), FieldOr(s.leilao, "lanceAtual", "0"))]
  {
    if !LockFree(s, productId) || !IsActive(s.leilao) then s
    else
      var vencedor := FieldOr(s.leilao, "vencedor", "none");
      var lanceVencedor := FieldOr(s.leilao, "lanceAtual", "0");
      s.(leilao := s.leilao["ativo" := "false"],
         published := s.published + [Fim(productId, vencedor, lanceVencedor)])
  }

  /** The message handler: only the command channel, and only the three known `tipo`s, act. */
  function Despachar(s: Snapshot, productId: string, channel: string, msg: Comando): (r: Snapshot)
    ensures r.locks == s.locks
    ensures s.published <= r.published && |r.published| <= |s.published| + 1
    ensures channel != ComandoChannel || msg.tipo !in {"iniciar", "lance", "finalizar"} ==> r == s
    ensures channel == ComandoChannel && msg.tipo == "iniciar" ==> r == IniciarLeilao(s, productId).0
    ensures channel == ComandoChannel && msg.tipo == "lance" ==> r == ProcessarLance(s, productId, msg.nome, msg.valor)
    ensures channel == ComandoChannel && msg.tipo == "finalizar" ==> r == FinalizarLeilao(s, productId)
  {
    if channel != ComandoChannel then s
    else if msg.tipo == "iniciar" then IniciarLeilao(s, productId).0
    else if msg.tipo == "lance" then ProcessarLance(s, productId, msg.nome, msg.valor)
    else if msg.tipo == "finalizar" then FinalizarLeilao(s, productId)
    else s
  }

  /** The commands handled one after the other, in the order in which they take the lock. */
  function Run(s: Snapshot, productId: string, msgs: seq<Comando>): (r: Snapshot)
    ensures r.locks == s.locks
    ensures s.published <= r.published && |r.published| <= |s.published| + |msgs|
    ensures msgs == [] ==> r == s
    decreases |msgs|
  {
    if msgs == [] then s
    else Run(Despachar(s, productId, ComandoChannel, msgs[0]), productId, msgs[1..])
  }
}
