/** What the commands of module Leilao guarantee together: the bid never goes down
    while an auction is open, an equal bid is refused, closing twice is closing once,
    two bids with different amounts end the same whichever is handled first, and the
    published notifications always agree with the stored record. */
module LeilaoProps {
  import opened Wrappers
  import opened Decimal
  import opened Leilao

  /** How one notification moves the amounts of the auction opened last: an `inicio`
      starts them afresh, a `lance` adds its amount, a `fim` leaves them. */
  function LadderStep(bids: seq<int>, e: Event): seq<int>
  {
    if e.Inicio? then [e.lanceAtual] else if e.Lance? then bids + [e.valor] else bids
  }

  /** The amounts of the auction opened last, as the notifications tell it: the
      opening amount of the last `inicio`, then every `lance` published after it. */
  function Ladder(evts: seq<Event>): seq<int>
    decreases |evts|
  {
    if evts == [] then [] else LadderStep(Ladder(evts[..|evts| - 1]), evts[|evts| - 1])
  }

  /** How one notification moves the leader: "none" at an `inicio`, the bidder at a `lance`. */
  function LeaderStep(leader: string, e: Event): string
  {
    if e.Inicio? then "none" else if e.Lance? then e.nome else leader
  }

  /** The leader as the notifications tell it. */
  function Leader(evts: seq<Event>): string
    decreases |evts|
  {
    if evts == [] then "none" else LeaderStep(Leader(evts[..|evts| - 1]), evts[|evts| - 1])
  }

  ghost predicate Increasing(xs: seq<int>)
  {
    forall i, j :: 0 <= i < j < |xs| ==> xs[i] < xs[j]
  }

  /** While the auction is active, the accepted amounts since it opened rise strictly,
      the stored bid is the last of them and the stored winner is the last bidder. */
  ghost predicate Consistent(s: Snapshot)
  {
    IsActive(s.leilao) ==>
      var bids := Ladder(s.published);
      && bids != []
      && Increasing(bids)
      && CurrentBid(s.leilao) == Some(bids[|bids| - 1])
      && "vencedor" in s.leilao && s.leilao["vencedor"] == Leader(s.published)
  }

  lemma IniciarKeepsConsistent(s: Snapshot, productId: string)
    requires Consistent(s)
    ensures Consistent(IniciarLeilao(s, productId).0)
  {
  }

  lemma LanceKeepsConsistent(s: Snapshot, productId: string, nome: string, valor: Option<int>)
    requires Consistent(s)
    ensures Consistent(ProcessarLance(s, productId, nome, valor))
  {
  }

  lemma FinalizarKeepsConsistent(s: Snapshot, productId: string)
    requires Consistent(s)
    ensures Consistent(FinalizarLeilao(s, productId))
  {
  }

  lemma DespacharKeepsConsistent(s: Snapshot, productId: string, channel: string, msg: Comando)
    requires Consistent(s)
    ensures Consistent(Despachar(s, productId, channel, msg))
  {
    if channel == ComandoChannel {
      if msg.tipo == "iniciar" {
        IniciarKeepsConsistent(s, productId);
      } else if msg.tipo == "lance" {
        LanceKeepsConsistent(s, productId, msg.nome, msg.valor);
      } else if msg.tipo == "finalizar" {
        FinalizarKeepsConsistent(s, productId);
      }
    }
  }

  /** From any consistent store, whatever commands arrive, the record and the notifications
      still agree; the empty store is consistent by EmptyIsConsistent. */
  lemma {:induction false} RunKeepsConsistent(s: Snapshot, productId: string, msgs: seq<Comando>)
    requires Consistent(s)
    ensures Consistent(Run(s, productId, msgs))
    decreases |msgs|
  {
    if msgs != [] {
      DespacharKeepsConsistent(s, productId, ComandoChannel, msgs[0]);
      RunKeepsConsistent(Despachar(s, productId, ComandoChannel, msgs[0]), productId, msgs[1..]);
    }
  }

  lemma EmptyIsConsistent()
    ensures Consistent(Empty)
  {
  }

  /** A bid never lowers the recorded amount, and a bid equal to it changes nothing. */
  lemma BidNeverLowers(s: Snapshot, productId: string, nome: string, valor: Option<int>)
    requires CurrentBid(s.leilao).Some?
    ensures CurrentBid(ProcessarLance(s, productId, nome, valor).leilao).Some?
    ensures CurrentBid(ProcessarLance(s, productId, nome, valor).leilao).value >= CurrentBid(s.leilao).value
    ensures valor == CurrentBid(s.leilao) ==> ProcessarLance(s, productId, nome, valor) == s
  {
  }

  /** Closing a second time has no effect: no record change and no second `fim`. */
  lemma FinalizarIdempotent(s: Snapshot, productId: string)
    ensures FinalizarLeilao(FinalizarLeilao(s, productId), productId) == FinalizarLeilao(s, productId)
  {
  }

  /** Two bids of different amounts, handled one after the other under the lock, leave
      the same record in either order: the higher amount and its bidder, when it beats
      the bid already recorded. */
  lemma BidsOrderIndependent(s: Snapshot, productId: string, na: string, a: int, nb: string, b: int)
    requires a != b
    ensures ProcessarLance(ProcessarLance(s, productId, na, Some(a)), productId, nb, Some(b)).leilao ==
            ProcessarLance(ProcessarLance(s, productId, nb, Some(b)), productId, na, Some(a)).leilao
    ensures Takes(s, productId, Some(a)) || Takes(s, productId, Some(b)) ==>
      var r := ProcessarLance(ProcessarLance(s, productId, na, Some(a)), productId, nb, Some(b)).leilao;
      && CurrentBid(r) == Some(if a > b then a else b)
      && r["vencedor"] == (if a > b then na else nb)
  {
    var sa := ProcessarLance(s, productId, na, Some(a));
    var sb := ProcessarLance(s, productId, nb, Some(b));
    BidRecord(s, productId, na, a);
    BidRecord(s, productId, nb, b);
    BidRecord(sa, productId, nb, b);
    BidRecord(sb, productId, na, a);
  }

  /** The record after a bid: the new amount and bidder when it is taken, else as it was. */
  lemma BidRecord(s: Snapshot, productId: string, nome: string, v: int)
    ensures var r := ProcessarLance(s, productId, nome, Some(v));
      && r.locks == s.locks
      && r.leilao == (if Takes(s, productId, Some(v))
                      then s.leilao["lanceAtual" := IntToString(v)]["vencedor" := nome]
                      else s.leilao)
      && (Takes(s, productId, Some(v)) ==> CurrentBid(r.leilao) == Some(v))
  {
  }

  /** Closing an auction the server ran announces the last accepted amount and its bidder. */
  lemma ClosingAnnouncesLastBid(s: Snapshot, productId: string)
    requires Consistent(s) && LockFree(s, productId) && IsActive(s.leilao)
    ensures
      var r := FinalizarLeilao(s, productId);
      var bids := Ladder(s.published);
      && |r.published| == |s.published| + 1
      && r.published[|s.published|].Fim?
      && ParseInt(r.published[|s.published|].lance) == Some(bids[|bids| - 1])
      && r.published[|s.published|].vencedor ==
           (if Leader(s.published) == "" then "none" else Leader(s.published))
  {
  }

  /** The commands of a typical auction: open, three bids, a close, then one bid too late. */
  function ScenarioMsgs(): seq<Comando>
  {
    [ Comando("iniciar", "", None),
      Comando("lance", "alice", Some(10)),
      Comando("lance", "bob", Some(10)),
      Comando("lance", "bob", Some(15)),
      Comando("finalizar", "", None),
      Comando("lance", "carol", Some(100)) ]
  }

  lemma ScenarioOpenAndAlice(p: string)
    ensures var s1 := IniciarLeilao(Empty, p).0;
      && s1.published == [Inicio(p, 0)]
      && Takes(s1, p, Some(10))
  {
  }

  lemma ScenarioBob(p: string)
    ensures var s2 := ProcessarLance(IniciarLeilao(Empty, p).0, p, "alice", Some(10));
      && s2.published == [Inicio(p, 0), Lance(p, "alice", 10)]
      && ProcessarLance(s2, p, "bob", Some(10)) == s2
      && Takes(s2, p, Some(15))
  {
  }

  lemma ScenarioClose(p: string)
    ensures var s4 := ProcessarLance(ProcessarLance(IniciarLeilao(Empty, p).0, p, "alice", Some(10)), p, "bob", Some(15));
      && s4.published == [Inicio(p, 0), Lance(p, "alice", 10), Lance(p, "bob", 15)]
      && LockFree(s4, p) && IsActive(s4.leilao) && CurrentBid(s4.leilao) == Some(15)
      && s4.leilao["vencedor"] == "bob" && s4.leilao["lanceAtual"] == "15"
  {
  }

  /** The first three commands of the scenario: open, alice's bid and bob's equal bid. */
  lemma ScenarioRunFront(p: string)
    ensures Run(Empty, p, ScenarioMsgs()) ==
            Run(ProcessarLance(IniciarLeilao(Empty, p).0, p, "alice", Some(10)), p, ScenarioMsgs()[3..])
  {
    var msgs := ScenarioMsgs();
    var s1 := IniciarLeilao(Empty, p).0;
    var s2 := ProcessarLance(s1, p, "alice", Some(10));
    ScenarioOpenAndAlice(p);
    ScenarioBob(p);
    assert StepRun(Empty, p, msgs, 0, s1);
    assert StepRun(s1, p, msgs, 1, s2);
    assert StepRun(s2, p, msgs, 2, s2);
  }

  /** The last three commands of the scenario: bob's higher bid, the close and carol's late bid. */
  lemma ScenarioRunBack(p: string)
    ensures var s2 := ProcessarLance(IniciarLeilao(Empty, p).0, p, "alice", Some(10));
      Run(s2, p, ScenarioMsgs()[3..]) == FinalizarLeilao(ProcessarLance(s2, p, "bob", Some(15)), p)
  {
    var msgs := ScenarioMsgs();
    var s2 := ProcessarLance(IniciarLeilao(Empty, p).0, p, "alice", Some(10));
    var s4 := ProcessarLance(s2, p, "bob", Some(15));
    var s5 := FinalizarLeilao(s4, p);
    ScenarioClose(p);
    assert StepRun(s2, p, msgs, 3, s4);
    assert StepRun(s4, p, msgs, 4, s5);
    assert StepRun(s5, p, msgs, 5, s5);
    assert Run(s5, p, msgs[6..]) == s5;
  }

  /** A typical auction: open; alice bids 10 and is taken; bob's equal
      bid is refused; bob bids 15 and is taken; close announces bob at 15; carol's later
      bid of 100 finds the auction closed. */
  lemma AuctionScenario(productId: string)
    ensures
      var r := Run(Empty, productId, ScenarioMsgs());
      && r.published == [Inicio(productId, 0), Lance(productId, "alice", 10),
                         Lance(productId, "bob", 15), Fim(productId, "bob", "15")]
      && !IsActive(r.leilao)
      && CurrentBid(r.leilao) == Some(15)
      && r.leilao["vencedor"] == "bob"
      && r.locks == map[]
  {
    ScenarioRunFront(productId);
    ScenarioRunBack(productId);
    ScenarioClose(productId);
  }

  /** One command of a run: handling `msgs[k]` in `s` gives `t`, so the rest of the run from `s` is the rest from `t`. */
  ghost predicate StepRun(s: Snapshot, productId: string, msgs: seq<Comando>, k: nat, t: Snapshot)
    requires k < |msgs|
  {
    && Despachar(s, productId, ComandoChannel, msgs[k]) == t
    && Run(s, productId, msgs[k..]) == Run(t, productId, msgs[k + 1..])
  }
}
