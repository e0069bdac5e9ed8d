/** The idle queue of a pool hands out connections in the order in which they were offered. */
module PoolOrder {
  import opened Types
  import opened Exchange
  import opened ExchangeInvariant
  import PS = PoolSystem
  import opened PoolSystem

  /** Connection c has got a token between two states; tokens are counted at the connection, not in the queue. */
  ghost predicate Gains(p: Pool, p': Pool, c: PS.Cid) {
    c in p.conns && c in p'.conns && p'.conns[c].c.tokens > p.conns[c].c.tokens
  }

  ghost predicate Loses(p: Pool, p': Pool, c: PS.Cid) {
    c in p.conns && c in p'.conns && p'.conns[c].c.tokens < p.conns[c].c.tokens
  }

  /** The connection that was offered between two states, if one was, and the one that was taken. */
  ghost function Entered(p: Pool, p': Pool): seq<PS.Cid> {
    if exists c :: Gains(p, p', c) then var c :| Gains(p, p', c); [c] else []
  }

  ghost function Left(p: Pool, p': Pool): seq<PS.Cid> {
    if exists c :: Loses(p, p', c) then var c :| Loses(p, p', c); [c] else []
  }

  /** The connections offered in the first n steps of a run, in their order, and those taken. */
  ghost function Offered(run: seq<Pool>, n: nat): seq<PS.Cid>
    requires n < |run|
  {
    if n == 0 then [] else Offered(run, n - 1) + Entered(run[n - 1], run[n])
  }

  ghost function Taken(run: seq<Pool>, n: nat): seq<PS.Cid>
    requires n < |run|
  {
    if n == 0 then [] else Taken(run, n - 1) + Left(run[n - 1], run[n])
  }

  /** What a step does to the queue is what it does to the tokens. */
  lemma OrderStep(p: Pool, lim: Limits, s: PoolStep)
    requires PoolEnabled(p, lim, s) && (s.On? ==> Inv(p.conns[s.c]))
    ensures var p' := PoolApply(p, lim, s); Left(p, p') + p'.idle == p.idle + Entered(p, p')
  {
    var p' := PoolApply(p, lim, s);
    if s.On? {
      LeavingStep(p.conns[s.c], s.step);
      assert Gains(p, p', s.c) <==> IsOffer(s.step);
      assert Loses(p, p', s.c) <==> IsPop(s.step);
      assert forall c :: Gains(p, p', c) || Loses(p, p', c) ==> c == s.c;
    } else {
      assert forall c :: !Gains(p, p', c) && !Loses(p, p', c);
    }
  }

  lemma OrderAt(run: seq<Pool>, lim: Limits, i: nat)
    requires IsPoolRun(run, lim) && 0 < i < |run|
    ensures Left(run[i - 1], run[i]) + run[i].idle == run[i - 1].idle + Entered(run[i - 1], run[i])
  {
    var s := LastStep(run, lim, i);
    if s.On? {
      ConnInv(run, lim, i - 1, s.c);
    }
    OrderStep(run[i - 1], lim, s);
  }

  lemma Regroup<T>(a: seq<T>, b: seq<T>, c: seq<T>, d: seq<T>, e: seq<T>)
    requires d + e == b + c
    ensures (a + b) + c == (a + d) + e
  {
    assert (a + b) + c == a + (b + c);
    assert (a + d) + e == a + (d + e);
  }

  /**
   * First offered, first taken: in every reachable state the connections offered so far are those taken so far,
   * followed by the queue.
   */
  lemma {:induction false} FirstOfferedFirstTaken(run: seq<Pool>, lim: Limits, i: nat)
    requires IsPoolRun(run, lim) && i < |run|
    ensures Offered(run, i) == Taken(run, i) + run[i].idle
  {
    if i > 0 {
      FirstOfferedFirstTaken(run, lim, i - 1);
      OrderAt(run, lim, i);
      Regroup(Taken(run, i - 1), run[i - 1].idle, Entered(run[i - 1], run[i]),
              Left(run[i - 1], run[i]), run[i].idle);
    }
  }
}
