/**
 What every run of the request protocol keeps: the drain counter, the servers requests
 refer to, and the load ledgers.
 */
module RequestSafety {
  import opened Options
  import opened SchedulerSpec
  import opened RequestProtocol

  // ------------------------------------------------------------- invariants

  ghost predicate OnLive(pool: Pool, h: Hold) {
    h.key in pool.servers && pool.servers[h.key].ordinal == h.ordinal
  }

  ghost predicate HoldOk(h: Option<Hold>, n: nat) {
    h.Some? ==> h.value.load >= 0.0 && h.value.ordinal < n
  }

  /** The servers an assignment names are live, under the loads the scores prescribe. */
  ghost predicate InfoOk(sched: State, info: Info) {
    info.pk in sched.prefill.servers && info.dk in sched.decode.servers && info.pl > 0.0 && info.dl >= 0.0
  }

  ghost predicate KvIs(sched: State, q: Req, key: string, load: real) {
    key in sched.prefill.servers && q.kv == Some(HoldOn(sched.prefill, key, load))
  }

  ghost predicate DecIs(sched: State, q: Req, key: string, load: real) {
    key in sched.decode.servers && q.dec == Some(HoldOn(sched.decode, key, load))
  }

  /** What each phase of a request holds. */
  ghost predicate PhaseOk(sched: State, q: Req) {
    match q.phase
    case Prefilling(pk, length) => KvIs(sched, q, pk, PrefillScore(length)) && q.dec.None? && q.over.None?
    case Streaming(info, released) =>
      && InfoOk(sched, info) && DecIs(sched, q, info.dk, info.dl) && q.over.None?
      && (if released then q.kv.None? else KvIs(sched, q, info.pk, info.pl))
    case KvReturned(info) => InfoOk(sched, info) && DecIs(sched, q, info.dk, info.dl) && q.kv.None? && q.over.None?
    case DecoderReturned(info) => InfoOk(sched, info) && q.kv.None? && q.dec.None? && q.over.None?
    case RePrefilling(info, pk, length) =>
      InfoOk(sched, info) && KvIs(sched, q, pk, PrefillScore(length)) && q.dec.None? && q.over.None?
    case Closing(info, held) =>
      InfoOk(sched, info) && q.over.None? && (held ==> DecIs(sched, q, info.dk, info.dl))
    case Lost => q.over.None?
    case Done => true
  }

  ghost predicate ReqOk(sched: State, q: Req) {
    && PhaseOk(sched, q)
    && HoldOk(q.kv, sched.nextOrdinal) && HoldOk(q.dec, sched.nextOrdinal) && HoldOk(q.over, sched.nextOrdinal)
    && (Unfinished(q) && q.kv.Some? ==> OnLive(sched.prefill, q.kv.value))
    && (Unfinished(q) && q.dec.Some? ==> OnLive(sched.decode, q.dec.value))
  }

  /** Prefill pressure is never negative and never above what is reserved and not given back. */
  ghost predicate KvBounded(pool: Pool, reqs: seq<Req>) {
    forall k :: k in pool.servers ==>
      0.0 <= pool.servers[k].activeKv <= Total(reqs, KvAt(k, pool.servers[k].ordinal))
  }

  /** Prefill pressure is exactly what is reserved and not given back. */
  ghost predicate KvExact(pool: Pool, reqs: seq<Req>) {
    forall k :: k in pool.servers ==>
      pool.servers[k].activeKv == Total(reqs, KvAt(k, pool.servers[k].ordinal))
  }

  /** Decoder pressure is what is reserved and not given back, less what was given back twice. */
  ghost predicate DecExact(pool: Pool, reqs: seq<Req>) {
    forall k :: k in pool.servers ==>
      pool.servers[k].activeTokens ==
      Total(reqs, DecAt(k, pool.servers[k].ordinal)) - Total(reqs, OverAt(k, pool.servers[k].ordinal))
  }

  /** A node the listener may still activate is not live in the role it waits for. */
  ghost predicate ListenerOk(s: Sys) {
    && (forall k :: k in s.sched.waiting ==> k !in s.sched.RolePool(s.sched.waiting[k].role).servers)
    && (s.listener.Checking? ==>
          && (forall i :: 0 <= i < |s.listener.todo| ==>
                s.listener.todo[i].0 !in s.sched.RolePool(s.listener.todo[i].1.role).servers)
          && (forall i, j :: 0 <= i < j < |s.listener.todo| ==> s.listener.todo[i].0 != s.listener.todo[j].0))
  }

  ghost predicate Inv(s: Sys) {
    && s.sched.requestNum == Open(s.reqs)
    && (forall r :: 0 <= r < |s.reqs| ==> ReqOk(s.sched, s.reqs[r]))
    && KvBounded(s.sched.prefill, s.reqs)
    && DecExact(s.sched.decode, s.reqs)
    && OrdinalsBelow(s.sched.prefill, s.sched.nextOrdinal) && OrdinalsBelow(s.sched.decode, s.sched.nextOrdinal)
    && ListenerOk(s)
  }

  // ------------------------------------------------------ steps, in pieces

  /** `s'` keeps every server of `s` under its ordinal. */
  ghost predicate Extends(s: State, s': State) {
    && s.nextOrdinal <= s'.nextOrdinal
    && (forall k :: k in s.prefill.servers ==>
          k in s'.prefill.servers && s'.prefill.servers[k].ordinal == s.prefill.servers[k].ordinal)
    && (forall k :: k in s.decode.servers ==>
          k in s'.decode.servers && s'.decode.servers[k].ordinal == s.decode.servers[k].ordinal)
  }

  lemma ReqOkExtends(s: State, s': State, q: Req)
    requires ReqOk(s, q) && Extends(s, s')
    ensures ReqOk(s', q)
  {
  }

  /** The same servers under the same ordinals: only loads and taints may differ. */
  ghost predicate SameServers(p: Pool, p': Pool) {
    p.servers.Keys == p'.servers.Keys && forall k :: k in p.servers ==> p'.servers[k].ordinal == p.servers[k].ordinal
  }

  /** The effect of a scheduler call that moves loads only. */
  ghost predicate MovesLoads(s: State, s': State) {
    && SameServers(s.prefill, s'.prefill) && SameServers(s.decode, s'.decode)
    && s'.waiting == s.waiting && s'.nextOrdinal == s.nextOrdinal
  }

  /** What remains of the invariant once the ledgers are accounted for separately. */
  lemma ShapeKept(s: Sys, s': Sys, r: nat)
    requires Inv(s) && MovesLoads(s.sched, s'.sched) && s'.listener == s.listener
    requires r < |s'.reqs| && (|s'.reqs| == |s.reqs| || (|s'.reqs| == |s.reqs| + 1 && r == |s.reqs|))
    requires forall i :: 0 <= i < |s.reqs| && i != r ==> s'.reqs[i] == s.reqs[i]
    requires ReqOk(s'.sched, s'.reqs[r])
    requires s'.sched.requestNum == Open(s'.reqs)
    requires KvBounded(s'.sched.prefill, s'.reqs) && DecExact(s'.sched.decode, s'.reqs)
    ensures Inv(s')
  {
    forall i | 0 <= i < |s'.reqs|
      ensures ReqOk(s'.sched, s'.reqs[i])
    {
      if i != r { ReqOkExtends(s.sched, s'.sched, s.reqs[i]); }
    }
  }

  // ---------------------------------------------------------------- ledgers

  lemma {:induction false} TotalNonNegative(reqs: seq<Req>, a: Account)
    requires forall r :: 0 <= r < |reqs| ==> Weight(reqs[r], a) >= 0.0
    ensures Total(reqs, a) >= 0.0
  {
    if reqs != [] {
      assert Weight(reqs[0], a) >= 0.0;
      forall r | 0 <= r < |reqs[1..]|
        ensures Weight(reqs[1..][r], a) >= 0.0
      {
        assert reqs[1..][r] == reqs[r + 1];
      }
      TotalNonNegative(reqs[1..], a);
    }
  }

  /** On every server of `p`, the column `a` names moves from `reqs` to `reqs'` as `q0` becomes `q`. */
  ghost predicate ColumnsMove(p: Pool, reqs: seq<Req>, reqs': seq<Req>, q0: Req, q: Req) {
    && (forall x :: x in p.servers ==> ColumnMoves(KvAt(x, p.servers[x].ordinal), reqs, reqs', q0, q))
    && (forall x :: x in p.servers ==> ColumnMoves(DecAt(x, p.servers[x].ordinal), reqs, reqs', q0, q))
    && (forall x :: x in p.servers ==> ColumnMoves(OverAt(x, p.servers[x].ordinal), reqs, reqs', q0, q))
  }

  ghost predicate ColumnMoves(a: Account, reqs: seq<Req>, reqs': seq<Req>, q0: Req, q: Req) {
    Total(reqs', a) == Total(reqs, a) - Weight(q0, a) + Weight(q, a)
  }

  lemma UpdateMovesColumns(p: Pool, reqs: seq<Req>, r: nat, q: Req)
    requires r < |reqs|
    ensures ColumnsMove(p, reqs, reqs[r := q], reqs[r], q)
    ensures Open(reqs[r := q]) == Open(reqs) - (if Unfinished(reqs[r]) then 1 else 0) + (if Unfinished(q) then 1 else 0)
  {
    var reqs' := reqs[r := q];
    forall a: Account
      ensures ColumnMoves(a, reqs, reqs', reqs[r], q)
    {
      UpdateTotals(reqs, r, q, a);
    }
    UpdateTotals(reqs, r, q, KvAt("", 0));
  }

  const NOBODY: Req := Req(Done, None, None, None)

  lemma AppendMovesColumns(p: Pool, reqs: seq<Req>, q: Req)
    ensures ColumnsMove(p, reqs, reqs + [q], NOBODY, q)
    ensures Open(reqs + [q]) == Open(reqs) + (if Unfinished(q) then 1 else 0)
  {
    forall a: Account
      ensures ColumnMoves(a, reqs, reqs + [q], NOBODY, q)
    {
      AppendTotals(reqs, q, a);
    }
    AppendTotals(reqs, q, KvAt("", 0));
  }

  /** The KV column of server `x` moves. */
  lemma KvMovesOf(p: Pool, reqs: seq<Req>, reqs': seq<Req>, q0: Req, q: Req, x: string)
    requires ColumnsMove(p, reqs, reqs', q0, q) && x in p.servers
    ensures ColumnMoves(KvAt(x, p.servers[x].ordinal), reqs, reqs', q0, q)
  {
  }

  /** A reservation that joins the ledger as it is charged keeps both KV properties. */
  lemma KvCharge(p: Pool, k: string, load: real, reqs: seq<Req>, reqs': seq<Req>, q0: Req, q: Req)
    requires KvBounded(p, reqs) && ColumnsMove(p, reqs, reqs', q0, q)
    requires k in p.servers && load >= 0.0 && q0.kv == None && q.kv == Some(HoldOn(p, k, load))
    ensures KvBounded(ChargePool(p, k, load, false, true), reqs')
    ensures KvExact(p, reqs) ==> KvExact(ChargePool(p, k, load, false, true), reqs')
  {
    hide Total, ColumnsMove;
    forall x | x in p.servers
      ensures ColumnMoves(KvAt(x, p.servers[x].ordinal), reqs, reqs', q0, q)
    {
      KvMovesOf(p, reqs, reqs', q0, q, x);
    }
  }

  /** A reservation that leaves the ledger as it is released keeps both; the clamp does not bite when exact. */
  lemma KvRelease(p: Pool, k: string, load: real, reqs: seq<Req>, reqs': seq<Req>, q0: Req, q: Req)
    requires KvBounded(p, reqs) && ColumnsMove(p, reqs, reqs', q0, q)
    requires k in p.servers && load >= 0.0 && q0.kv == Some(HoldOn(p, k, load)) && q.kv == None
    requires Total(reqs', KvAt(k, p.servers[k].ordinal)) >= 0.0
    ensures KvBounded(ReleasePool(p, Some(k), load, false, true), reqs')
    ensures KvExact(p, reqs) ==> KvExact(ReleasePool(p, Some(k), load, false, true), reqs')
    ensures KvExact(p, reqs) ==> p.servers[k].activeKv >= load
  {
    hide Total, ColumnsMove;
    forall x | x in p.servers
      ensures ColumnMoves(KvAt(x, p.servers[x].ordinal), reqs, reqs', q0, q)
    {
      KvMovesOf(p, reqs, reqs', q0, q, x);
    }
  }

  /** Releasing what the ledger no longer holds only lowers the pressure, and never below zero. */
  lemma KvReleaseAgain(p: Pool, k: string, load: real, reqs: seq<Req>)
    requires KvBounded(p, reqs) && k in p.servers && load >= 0.0
    ensures KvBounded(ReleasePool(p, Some(k), load, false, true), reqs)
  {
  }

  /** Moves that leave every request's KV reservation alone. */
  lemma KvUntouched(p: Pool, reqs: seq<Req>, reqs': seq<Req>, q0: Req, q: Req)
    requires ColumnsMove(p, reqs, reqs', q0, q) && q0.kv == q.kv
    ensures KvBounded(p, reqs) ==> KvBounded(p, reqs')
    ensures KvExact(p, reqs) ==> KvExact(p, reqs')
  {
    forall x | x in p.servers
      ensures ColumnMoves(KvAt(x, p.servers[x].ordinal), reqs, reqs', q0, q)
    {
    }
  }

  /** The decoder columns of server `x` move. */
  lemma MovesOf(p: Pool, reqs: seq<Req>, reqs': seq<Req>, q0: Req, q: Req, x: string)
    requires ColumnsMove(p, reqs, reqs', q0, q) && x in p.servers
    ensures ColumnMoves(DecAt(x, p.servers[x].ordinal), reqs, reqs', q0, q)
    ensures ColumnMoves(OverAt(x, p.servers[x].ordinal), reqs, reqs', q0, q)
  {
  }

  lemma DecCharge(p: Pool, k: string, load: real, reqs: seq<Req>, reqs': seq<Req>, q0: Req, q: Req)
    requires DecExact(p, reqs) && ColumnsMove(p, reqs, reqs', q0, q)
    requires k in p.servers && q0.dec == None && q.dec == Some(HoldOn(p, k, load)) && q.over == q0.over
    ensures DecExact(ChargePool(p, k, load, true, false), reqs')
  {
    hide Total;
    var p' := ChargePool(p, k, load, true, false);
    forall x | x in p'.servers
      ensures p'.servers[x].activeTokens
              == Total(reqs', DecAt(x, p'.servers[x].ordinal)) - Total(reqs', OverAt(x, p'.servers[x].ordinal))
    {
      MovesOf(p, reqs, reqs', q0, q, x);
    }
  }

  lemma DecRelease(p: Pool, k: string, load: real, reqs: seq<Req>, reqs': seq<Req>, q0: Req, q: Req)
    requires DecExact(p, reqs) && ColumnsMove(p, reqs, reqs', q0, q)
    requires k in p.servers && q0.dec == Some(HoldOn(p, k, load)) && q.dec == None && q.over == q0.over
    ensures DecExact(ReleasePool(p, Some(k), load, true, false), reqs')
  {
    hide Total;
    var p' := ReleasePool(p, Some(k), load, true, false);
    forall x | x in p'.servers
      ensures p'.servers[x].activeTokens
              == Total(reqs', DecAt(x, p'.servers[x].ordinal)) - Total(reqs', OverAt(x, p'.servers[x].ordinal))
    {
      MovesOf(p, reqs, reqs', q0, q, x);
    }
  }

  /** A decoder load given back a second time is booked as over-released. */
  lemma DecOverRelease(p: Pool, k: string, load: real, reqs: seq<Req>, reqs': seq<Req>, q0: Req, q: Req)
    requires DecExact(p, reqs) && ColumnsMove(p, reqs, reqs', q0, q)
    requires k in p.servers && q0.over == None && q.over == Some(HoldOn(p, k, load)) && q.dec == q0.dec
    ensures DecExact(ReleasePool(p, Some(k), load, true, false), reqs')
  {
    hide Total;
    var p' := ReleasePool(p, Some(k), load, true, false);
    forall x | x in p'.servers
      ensures p'.servers[x].activeTokens
              == Total(reqs', DecAt(x, p'.servers[x].ordinal)) - Total(reqs', OverAt(x, p'.servers[x].ordinal))
    {
      MovesOf(p, reqs, reqs', q0, q, x);
    }
  }

  lemma DecUntouched(p: Pool, reqs: seq<Req>, reqs': seq<Req>, q0: Req, q: Req)
    requires DecExact(p, reqs) && ColumnsMove(p, reqs, reqs', q0, q) && q0.dec == q.dec && q0.over == q.over
    ensures DecExact(p, reqs')
  {
    forall x | x in p.servers
      ensures ColumnMoves(DecAt(x, p.servers[x].ordinal), reqs, reqs', q0, q)
      ensures ColumnMoves(OverAt(x, p.servers[x].ordinal), reqs, reqs', q0, q)
    {
    }
  }

  // ------------------------------------------------- every event, one by one

  /** Inv survives, and so does exact KV accounting if it held. */
  ghost predicate Kept(s: Sys, s': Sys) {
    Inv(s') && (KvExact(s.sched.prefill, s.reqs) ==> KvExact(s'.sched.prefill, s'.reqs))
  }

  lemma Facts(s: Sys, r: nat)
    requires Inv(s) && r < |s.reqs|
    ensures ReqOk(s.sched, s.reqs[r]) && s.sched.requestNum == Open(s.reqs)
    ensures KvBounded(s.sched.prefill, s.reqs) && DecExact(s.sched.decode, s.reqs)
    ensures OrdinalsBelow(s.sched.prefill, s.sched.nextOrdinal) && OrdinalsBelow(s.sched.decode, s.sched.nextOrdinal)
  {
  }

  lemma BeginKeeps(s: Sys, length: nat)
    requires Inv(s)
    ensures Kept(s, StepBegin(s, length))
  {
    hide KvBounded, KvExact, DecExact, Total, Priority;
    var s' := StepBegin(s, length);
    var (sched, picked) := BeginRequest(s.sched, PrefillScore(length));
    if picked.Some? {
      var q := s'.reqs[|s.reqs|];
      AppendMovesColumns(s.sched.prefill, s.reqs, q);
      AppendMovesColumns(s.sched.decode, s.reqs, q);
      KvCharge(s.sched.prefill, picked.value, PrefillScore(length), s.reqs, s'.reqs, NOBODY, q);
      DecUntouched(s.sched.decode, s.reqs, s'.reqs, NOBODY, q);
      ShapeKept(s, s', |s.reqs|);
    }
  }

  /** What an event that replaces request `r` by `q` owes, beyond moving loads. */
  lemma Settles(s: Sys, s': Sys, r: nat, q: Req)
    requires Inv(s) && r < |s.reqs| && s' == SetReq(s, s'.sched, r, q)
    requires MovesLoads(s.sched, s'.sched) && ReqOk(s'.sched, q)
    requires s'.sched.requestNum == Open(s'.reqs)
    requires KvBounded(s'.sched.prefill, s'.reqs) && DecExact(s'.sched.decode, s'.reqs)
    ensures Inv(s')
  {
    ShapeKept(s, s', r);
  }

  lemma Columns(s: Sys, r: nat, q: Req)
    requires r < |s.reqs|
    ensures ColumnsMove(s.sched.prefill, s.reqs, s.reqs[r := q], s.reqs[r], q)
    ensures ColumnsMove(s.sched.decode, s.reqs, s.reqs[r := q], s.reqs[r], q)
    ensures Open(s.reqs[r := q]) == Open(s.reqs) - (if Unfinished(s.reqs[r]) then 1 else 0) + (if Unfinished(q) then 1 else 0)
  {
    UpdateMovesColumns(s.sched.prefill, s.reqs, r, q);
    UpdateMovesColumns(s.sched.decode, s.reqs, r, q);
  }

  /** Dropping a reservation leaves a ledger that still cannot be negative. */
  lemma DroppedKvNonNegative(s: Sys, r: nat, q: Req, a: Account)
    requires Inv(s) && r < |s.reqs| && a.KvAt? && q.kv == None
    ensures Total(s.reqs[r := q], a) >= 0.0
  {
    var reqs' := s.reqs[r := q];
    forall i | 0 <= i < |reqs'|
      ensures Weight(reqs'[i], a) >= 0.0
    {
      if i != r { assert ReqOk(s.sched, s.reqs[i]); }
    }
    TotalNonNegative(reqs', a);
  }

  lemma AbortInitialKeeps(s: Sys, r: nat)
    requires Inv(s) && r < |s.reqs| && s.reqs[r].phase.Prefilling?
    ensures Kept(s, AbortInitial(s, r))
  {
    hide Inv, KvBounded, KvExact, DecExact, ColumnsMove, Discharge;
    var q0, s' := s.reqs[r], AbortInitial(s, r);
    var q, pk, pl := s'.reqs[r], q0.phase.pk, PrefillScore(q0.phase.length);
    Facts(s, r);
    Columns(s, r, q);
    DroppedKvNonNegative(s, r, q, KvAt(pk, s.sched.prefill.servers[pk].ordinal));
    KvRelease(s.sched.prefill, pk, pl, s.reqs, s'.reqs, q0, q);
    DecUntouched(s.sched.decode, s.reqs, s'.reqs, q0, q);
    Settles(s, s', r, q);
  }

  lemma AbortReassignKeeps(s: Sys, r: nat)
    requires Inv(s) && r < |s.reqs| && s.reqs[r].phase.RePrefilling?
    ensures Kept(s, AbortReassign(s, r))
  {
    hide Inv, KvBounded, KvExact, DecExact, ColumnsMove, Discharge;
    var q0, s' := s.reqs[r], AbortReassign(s, r);
    var q, pk, pl := s'.reqs[r], q0.phase.pk, PrefillScore(q0.phase.length);
    Facts(s, r);
    Columns(s, r, q);
    DroppedKvNonNegative(s, r, q, KvAt(pk, s.sched.prefill.servers[pk].ordinal));
    KvRelease(s.sched.prefill, pk, pl, s.reqs, s'.reqs, q0, q);
    DecUntouched(s.sched.decode, s.reqs, s'.reqs, q0, q);
    Settles(s, s', r, q);
  }

  lemma DecoderPickKeeps(s: Sys, e: Event, length: nat)
    requires Inv(s) && (e.PickDecoder? || e.RePickDecoder?) && e.r < |s.reqs|
    requires var phase := s.reqs[e.r].phase;
             (e.PickDecoder? ==> phase.Prefilling?) && (e.RePickDecoder? ==> phase.RePrefilling?) && length == phase.length
    requires SchedulerSpec.PickDecoder(s.sched, DecodeScore(length)).1.Some?
    ensures Kept(s, StepRequest(s, e, s.reqs[e.r]))
  {
    hide Inv, KvBounded, KvExact, DecExact, ColumnsMove, Best, Charge;
    var q0, s' := s.reqs[e.r], StepRequest(s, e, s.reqs[e.r]);
    var q := s'.reqs[e.r];
    var (sched, picked) := SchedulerSpec.PickDecoder(s.sched, DecodeScore(length));
    Facts(s, e.r);
    Columns(s, e.r, q);
    KvUntouched(s.sched.prefill, s.reqs, s'.reqs, q0, q);
    DecCharge(s.sched.decode, picked.value, DecodeScore(length), s.reqs, s'.reqs, q0, q);
    Settles(s, s', e.r, q);
  }

  lemma FirstChunkKeeps(s: Sys, r: nat)
    requires Inv(s) && r < |s.reqs| && s.reqs[r].phase.Streaming? && !s.reqs[r].phase.kvReleased
    ensures Kept(s, Step(s, FirstChunk(r)))
  {
    hide Inv, KvBounded, KvExact, DecExact, ColumnsMove, Discharge;
    var q0, s' := s.reqs[r], Step(s, FirstChunk(r));
    var q, info := s'.reqs[r], q0.phase.info;
    Facts(s, r);
    Columns(s, r, q);
    DroppedKvNonNegative(s, r, q, KvAt(info.pk, s.sched.prefill.servers[info.pk].ordinal));
    KvRelease(s.sched.prefill, info.pk, info.pl, s.reqs, s'.reqs, q0, q);
    DecUntouched(s.sched.decode, s.reqs, s'.reqs, q0, q);
    Settles(s, s', r, q);
  }

  /** The one event that can part the prefill pressure from the ledger. */
  lemma RecomputeKeeps(s: Sys, r: nat)
    requires Inv(s) && r < |s.reqs| && s.reqs[r].phase.Streaming? && s.reqs[r].phase.kvReleased
    ensures Inv(Step(s, Recompute(r)))
  {
    hide Inv, KvBounded, KvExact, DecExact, ColumnsMove, Discharge;
    var q0, s' := s.reqs[r], Step(s, Recompute(r));
    var q, info := s'.reqs[r], q0.phase.info;
    Facts(s, r);
    Columns(s, r, q);
    KvUntouched(s.sched.prefill, s.reqs, s'.reqs, q0, q);
    KvReleaseAgain(s.sched.prefill, info.pk, info.pl, s'.reqs);
    DecUntouched(s.sched.decode, s.reqs, s'.reqs, q0, q);
    Settles(s, s', r, q);
  }

  lemma ReturnDecoderKeeps(s: Sys, r: nat)
    requires Inv(s) && r < |s.reqs| && s.reqs[r].phase.KvReturned?
    ensures Kept(s, Step(s, ReturnDecoder(r)))
  {
    hide Inv, KvBounded, KvExact, DecExact, ColumnsMove, Discharge;
    var q0, s' := s.reqs[r], Step(s, ReturnDecoder(r));
    var q, info := s'.reqs[r], q0.phase.info;
    Facts(s, r);
    Columns(s, r, q);
    KvUntouched(s.sched.prefill, s.reqs, s'.reqs, q0, q);
    DecRelease(s.sched.decode, info.dk, info.dl, s.reqs, s'.reqs, q0, q);
    Settles(s, s', r, q);
  }

  lemma ReserveKeeps(s: Sys, r: nat, length: nat)
    requires Inv(s) && r < |s.reqs| && s.reqs[r].phase.DecoderReturned?
    ensures Kept(s, Step(s, Reserve(r, length)))
  {
    hide Inv, KvBounded, KvExact, DecExact, ColumnsMove, Best, Charge;
    var q0, s' := s.reqs[r], Step(s, Reserve(r, length));
    var q := s'.reqs[r];
    var (sched, picked) := ReservePrefillKv(s.sched, PrefillScore(length));
    Facts(s, r);
    Columns(s, r, q);
    if picked.Some? {
      KvCharge(s.sched.prefill, picked.value, PrefillScore(length), s.reqs, s'.reqs, q0, q);
    } else {
      KvUntouched(s.sched.prefill, s.reqs, s'.reqs, q0, q);
    }
    DecUntouched(s.sched.decode, s.reqs, s'.reqs, q0, q);
    Settles(s, s', r, q);
  }

  predicate Finishable(s: Sys, r: nat) {
    r < |s.reqs| && (s.reqs[r].phase.Streaming? || s.reqs[r].phase.Closing?)
  }

  lemma FinishKv(s: Sys, r: nat)
    requires Inv(s) && Finishable(s, r)
    ensures var s' := Step(s, Finish(r));
            && KvBounded(s'.sched.prefill, s'.reqs)
            && (KvExact(s.sched.prefill, s.reqs) ==> KvExact(s'.sched.prefill, s'.reqs))
  {
    hide Inv, KvBounded, KvExact, DecExact, ColumnsMove, Discharge;
    var q0, s' := s.reqs[r], Step(s, Finish(r));
    var q, info := s'.reqs[r], q0.phase.info;
    Facts(s, r);
    Columns(s, r, q);
    if q0.phase.Streaming? && !q0.phase.kvReleased {
      DroppedKvNonNegative(s, r, q, KvAt(info.pk, s.sched.prefill.servers[info.pk].ordinal));
      KvRelease(s.sched.prefill, info.pk, info.pl, s.reqs, s'.reqs, q0, q);
    } else {
      KvUntouched(s.sched.prefill, s.reqs, s'.reqs, q0, q);
    }
  }

  lemma FinishDec(s: Sys, r: nat)
    requires Inv(s) && Finishable(s, r)
    ensures DecExact(Step(s, Finish(r)).sched.decode, Step(s, Finish(r)).reqs)
  {
    hide Inv, KvBounded, KvExact, DecExact, ColumnsMove, Discharge;
    var q0, s' := s.reqs[r], Step(s, Finish(r));
    var q, info := s'.reqs[r], q0.phase.info;
    Facts(s, r);
    Columns(s, r, q);
    if q0.phase.Streaming? || q0.phase.decoderHeld {
      DecRelease(s.sched.decode, info.dk, info.dl, s.reqs, s'.reqs, q0, q);
    } else {
      DecOverRelease(s.sched.decode, info.dk, info.dl, s.reqs, s'.reqs, q0, q);
    }
  }

  lemma FinishShape(s: Sys, r: nat)
    requires Inv(s) && Finishable(s, r)
    ensures var s' := Step(s, Finish(r));
            && s' == SetReq(s, s'.sched, r, s'.reqs[r]) && ReqOk(s'.sched, s'.reqs[r])
            && MovesLoads(s.sched, s'.sched) && s'.sched.requestNum == Open(s'.reqs)
  {
    hide Inv, KvBounded, KvExact, DecExact, ColumnsMove, FinishRequest, Open, ReqOk, MovesLoads, OrdinalsBelow, HoldOn;
    var q := Step(s, Finish(r)).reqs[r];
    Facts(s, r);
    FinishMovesLoads(s.sched, s.reqs[r].phase);
    FinishedIsOk(s, r);
    Columns(s, r, q);
  }

  lemma FinishedIsOk(s: Sys, r: nat)
    requires Inv(s) && Finishable(s, r)
    ensures ReqOk(Step(s, Finish(r)).sched, Step(s, Finish(r)).reqs[r])
  {
    hide Inv, KvBounded, KvExact, DecExact, FinishRequest, Open, MovesLoads, OnLive, KvIs, Weight;
    Facts(s, r);
    FinishMovesLoads(s.sched, s.reqs[r].phase);
  }

  lemma FinishMovesLoads(s: State, phase: Phase)
    requires phase.Streaming? || phase.Closing?
    ensures forall releaseKv ::
              var s' := FinishRequest(s, Some(phase.info.pk), phase.info.pl, Some(phase.info.dk), phase.info.dl, releaseKv);
              && MovesLoads(s, s') && s'.nextOrdinal == s.nextOrdinal
              && s'.requestNum == if s.requestNum > 0 then s.requestNum - 1 else 0
  {
  }

  lemma FinishKeeps(s: Sys, r: nat)
    requires Inv(s) && Finishable(s, r)
    ensures Kept(s, Step(s, Finish(r)))
  {
    hide Inv, KvBounded, KvExact, DecExact, Step, ReqOk, MovesLoads, Open;
    FinishKv(s, r);
    FinishDec(s, r);
    FinishShape(s, r);
    Settles(s, Step(s, Finish(r)), r, Step(s, Finish(r)).reqs[r]);
  }

  /** A request may stop or move on without calling the scheduler, if it still holds what its phase says. */
  lemma PhaseMoveKeeps(s: Sys, r: nat, phase: Phase)
    requires Inv(s) && r < |s.reqs| && Unfinished(s.reqs[r]) && !phase.Done?
    requires ReqOk(s.sched, s.reqs[r].(phase := phase))
    ensures Kept(s, SetReq(s, s.sched, r, s.reqs[r].(phase := phase)))
  {
    hide Inv, KvBounded, KvExact, DecExact, ColumnsMove, ReqOk;
    var q0, q := s.reqs[r], s.reqs[r].(phase := phase);
    var s' := SetReq(s, s.sched, r, q);
    Facts(s, r);
    Columns(s, r, q);
    KvUntouched(s.sched.prefill, s.reqs, s'.reqs, q0, q);
    DecUntouched(s.sched.decode, s.reqs, s'.reqs, q0, q);
    Settles(s, s', r, q);
  }

  lemma StopKeeps(s: Sys, e: Event)
    requires Inv(s) && (e.Cancel? || e.Abandon?) && e.r < |s.reqs|
    ensures Kept(s, Step(s, e))
  {
    hide Inv, KvBounded, KvExact, DecExact, Total, OrdinalsBelow, BeginRequest, ReservePrefillKv, SchedulerSpec.PickDecoder,
      ReleasePrefillKv, ReleaseDecoder, FinishRequest, PrefillScore, DecodeScore;
    Facts(s, e.r);
    match (e, s.reqs[e.r].phase)
    case (Cancel(r), Prefilling(_, _)) => PhaseMoveKeeps(s, r, Lost);
    case (Cancel(r), KvReturned(info)) => PhaseMoveKeeps(s, r, Closing(info, true));
    case (Cancel(r), DecoderReturned(info)) => PhaseMoveKeeps(s, r, Closing(info, false));
    case (Cancel(r), RePrefilling(info, _, _)) => PhaseMoveKeeps(s, r, Closing(info, false));
    case (Abandon(r), Streaming(_, _)) => PhaseMoveKeeps(s, r, Lost);
    case (Abandon(r), Closing(_, _)) => PhaseMoveKeeps(s, r, Lost);
    case _ =>
  }

  // -------------------------------------------------------- administration

  lemma {:induction false} UnusedAccountIsZero(reqs: seq<Req>, a: Account)
    requires forall r :: 0 <= r < |reqs| ==> Weight(reqs[r], a) == 0.0
    ensures Total(reqs, a) == 0.0
  {
    if reqs != [] {
      assert Weight(reqs[0], a) == 0.0;
      forall r | 0 <= r < |reqs[1..]|
        ensures Weight(reqs[1..][r], a) == 0.0
      {
        assert reqs[1..][r] == reqs[r + 1];
      }
      UnusedAccountIsZero(reqs[1..], a);
    }
  }

  /** Every server of `p'` was in `p` with that load, or is new, unloaded, under an ordinal from `n` on. */
  ghost predicate Administered(p: Pool, p': Pool, n: nat) {
    forall k :: k in p'.servers ==>
      || (k in p.servers && p'.servers[k] == p.servers[k])
      || (p'.servers[k].ordinal >= n && p'.servers[k].activeTokens == 0.0 && p'.servers[k].activeKv == 0.0)
  }

  lemma NewServersAreUnbooked(s: Sys, k: string, n: nat)
    requires Inv(s) && n >= s.sched.nextOrdinal
    ensures Total(s.reqs, KvAt(k, n)) == 0.0 && Total(s.reqs, DecAt(k, n)) == 0.0 && Total(s.reqs, OverAt(k, n)) == 0.0
  {
    forall a: Account | a == KvAt(k, n) || a == DecAt(k, n) || a == OverAt(k, n)
      ensures Total(s.reqs, a) == 0.0
    {
      forall r | 0 <= r < |s.reqs|
        ensures Weight(s.reqs[r], a) == 0.0
      {
        assert ReqOk(s.sched, s.reqs[r]);
      }
      UnusedAccountIsZero(s.reqs, a);
    }
  }

  lemma LedgersKept(s: Sys, sched: State)
    requires Inv(s)
    requires Administered(s.sched.prefill, sched.prefill, s.sched.nextOrdinal)
    requires Administered(s.sched.decode, sched.decode, s.sched.nextOrdinal)
    ensures KvBounded(sched.prefill, s.reqs) && DecExact(sched.decode, s.reqs)
    ensures KvExact(s.sched.prefill, s.reqs) ==> KvExact(sched.prefill, s.reqs)
  {
    forall k: string, n: nat | n >= s.sched.nextOrdinal
      ensures Total(s.reqs, KvAt(k, n)) == 0.0 && Total(s.reqs, DecAt(k, n)) == 0.0 && Total(s.reqs, OverAt(k, n)) == 0.0
    {
      NewServersAreUnbooked(s, k, n);
    }
  }

  lemma AdminKeeps(s: Sys, s': Sys)
    requires Inv(s) && s'.reqs == s.reqs && s'.sched.requestNum == s.sched.requestNum
    requires Administered(s.sched.prefill, s'.sched.prefill, s.sched.nextOrdinal)
    requires Administered(s.sched.decode, s'.sched.decode, s.sched.nextOrdinal)
    requires s.sched.nextOrdinal <= s'.sched.nextOrdinal
    requires OrdinalsBelow(s'.sched.prefill, s'.sched.nextOrdinal) && OrdinalsBelow(s'.sched.decode, s'.sched.nextOrdinal)
    requires Extends(s.sched, s'.sched) || s.sched.requestNum == 0
    requires ListenerOk(s')
    ensures Kept(s, s')
  {
    hide KvBounded, KvExact, DecExact, Administered, ListenerOk, OrdinalsBelow;
    LedgersKept(s, s'.sched);
    OpenMeansSomeone(s.reqs);
    forall r | 0 <= r < |s'.reqs|
      ensures ReqOk(s'.sched, s'.reqs[r])
    {
      assert ReqOk(s.sched, s.reqs[r]);
      if Extends(s.sched, s'.sched) {
        ReqOkExtends(s.sched, s'.sched, s.reqs[r]);
      }
    }
  }

  /** Queuing adds only waiting entries, of the given role, for keys not live in it. */
  lemma {:induction false} AddInstancesQueues(s: State, role: Role, addrs: seq<Address>)
    ensures var s' := AddInstances(s, role, addrs).0;
            && s' == s.(waiting := s'.waiting)
            && (forall k :: k in s'.waiting ==>
                  || (k in s.waiting && s'.waiting[k] == s.waiting[k])
                  || (s'.waiting[k].role == role && k !in s.RolePool(role).servers))
  {
    if addrs != [] {
      AddInstancesQueues(s, role, addrs[..|addrs| - 1]);
    }
  }

  lemma AddNodesKeeps(s: Sys, role: Role, addrs: seq<Address>)
    requires Inv(s)
    ensures Kept(s, Step(s, AddNodes(role, addrs)))
  {
    hide AddInstances, KvBounded, KvExact, DecExact, ReqOk;
    AddInstancesQueues(s.sched, role, addrs);
    AdminKeeps(s, Step(s, AddNodes(role, addrs)));
  }

  lemma RemoveNodesKeeps(s: Sys, role: Role, addrs: seq<Address>)
    requires Inv(s)
    ensures Kept(s, Step(s, RemoveNodes(role, addrs)))
  {
    hide Keys, KvBounded, KvExact, DecExact, ReqOk;
    AdminKeeps(s, Step(s, RemoveNodes(role, addrs)));
  }

  lemma FinalizeKeeps(s: Sys)
    requires Inv(s)
    ensures Kept(s, Step(s, ListenerFinalize))
  {
    hide KvBounded, KvExact, DecExact, ReqOk;
    AdminKeeps(s, Step(s, ListenerFinalize));
  }

  lemma SnapshotKeeps(s: Sys, order: seq<string>)
    requires Inv(s)
    ensures Kept(s, Step(s, ListenerSnapshot(order)))
  {
    hide KvBounded, KvExact, DecExact, ReqOk;
    AdminKeeps(s, Step(s, ListenerSnapshot(order)));
  }

  /** Activation adds at most one server, the unloaded one it was asked for, and takes it off the waiting list. */
  lemma ActivateAdministers(s: State, role: Role, a: Address)
    requires OrdinalsBelow(s.prefill, s.nextOrdinal) && OrdinalsBelow(s.decode, s.nextOrdinal)
    ensures var s' := Activate(s, role, a).0;
            && s'.requestNum == s.requestNum && s'.waiting == s.waiting - {a.key}
            && Administered(s.prefill, s'.prefill, s.nextOrdinal) && Administered(s.decode, s'.decode, s.nextOrdinal)
            && OrdinalsBelow(s'.prefill, s'.nextOrdinal) && OrdinalsBelow(s'.decode, s'.nextOrdinal)
            && Extends(s, s') && OnlyGains(s, s', role, a.key)
  {
  }

  /** No key but `key`, and no role but `role`, has a server that was not there before. */
  ghost predicate OnlyGains(s: State, s': State, role: Role, key: string) {
    forall other: Role, k :: k in s'.RolePool(other).servers ==> k in s.RolePool(other).servers || (other == role && k == key)
  }

  lemma WaitingKept(s: Sys, s': Sys)
    requires Inv(s) && s'.reqs == s.reqs && s'.sched == s.sched.(waiting := s'.sched.waiting) && ListenerOk(s')
    ensures Kept(s, s')
  {
    hide KvBounded, KvExact, DecExact, ReqOk, ListenerOk;
    AdminKeeps(s, s');
  }

  lemma ActivationKeeps(s: Sys)
    requires Inv(s) && s.listener.Checking? && s.listener.todo != []
    ensures forall maxRetries :: Kept(s, StepCheck(s, true, maxRetries))
  {
    hide KvBounded, KvExact, DecExact, ReqOk, OrdinalsBelow, Administered, Extends, Activate;
    var (key, w) := s.listener.todo[0];
    var s' := StepCheck(s, true, 0);
    ActivateAdministers(s.sched, w.role, Address(key, w.host, w.port));
    AdminKeeps(s, s');
    forall maxRetries
      ensures StepCheck(s, true, maxRetries) == s'
    {
    }
  }

  lemma CheckKeeps(s: Sys, reachable: bool, maxRetries: int)
    requires Inv(s)
    ensures Kept(s, Step(s, ListenerCheck(reachable, maxRetries)))
  {
    hide KvBounded, KvExact, DecExact, ReqOk, OrdinalsBelow, Activate;
    if s.listener.Checking? && s.listener.todo != [] && reachable {
      ActivationKeeps(s);
    } else {
      WaitingKept(s, Step(s, ListenerCheck(reachable, maxRetries)));
    }
  }

  // ------------------------------------------------------------- every run

  /** One step keeps the invariant; every step but a recompute keeps KV accounting exact. */
  lemma StepKeeps(s: Sys, e: Event)
    requires Inv(s)
    ensures Inv(Step(s, e))
    ensures !e.Recompute? && KvExact(s.sched.prefill, s.reqs) ==>
              KvExact(Step(s, e).sched.prefill, Step(s, e).reqs)
  {
    hide Inv, KvExact, StepBegin, StepCheck, BeginRequest, ReservePrefillKv, Activate;
    match e
    case Begin(length) => BeginKeeps(s, length);
    case AddNodes(role, addrs) => AddNodesKeeps(s, role, addrs);
    case RemoveNodes(role, addrs) => RemoveNodesKeeps(s, role, addrs);
    case ListenerSnapshot(order) => SnapshotKeeps(s, order);
    case ListenerCheck(reachable, maxRetries) => CheckKeeps(s, reachable, maxRetries);
    case ListenerFinalize => FinalizeKeeps(s);
    case _ => if e.r < |s.reqs| { RequestStepKeeps(s, e); }
  }

  lemma RequestStepKeeps(s: Sys, e: Event)
    requires Inv(s)
    requires !e.Begin? && !e.AddNodes? && !e.RemoveNodes?
    requires !e.ListenerSnapshot? && !e.ListenerCheck? && !e.ListenerFinalize?
    requires e.r < |s.reqs|
    ensures Inv(Step(s, e))
    ensures !e.Recompute? ==> Kept(s, Step(s, e))
  {
    hide Inv, KvExact, AbortInitial, AbortReassign, BeginRequest, ReservePrefillKv;
    match (e, s.reqs[e.r].phase)
    case (PrefillFailed(r), Prefilling(_, _)) => AbortInitialKeeps(s, r);
    case (PickDecoder(r, _), Prefilling(_, length)) =>
      if SchedulerSpec.PickDecoder(s.sched, DecodeScore(length)).1.Some? {
        DecoderPickKeeps(s, e, length);
      } else {
        AbortInitialKeeps(s, r);
      }
    case (FirstChunk(r), Streaming(_, false)) => FirstChunkKeeps(s, r);
    case (Recompute(r), Streaming(_, true)) => RecomputeKeeps(s, r);
    case (ReturnDecoder(r), KvReturned(_)) => ReturnDecoderKeeps(s, r);
    case (Reserve(r, length), DecoderReturned(_)) => ReserveKeeps(s, r, length);
    case (RePrefillFailed(r), RePrefilling(_, _, _)) => AbortReassignKeeps(s, r);
    case (RePickDecoder(r, _), RePrefilling(_, _, length)) =>
      if SchedulerSpec.PickDecoder(s.sched, DecodeScore(length)).1.Some? {
        DecoderPickKeeps(s, e, length);
      } else {
        AbortReassignKeeps(s, r);
      }
    case (Finish(r), Streaming(_, _)) => FinishKeeps(s, r);
    case (Finish(r), Closing(_, _)) => FinishKeeps(s, r);
    case (Cancel(r), _) => StopKeeps(s, e);
    case (Abandon(r), _) => StopKeeps(s, e);
    case _ =>
  }
}
