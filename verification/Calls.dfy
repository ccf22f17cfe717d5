/** The call bookkeeping of include/rest_rpc/rpc_client.hpp as pure functions: two id spaces, the
    map of promises and the map of callbacks, and the completion of a reply. Each call the
    program makes has a serial number, which stands for its promise or callback object. */
module Calls {
  import opened Bytes

  /** The timer and callback object of one callback call. */
  datatype CallT = CallT(call: nat, hasTimeout: bool)

  datatype CallMaps = CallMaps(
    fuId: uint64, callbackId: uint64,
    futures: map<uint64, nat>, callbacks: map<uint64, CallT>)

  const NO_CALLS := CallMaps(0, 0, map[], map[])

  datatype ErrorCode = NoError | TimedOut | ReadError | Aborted | NotConnected

  /** A promise set or a callback invoked. */
  datatype Completion = Completion(call: nat, ec: ErrorCode, data: seq<byte>)

  // Ids.

  function Increment(x: uint64): uint64 {
    (x + 1) % TWO_64
  }

  /** `x |= 1 << 63`. */
  function SetTopBit(x: uint64): uint64 {
    if x < TWO_63 then x + TWO_63 else x
  }

  /** `x >> 63`, as a truth value. */
  predicate TopBit(x: uint64) {
    x / TWO_63 != 0
  }

  function NextFutureId(fuId: uint64): uint64 {
    Increment(fuId)
  }

  function NextCallbackId(callbackId: uint64): uint64 {
    SetTopBit(Increment(callbackId))
  }

  /** The counters after `k` calls of each kind. */
  function FutureIdAfter(k: nat): uint64 {
    if k == 0 then 0 else NextFutureId(FutureIdAfter(k - 1))
  }

  function CallbackIdAfter(k: nat): uint64 {
    if k == 0 then 0 else NextCallbackId(CallbackIdAfter(k - 1))
  }

  lemma {:induction false} FutureIdFormula(k: nat)
    ensures FutureIdAfter(k) == k % TWO_64
  {
    if k > 0 {
      FutureIdFormula(k - 1);
      NextModulo(k - 1);
    }
  }

  lemma NextModulo(k: nat)
    ensures (k % TWO_64 + 1) % TWO_64 == (k + 1) % TWO_64
  {
  }

  /** The k-th callback id is 2^63 + (k mod 2^63), across the wrap-around of the counter. */
  lemma {:induction false} CallbackIdFormula(k: nat)
    ensures k > 0 ==> CallbackIdAfter(k) == TWO_63 + k % TWO_63
  {
    if k > 1 {
      CallbackIdFormula(k - 1);
      NextLowBits(k - 1);
    }
  }

  lemma NextLowBits(k: nat)
    ensures (k + 1) % TWO_63 == if k % TWO_63 == TWO_63 - 1 then 0 else k % TWO_63 + 1
  {
  }

  /** Any 2^63 consecutive callback ids are distinct. */
  lemma CallbackIdsDistinct(i: nat, j: nat)
    requires 0 < i < j < i + TWO_63
    ensures CallbackIdAfter(i) != CallbackIdAfter(j)
  {
    CallbackIdFormula(i);
    CallbackIdFormula(j);
    CloseResiduesDiffer(i, j);
  }

  lemma CloseResiduesDiffer(i: nat, j: nat)
    requires i < j < i + TWO_63
    ensures i % TWO_63 != j % TWO_63
  {
    var a, b := i / TWO_63, j / TWO_63;
    assert i == TWO_63 * a + i % TWO_63 && j == TWO_63 * b + j % TWO_63;
    assert j - i == TWO_63 * (b - a) + (j % TWO_63 - i % TWO_63);
  }

  /** The `>> 63` test: every callback id passes it; the k-th future id fails it exactly when k
      mod 2^64 is below 2^63. */
  lemma TopBitSelects(k: nat)
    ensures k > 0 ==> TopBit(CallbackIdAfter(k))
    ensures !TopBit(FutureIdAfter(k)) <==> k % TWO_64 < TWO_63
  {
    CallbackIdFormula(k);
    FutureIdFormula(k);
  }

  // The maps.

  /** `unordered_map::emplace`: an existing entry stays. */
  function Emplace<V>(m: map<uint64, V>, id: uint64, v: V): map<uint64, V> {
    if id in m then m else m[id := v]
  }

  function AddFuture(c: CallMaps, call: nat): CallMaps {
    var id := NextFutureId(c.fuId);
    c.(fuId := id, futures := Emplace(c.futures, id, call))
  }

  function AddCallback(c: CallMaps, call: nat): CallMaps {
    var id := NextCallbackId(c.callbackId);
    c.(callbackId := id, callbacks := Emplace(c.callbacks, id, CallT(call, false)))
  }

  function TimerFires(c: CallMaps, id: uint64): CallMaps
    requires id in c.callbacks
  {
    c.(callbacks := c.callbacks[id := c.callbacks[id].(hasTimeout := true)])
  }

  /** The outcome of `call_back`. */
  datatype Completed = Completes(calls: CallMaps, completion: Completion) | AssertionFails

  function CallBack(c: CallMaps, id: uint64, ec: ErrorCode, data: seq<byte>): Completed {
    if TopBit(id) then
      if id !in c.callbacks then AssertionFails
      else
        var cl := c.callbacks[id];
        Completes(c.(callbacks := c.callbacks - {id}),
                  if cl.hasTimeout then Completion(cl.call, TimedOut, []) else Completion(cl.call, ec, data))
    else
      if id !in c.futures then AssertionFails
      else
        Completes(c.(futures := c.futures - {id}),
                  Completion(c.futures[id], ec, if ec == NoError then data else []))
  }

  /** `clear_cache` drops every parked call. */
  function Forget(c: CallMaps): CallMaps {
    c.(futures := map[], callbacks := map[])
  }

  /** The invocations a failing head read makes: every parked callback, in some order. */
  ghost predicate FailsAll(callbacks: map<uint64, CallT>, ids: seq<uint64>, made: seq<Completion>) {
    && (forall id :: id in callbacks <==> id in ids)
    && (forall i, j :: 0 <= i < j < |ids| ==> ids[i] != ids[j])
    && |made| == |ids|
    && forall i :: 0 <= i < |ids| ==> made[i] == Completion(callbacks[ids[i]].call, ReadError, [])
  }

  /** The ids waiting for a reply. */
  function Waiting(c: CallMaps): set<uint64> {
    c.futures.Keys + c.callbacks.Keys
  }

  /** The call waiting under an id. */
  function CallOf(c: CallMaps, id: uint64): nat
    requires id in Waiting(c)
  {
    if id in c.futures then c.futures[id] else c.callbacks[id].call
  }

  /** Promises wait under ids below 2^63 that have been given out, callbacks above. */
  ghost predicate SpacesApart(c: CallMaps) {
    && c.fuId < TWO_63
    && (forall id :: id in c.futures ==> 0 < id <= c.fuId)
    && (forall id :: id in c.callbacks ==> id >= TWO_63)
  }

  /** The timer of the call waiting under an id has fired. */
  predicate TimedOutAt(c: CallMaps, id: uint64) {
    id in c.callbacks && c.callbacks[id].hasTimeout
  }

  /** With the id spaces apart, `call_back` completes exactly the call that waits under the id,
      and its assertion fails exactly when none does. A call whose timer has fired gets the time-out
      and nothing else; any other gets the code and the data as they are, except that a promise
      with an error gets no data. */
  lemma CallBackFindsTheCall(c: CallMaps, id: uint64, ec: ErrorCode, data: seq<byte>)
    requires SpacesApart(c)
    ensures CallBack(c, id, ec, data).AssertionFails? <==> id !in Waiting(c)
    ensures id in Waiting(c) ==>
      var r := CallBack(c, id, ec, data);
      && r.completion.call == CallOf(c, id)
      && Waiting(r.calls) == Waiting(c) - {id}
      && SpacesApart(r.calls)
      && (forall i :: i in Waiting(r.calls) ==> CallOf(r.calls, i) == CallOf(c, i))
      && (r.completion.ec == NoError ==> r.completion.data == data)
      && (TimedOutAt(c, id) ==> r.completion.ec == TimedOut && r.completion.data == [])
      && (!TimedOutAt(c, id) ==> r.completion.ec == ec)
      && (!TimedOutAt(c, id) && (ec == NoError || id in c.callbacks) ==> r.completion.data == data)
      && (!TimedOutAt(c, id) && ec != NoError && id in c.futures ==> r.completion.data == [])
      && (forall i :: i != id ==> (TimedOutAt(r.calls, i) <==> TimedOutAt(c, i)))
  {
  }

  /** `d` is `c` with one more call waiting, under an id of its own. */
  ghost predicate Parks(c: CallMaps, d: CallMaps, id: uint64, call: nat) {
    && id != 0 && id !in Waiting(c) && SpacesApart(d)
    && Waiting(d) == Waiting(c) + {id} && CallOf(d, id) == call
    && (forall i :: i in Waiting(c) ==> CallOf(d, i) == CallOf(c, i))
  }

  /** With fewer than 2^63 future calls made. */
  lemma AddFutureParks(c: CallMaps, call: nat)
    requires SpacesApart(c) && NextFutureId(c.fuId) < TWO_63
    ensures Parks(c, AddFuture(c, call), NextFutureId(c.fuId), call)
  {
  }

  /** With no callback still waiting from 2^63 callback calls ago. */
  lemma AddCallbackParks(c: CallMaps, call: nat)
    requires SpacesApart(c) && NextCallbackId(c.callbackId) !in c.callbacks
    ensures Parks(c, AddCallback(c, call), NextCallbackId(c.callbackId), call)
  {
  }

  /** An id that is still in use stays with the earlier call: the later one is not parked at all. */
  lemma IdsInUseCollide(c: CallMaps, call: nat)
    ensures NextFutureId(c.fuId) in c.futures ==> AddFuture(c, call).futures == c.futures
    ensures NextCallbackId(c.callbackId) in c.callbacks ==> AddCallback(c, call).callbacks == c.callbacks
  {
  }

  /** A new call's timer has not fired. */
  lemma ParkedInTime(c: CallMaps, call: nat)
    requires NextCallbackId(c.callbackId) !in c.callbacks
    ensures !TimedOutAt(AddCallback(c, call), NextCallbackId(c.callbackId))
    ensures forall i :: i in c.callbacks ==> (TimedOutAt(AddCallback(c, call), i) <==> TimedOutAt(c, i))
  {
  }

  lemma TimerKeepsCalls(c: CallMaps, id: uint64)
    requires SpacesApart(c) && id in c.callbacks
    ensures var d := TimerFires(c, id);
      && SpacesApart(d) && Waiting(d) == Waiting(c)
      && (forall i :: TimedOutAt(d, i) <==> TimedOutAt(c, i) || i == id)
      && (forall i :: i in Waiting(c) ==> CallOf(d, i) == CallOf(c, i))
  {
  }
}
