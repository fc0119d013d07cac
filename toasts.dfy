// The toast notifications of the web client: the provider's state updaters that
// append a toast and remove one by identifier, the success/error/info mapping
// to type strings, and the hook's no-op fallback outside a provider.
module Toasts {
  import opened Wrappers
  import Seqs

  /** Default time a toast stays on screen, in milliseconds. */
  const DefaultDuration: int := 4000

  /** The three calls of the toast API. */
  datatype Kind = Success | Error | Info

  /** One visible toast; `id` is drawn from the clock plus a random fraction. */
  datatype Toast = Toast(id: real, kind: string, message: string)

  /** The type string each API call passes to `push`. */
  function TypeString(k: Kind): (s: string)
    ensures k == Success <==> s == "success"
    ensures k == Error <==> s == "error"
    ensures k == Info <==> s == "info"
  {
    match k
    case Success => "success"
    case Error => "error"
    case Info => "info"
  }

  /** The duration a call asked for, `undefined` (None) meaning the default. */
  function DurationOf(d: Option<int>): (r: int)
    ensures d.None? ==> r == DefaultDuration
    ensures d.Some? ==> r == d.value
  {
    d.GetOr(DefaultDuration)
  }

  /** The updater `push` hands to `setToasts`: one toast appended at the end. */
  function Pushed(ts: seq<Toast>, kind: string, message: string, id: real): (r: seq<Toast>)
    ensures |r| == |ts| + 1 && r[..|ts|] == ts && r[|ts|] == Toast(id, kind, message)
  {
    ts + [Toast(id, kind, message)]
  }

  /** The updater the removal timer hands to `setToasts`: every toast with that id dropped. */
  function Removed(ts: seq<Toast>, id: real): (r: seq<Toast>)
    ensures forall i :: 0 <= i < |r| ==> r[i].id != id && r[i] in ts
    ensures forall i :: 0 <= i < |ts| && ts[i].id != id ==> ts[i] in r
    ensures Seqs.Subsequence(r, ts)
    ensures forall x :: multiset(r)[x] == if x.id != id then multiset(ts)[x] else 0
  {
    Seqs.FilterIsSubsequence(ts, (x: Toast) => x.id != id);
    Seqs.FilterMultiplicity(ts, (x: Toast) => x.id != id);
    Seqs.Filter(ts, (x: Toast) => x.id != id)
  }

  /** Whether the calling component sits inside a `ToastProvider`. */
  datatype Context = NoProvider | InProvider

  /** `useToast().success/error/info(message)` applied to the provider's list `ts`:
    * outside a provider the call does nothing. */
  function Notify(ctx: Context, ts: seq<Toast>, k: Kind, message: string, id: real): (r: seq<Toast>)
    ensures ctx == NoProvider ==> r == ts
    ensures ctx == InProvider ==> r == ts + [Toast(id, TypeString(k), message)]
  {
    match ctx
    case NoProvider => ts
    case InProvider => Pushed(ts, TypeString(k), message, id)
  }

  predicate Fresh(ts: seq<Toast>, id: real)
  {
    forall i :: 0 <= i < |ts| ==> ts[i].id != id
  }

  // ---- properties -------------------------------------------------------

  lemma {:induction false} RemovedFresh(ts: seq<Toast>, id: real)
    requires Fresh(ts, id)
    ensures Removed(ts, id) == ts
    decreases |ts|
  {
    if ts != [] {
      RemovedFresh(ts[1..], id);
      assert ts == [ts[0]] + ts[1..];
    }
  }

  /** Pushing a toast with a fresh identifier and then removing that identifier restores the list. */
  lemma PushThenRemove(ts: seq<Toast>, kind: string, message: string, id: real)
    requires Fresh(ts, id)
    ensures Removed(Pushed(ts, kind, message, id), id) == ts
  {
    Seqs.FilterConcat(ts, [Toast(id, kind, message)], (x: Toast) => x.id != id);
    RemovedFresh(ts, id);
  }

  /** Removing another toast keeps a pushed toast, still last. */
  lemma RemoveOtherKeeps(ts: seq<Toast>, kind: string, message: string, id: real, other: real)
    requires other != id
    ensures Removed(Pushed(ts, kind, message, id), other) == Removed(ts, other) + [Toast(id, kind, message)]
  {
    Seqs.FilterConcat(ts, [Toast(id, kind, message)], (x: Toast) => x.id != other);
  }
}
