/** The decision rule shared by every token-failover loop of the core: keys are tried in
    order, a key whose call is "skipped" hands over to the next, and the first key that is
    not skipped decides the outcome. */
module Failover {
  import opened Wrappers

  /** How one key's call is judged: skip to the next key, or stop with an outcome. */
  datatype Verdict<T> = Skip | Final(outcome: T)

  /** The position of the first key that is not skipped, if any. */
  function FirstFinal<T>(vs: seq<Verdict<T>>): (r: Option<nat>)
    ensures r.Some? ==> r.value < |vs| && vs[r.value].Final?
    ensures r.Some? ==> forall j :: 0 <= j < r.value ==> vs[j].Skip?
    ensures r.None? <==> forall j :: 0 <= j < |vs| ==> vs[j].Skip?
  {
    if |vs| == 0 then None
    else if vs[0].Final? then Some(0)
    else match FirstFinal(vs[1..])
      case None => None
      case Some(i) => Some(i + 1)
  }

  /** The outcome of a failover loop: `noKeys` before any call when there is no key,
      the first non-skipped key's outcome, or `exhausted` when every key was skipped. */
  function Settle<T>(vs: seq<Verdict<T>>, noKeys: T, exhausted: T): T {
    if |vs| == 0 then noKeys
    else match FirstFinal(vs)
      case None => exhausted
      case Some(i) => vs[i].outcome
  }

  /** How many calls the loop makes. */
  function Attempts<T>(vs: seq<Verdict<T>>): (n: nat)
    ensures n <= |vs|
  {
    match FirstFinal(vs)
    case None => |vs|
    case Some(i) => i + 1
  }

  /** First working key wins: if the keys before `k` are skipped and key `k` is not,
      key `k`'s outcome is the result and exactly `k + 1` calls are made. */
  lemma SettleAt<T>(vs: seq<Verdict<T>>, k: nat, noKeys: T, exhausted: T)
    requires k < |vs| && vs[k].Final?
    requires forall j :: 0 <= j < k ==> vs[j].Skip?
    ensures Settle(vs, noKeys, exhausted) == vs[k].outcome
    ensures Attempts(vs) == k + 1
  {
  }

  /** When every key is skipped the result is `exhausted` and every key was called. */
  lemma SettleAllSkipped<T>(vs: seq<Verdict<T>>, noKeys: T, exhausted: T)
    requires |vs| > 0
    requires forall j :: 0 <= j < |vs| ==> vs[j].Skip?
    ensures Settle(vs, noKeys, exhausted) == exhausted
    ensures Attempts(vs) == |vs|
  {
  }
}
