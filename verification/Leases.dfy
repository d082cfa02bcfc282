/** Lease exclusion, independent of what is leased. Rows are taken for a limited time,
    finished by anybody, and reaped once their time is over; these are separate atomic steps
    of any number of workers under one non-decreasing clock. */
module Leases {
  import opened Text

  /** For every row, until when it is taken, if it is. */
  datatype Table<K> = Table(slots: map<K, Option<int>>, now: int)

  datatype Event<K> =
    | Add(k: K, at: int)
    | Take(k: K, at: int, expires: int)
    | Finish(k: K, at: int)
    | Reap(at: int)

  predicate Free(slot: Option<int>, t: int)
  {
    slot.None? || slot.value < t
  }

  predicate Allowed<K>(s: Table<K>, ev: Event<K>)
  {
    && s.now <= ev.at
    && (ev.Add? ==> ev.k !in s.slots)
    && (ev.Take? ==> ev.k in s.slots && Free(s.slots[ev.k], ev.at) && ev.at <= ev.expires)
    && (ev.Finish? ==> ev.k in s.slots)
  }

  function Apply<K>(s: Table<K>, ev: Event<K>): Table<K>
  {
    match ev
    case Add(k, at) => Table(s.slots[k := None], at)
    case Take(k, at, expires) => Table(s.slots[k := Some(expires)], at)
    case Finish(k, at) => Table(s.slots[k := None], at)
    case Reap(at) => Table(map k | k in s.slots :: (if s.slots[k].Some? && s.slots[k].value < at then None else s.slots[k]), at)
  }

  function Run<K>(s: Table<K>, trace: seq<Event<K>>): Table<K>
  {
    if trace == [] then s else Apply(Run(s, trace[..|trace| - 1]), trace[|trace| - 1])
  }

  predicate Possible<K>(s: Table<K>, trace: seq<Event<K>>)
  {
    forall n {:trigger Run(s, trace[..n])} :: 0 <= n < |trace| ==> Allowed(Run(s, trace[..n]), trace[n])
  }

  predicate Takes<K(==)>(ev: Event<K>, k: K) { ev.Take? && ev.k == k }

  predicate Finishes<K(==)>(ev: Event<K>, k: K) { ev.Finish? && ev.k == k }

  /** Either a lease at least as long as `expires` is recorded, or that time is over. */
  predicate Guarded<K>(s: Table<K>, k: K, expires: int)
  {
    && k in s.slots
    && (s.slots[k].Some? ==> s.slots[k].value >= expires)
    && (s.slots[k].None? ==> s.now > expires)
  }

  lemma EventsKeepGuard<K>(s: Table<K>, ev: Event<K>, k: K, expires: int)
    requires Allowed(s, ev) && Guarded(s, k, expires) && !Finishes(ev, k)
    ensures Guarded(Apply(s, ev), k, expires)
  {
  }

  lemma TakeGuards<K>(s: Table<K>, ev: Event<K>, k: K)
    requires Takes(ev, k)
    ensures Guarded(Apply(s, ev), k, ev.expires)
  {
  }

  lemma RunStep<K>(s: Table<K>, trace: seq<Event<K>>, m: nat)
    requires m < |trace|
    ensures Run(s, trace[..m + 1]) == Apply(Run(s, trace[..m]), trace[m])
  {
    assert trace[..m + 1][..m] == trace[..m];
  }

  /** A trace goes on with an allowed event. */
  lemma OneMore<K>(s: Table<K>, trace: seq<Event<K>>, ev: Event<K>)
    requires Possible(s, trace) && Allowed(Run(s, trace), ev)
    ensures Possible(s, trace + [ev]) && Run(s, trace + [ev]) == Apply(Run(s, trace), ev)
  {
    var more := trace + [ev];
    assert more[..|trace|] == trace;
    forall n | 0 <= n < |more|
      ensures Allowed(Run(s, more[..n]), more[n])
    {
      if n < |trace| {
        assert more[..n] == trace[..n] && more[n] == trace[n];
        assert Allowed(Run(s, trace[..n]), trace[n]);
      }
    }
  }

  /** From event `i`, which takes `k`, until somebody finishes it. */
  lemma {:induction false} StillTaken<K>(s: Table<K>, trace: seq<Event<K>>, k: K, i: nat, m: nat)
    requires Possible(s, trace) && i < m <= |trace| && Takes(trace[i], k)
    requires forall n :: i < n < m ==> !Finishes(trace[n], k)
    ensures Guarded(Run(s, trace[..m]), k, trace[i].expires)
  {
    var before := Run(s, trace[..m - 1]);
    RunStep(s, trace, m - 1);
    assert Allowed(before, trace[m - 1]);
    if m - 1 > i {
      StillTaken(s, trace, k, i, m - 1);
      EventsKeepGuard(before, trace[m - 1], k, trace[i].expires);
    } else {
      TakeGuards(before, trace[i], k);
    }
  }

  /** Two takings of one row with no finish between them have disjoint validity intervals: the
      later one starts strictly after the earlier one expires. */
  lemma LeasesExclude<K>(s: Table<K>, trace: seq<Event<K>>, k: K, i: nat, j: nat)
    requires Possible(s, trace) && i < j < |trace|
    requires Takes(trace[i], k) && Takes(trace[j], k)
    requires forall n :: i < n < j ==> !Finishes(trace[n], k)
    ensures trace[i].expires < trace[j].at
  {
    StillTaken(s, trace, k, i, j);
    assert Allowed(Run(s, trace[..j]), trace[j]);
  }
}
