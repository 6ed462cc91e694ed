/**
 * Connection accounting of the shutdown watcher: the `sync.WaitGroup` counter
 * that goes up by one for every connection net/http reports as new and down by
 * one for every connection it reports as closed or hijacked.
 */
module ConnAccounting {

  /** The connection states net/http reports to a server's ConnState callback. */
  datatype ConnState = StateNew | StateActive | StateIdle | StateHijacked | StateClosed

  /** A state that opens a connection: one `Add(1)` on the wait group. */
  predicate Opens(s: ConnState) {
    s == StateNew
  }

  /** A state that releases a connection: one `Done()` on the wait group. */
  predicate Releases(s: ConnState) {
    s == StateClosed || s == StateHijacked
  }

  /** A wait group's counter never goes below zero: `Done()` needs a positive counter. */
  predicate CanApply(count: nat, s: ConnState) {
    Releases(s) ==> count > 0
  }

  /** The counter after one reported transition. */
  function Apply(count: nat, s: ConnState): nat
    requires CanApply(count, s)
  {
    match s
    case StateNew => count + 1
    case StateClosed => count - 1
    case StateHijacked => count - 1
    case StateActive => count
    case StateIdle => count
  }

  /** Every release in `events`, applied from `count` in order, finds a positive counter. */
  predicate Admissible(count: nat, events: seq<ConnState>)
    decreases |events|
  {
    events == [] || (CanApply(count, events[0]) && Admissible(Apply(count, events[0]), events[1..]))
  }

  /** The counter after `events` are reported one by one, starting from `count`. */
  function Counter(count: nat, events: seq<ConnState>): nat
    requires Admissible(count, events)
    decreases |events|
  {
    if events == [] then count else Counter(Apply(count, events[0]), events[1..])
  }

  /** Connections opened minus connections closed or hijacked, in `events`. */
  function Net(events: seq<ConnState>): int {
    (multiset(events)[StateNew] as int) - multiset(events)[StateClosed] - multiset(events)[StateHijacked]
  }

  lemma NetCons(e: ConnState, events: seq<ConnState>)
    ensures Net([e] + events) == Net([e]) + Net(events)
  {
  }

  lemma NetAppend(a: seq<ConnState>, b: seq<ConnState>)
    ensures Net(a + b) == Net(a) + Net(b)
  {
    assert multiset(a + b) == multiset(a) + multiset(b);
  }

  /** Whatever the interleaving, the counter is its start plus #New minus #(Closed + Hijacked). */
  lemma {:induction false} CounterIsNet(count: nat, events: seq<ConnState>)
    requires Admissible(count, events)
    ensures Counter(count, events) == count + Net(events)
    decreases |events|
  {
    if events != [] {
      assert events == [events[0]] + events[1..];
      NetCons(events[0], events[1..]);
      CounterIsNet(Apply(count, events[0]), events[1..]);
    }
  }

  /**
   * A stream of events is admissible exactly when every release arrives while
   * the connections opened so far outnumber those released so far.
   */
  lemma {:induction false} AdmissibleIff(count: nat, events: seq<ConnState>)
    ensures Admissible(count, events) <==>
      forall k :: 0 <= k < |events| && Releases(events[k]) ==> count + Net(events[..k]) > 0
    decreases |events|
  {
    if events != [] {
      var e, rest := events[0], events[1..];
      assert events[..0] == [];
      forall k | 0 <= k < |rest|
        ensures events[..k + 1] == [e] + rest[..k]
        ensures Net(events[..k + 1]) == Net([e]) + Net(rest[..k])
      {
        assert events[..k + 1] == [e] + rest[..k];
        NetCons(e, rest[..k]);
      }
      if CanApply(count, e) {
        AdmissibleIff(Apply(count, e), rest);
        assert Apply(count, e) == count + Net([e]);
        if Admissible(count, events) {
          forall k | 0 <= k < |events| && Releases(events[k])
            ensures count + Net(events[..k]) > 0
          {
            if k > 0 {
              assert rest[k - 1] == events[k];
            }
          }
        } else {
          var j :| 0 <= j < |rest| && Releases(rest[j]) && Apply(count, e) + Net(rest[..j]) <= 0;
          assert events[j + 1] == rest[j];
        }
      }
    }
  }

  /** Consequently the counter is never observed negative along an admissible stream. */
  lemma NeverNegative(count: nat, events: seq<ConnState>, k: nat)
    requires Admissible(count, events)
    requires k <= |events|
    ensures Admissible(count, events[..k])
    ensures count + Net(events[..k]) == Counter(count, events[..k]) >= 0
  {
    PrefixAdmissible(count, events, k);
    CounterIsNet(count, events[..k]);
  }

  lemma {:induction false} PrefixAdmissible(count: nat, events: seq<ConnState>, k: nat)
    requires Admissible(count, events)
    requires k <= |events|
    ensures Admissible(count, events[..k])
    decreases k
  {
    if k > 0 {
      assert events[..k][0] == events[0];
      assert events[..k][1..] == events[1..][..k - 1];
      PrefixAdmissible(Apply(count, events[0]), events[1..], k - 1);
    }
  }
}
