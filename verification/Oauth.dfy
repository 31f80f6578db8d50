/** The pending-consent table (backend/handlers_oauth.go): connect issues a state, the
    callback redeems it once and in time, a ticker sweeps what has expired. */
module Oauth {
  import opened Prelude

  /** Time in nanoseconds, as time.Duration counts. */
  type Time = int

  const TTL: int := 10 * 60 * 1_000_000_000

  datatype Pending = Pending(user: UserId, tag: string, created: Time)

  type Table = map<string, Pending>

  datatype Event = Connect(state: string, user: UserId, tag: string) | Callback(state: string, denied: bool) | Sweep

  datatype Timed = Timed(now: Time, event: Event)

  /** What the request leads to; Completing goes on to exchange the code. */
  datatype Verdict = NoVerdict | BadRequest | Redirected | Rejected | Denied | Completing(user: UserId, tag: string)

  predicate Expired(p: Pending, now: Time) {
    now - p.created > TTL
  }

  function After(t: Table, e: Timed): Table {
    match e.event
    case Connect(state, user, tag) => if tag == "" then t else t[state := Pending(user, tag, e.now)]
    case Callback(state, _) => t - {state}
    case Sweep => map s | s in t && !Expired(t[s], e.now) :: t[s]
  }

  function Answer(t: Table, e: Timed): Verdict {
    match e.event
    case Connect(_, _, tag) => if tag == "" then BadRequest else Redirected
    case Callback(state, denied) =>
      if state !in t || Expired(t[state], e.now) then Rejected
      else if denied then Denied
      else Completing(t[state].user, t[state].tag)
    case Sweep => NoVerdict
  }

  /** A connect with a label is redirected, and its state then redeems for exactly that user
      and label from that moment on; one without is refused and changes nothing. */
  lemma ConnectAnswer(t: Table, now: Time, state: string, user: UserId, tag: string, later: Time)
    ensures var e, c := Timed(now, Connect(state, user, tag)), Timed(later, Callback(state, false));
      && (tag == "" ==> Answer(t, e) == BadRequest && After(t, e) == t)
      && (tag != "" ==> Answer(t, e) == Redirected)
      && (tag != "" && later - now <= 600_000_000_000 ==> Answer(After(t, e), c) == Completing(user, tag))
      && (tag != "" && later - now > 600_000_000_000 ==> Answer(After(t, e), c) == Rejected)
      && (forall s :: s != state ==> (s in After(t, e) <==> s in t) && (s in t ==> After(t, e)[s] == t[s]))
  {
  }

  // ---- the table object ----

  class PendingTable {
    var table: Table

    constructor ()
      ensures table == map[]
    {
      table := map[];
    }

    method HandleConnect(now: Time, state: string, user: UserId, tag: string) returns (v: Verdict)
      modifies this
      ensures table == After(old(table), Timed(now, Connect(state, user, tag)))
      ensures v == Answer(old(table), Timed(now, Connect(state, user, tag)))
    {
      if tag == "" {
        return BadRequest;
      }
      table := table[state := Pending(user, tag, now)];
      v := Redirected;
    }

    method HandleCallback(now: Time, state: string, denied: bool) returns (v: Verdict)
      modifies this
      ensures table == After(old(table), Timed(now, Callback(state, denied)))
      ensures v == Answer(old(table), Timed(now, Callback(state, denied)))
    {
      if state !in table {
        assert table - {state} == table;
        return Rejected;
      }
      var pending := table[state];
      table := table - {state};
      if Expired(pending, now) {
        return Rejected;
      }
      v := if denied then Denied else Completing(pending.user, pending.tag);
    }

    /** Entries are visited in any order, and deleted while the loop runs. */
    method SweepExpired(now: Time)
      modifies this
      ensures table == After(old(table), Timed(now, Sweep))
    {
      var rest := table.Keys;
      while rest != {}
        invariant rest <= table.Keys <= old(table.Keys)
        invariant forall s :: s in table ==> table[s] == old(table)[s]
        invariant forall s :: s in old(table) && s !in rest ==> (s in table <==> !Expired(old(table)[s], now))
        decreases |rest|
      {
        var s :| s in rest;
        rest := rest - {s};
        if Expired(table[s], now) {
          table := table - {s};
        }
      }
    }
  }

  // ---- runs ----

  ghost predicate Monotone(es: seq<Timed>) {
    forall i, j :: 0 <= i < j < |es| ==> es[i].now <= es[j].now
  }

  /** The table before event `i`. */
  function TableAt(es: seq<Timed>, i: nat): Table
    requires i <= |es|
  {
    if i == 0 then map[] else After(TableAt(es, i - 1), es[i - 1])
  }

  function VerdictAt(es: seq<Timed>, i: nat): Verdict
    requires i < |es|
  {
    Answer(TableAt(es, i), es[i])
  }

  predicate Issues(e: Event, state: string) {
    e.Connect? && e.state == state && e.tag != ""
  }

  predicate Redeems(e: Event, state: string) {
    e.Callback? && e.state == state
  }

  /** Event `c` issued `state`, and nothing touched that state between `c` and `j`. */
  ghost predicate Open(es: seq<Timed>, c: nat, j: nat, state: string) {
    && c < j <= |es| && Issues(es[c].event, state)
    && forall m :: c < m < j ==> !Issues(es[m].event, state) && !Redeems(es[m].event, state)
  }

  lemma OpenOnce(es: seq<Timed>, c: nat, d: nat, j: nat, state: string)
    requires Open(es, c, j, state) && Open(es, d, j, state)
    ensures c == d
  {
  }

  /** Every entry of the table stems from the one connect that is still open, */
  lemma {:induction false} EntryStems(es: seq<Timed>, i: nat, state: string) returns (c: nat)
    requires i <= |es| && state in TableAt(es, i)
    ensures Open(es, c, i, state)
    ensures TableAt(es, i)[state] == Pending(es[c].event.user, es[c].event.tag, es[c].now)
    decreases i
  {
    var e := es[i - 1];
    if Issues(e.event, state) {
      c := i - 1;
    } else {
      c := EntryStems(es, i - 1, state);
    }
  }

  /** and an open connect has its entry, unless it has expired. */
  lemma {:induction false} OpenHasEntry(es: seq<Timed>, c: nat, i: nat, state: string, now: Time)
    requires Monotone(es) && Open(es, c, i, state) && now - es[c].now <= TTL
    requires forall m :: 0 <= m < i ==> es[m].now <= now
    ensures state in TableAt(es, i) && TableAt(es, i)[state] == Pending(es[c].event.user, es[c].event.tag, es[c].now)
    decreases i
  {
    var e := es[i - 1];
    if c < i - 1 {
      OpenHasEntry(es, c, i - 1, state, now);
      assert e.now <= now;
    }
  }

  /** A callback passes exactly when its state is that of an open connect issued within
      the time to live, and then it acts for that connect's user and label. */
  lemma AcceptedIff(es: seq<Timed>, j: nat, c: nat)
    requires Monotone(es) && j < |es| && es[j].event.Callback? && Open(es, c, j, es[j].event.state)
    ensures VerdictAt(es, j) ==
      if es[j].now - es[c].now > TTL then Rejected
      else if es[j].event.denied then Denied
      else Completing(es[c].event.user, es[c].event.tag)
  {
    var state := es[j].event.state;
    if es[j].now - es[c].now <= TTL {
      OpenHasEntry(es, c, j, state, es[j].now);
    } else if state in TableAt(es, j) {
      var d := EntryStems(es, j, state);
      OpenOnce(es, c, d, j, state);
    }
  }

  /** Without an open connect a callback is rejected. */
  lemma RejectedOtherwise(es: seq<Timed>, j: nat)
    requires j < |es| && es[j].event.Callback? && forall c: nat :: !Open(es, c, j, es[j].event.state)
    ensures VerdictAt(es, j) == Rejected
  {
    if es[j].event.state in TableAt(es, j) {
      var c := EntryStems(es, j, es[j].event.state);
    }
  }

  ghost predicate FreshStates(es: seq<Timed>) {
    forall i, j :: 0 <= i < j < |es| && es[i].event.Connect? && es[j].event.Connect? ==>
      es[i].event.state != es[j].event.state
  }

  /** With fresh states, no state passes twice. */
  lemma NeverTwice(es: seq<Timed>, i: nat, j: nat)
    requires FreshStates(es) && i < j < |es| && es[i].event.Callback? && es[j].event.Callback?
    requires es[i].event.state == es[j].event.state && VerdictAt(es, i) != Rejected
    ensures VerdictAt(es, j) == Rejected
  {
    var state := es[i].event.state;
    var c := EntryStems(es, i, state);
    forall d: nat ensures !Open(es, d, j, state) {
      if Open(es, d, j, state) {
        assert es[c].event.Connect? && es[d].event.Connect?;
        assert c == d;
        assert Redeems(es[i].event, state);
      }
    }
    RejectedOtherwise(es, j);
  }

  // ---- sweeping is invisible ----

  /** The verdicts on all requests, sweeps left out of the record. */
  function Verdicts(t: Table, es: seq<Timed>): seq<Verdict>
    decreases |es|
  {
    if es == [] then []
    else if es[0].event.Sweep? then Verdicts(After(t, es[0]), es[1..])
    else [Answer(t, es[0])] + Verdicts(After(t, es[0]), es[1..])
  }

  function NoSweeps(es: seq<Timed>): seq<Timed> {
    if es == [] then [] else if es[0].event.Sweep? then NoSweeps(es[1..]) else [es[0]] + NoSweeps(es[1..])
  }

  /** `t` is `u` but for entries that have expired. */
  ghost predicate SweptFrom(t: Table, u: Table, now: Time) {
    && (forall s :: s in t ==> s in u && u[s] == t[s])
    && (forall s :: s in u && s !in t ==> Expired(u[s], now))
  }

  lemma SweptStep(t: Table, u: Table, was: Time, e: Timed)
    requires SweptFrom(t, u, was) && was <= e.now
    ensures !e.event.Sweep? ==> Answer(t, e) == Answer(u, e) && SweptFrom(After(t, e), After(u, e), e.now)
    ensures e.event.Sweep? ==> SweptFrom(After(t, e), u, e.now)
  {
  }

  /** Any run and the same run without its sweeps give every request the same verdict. */
  lemma {:induction false} SweepsInvisible(t: Table, u: Table, was: Time, es: seq<Timed>)
    requires SweptFrom(t, u, was) && Monotone(es) && (es != [] ==> was <= es[0].now)
    ensures Verdicts(t, es) == Verdicts(u, NoSweeps(es))
    decreases |es|
  {
    if es != [] {
      SweptStep(t, u, was, es[0]);
      assert forall i :: 0 <= i < |es[1..]| ==> es[1..][i] == es[i + 1];
      if es[0].event.Sweep? {
        SweepsInvisible(After(t, es[0]), u, es[0].now, es[1..]);
      } else {
        SweepsInvisible(After(t, es[0]), After(u, es[0]), es[0].now, es[1..]);
        assert NoSweeps(es)[1..] == NoSweeps(es[1..]);
      }
    }
  }
}
