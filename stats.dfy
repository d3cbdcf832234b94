/**
 * The subscription statistics: how many records there are, how many use
 * each email, how many distinct emails there are, and the oldest record.
 */
module Stats {
  import opened Wrappers
  import opened JsObject
  import opened Subscriptions

  datatype Stats = Stats(
    totalSubscriptions: nat,
    uniqueEmails: nat,
    emailBreakdown: Obj<nat>,
    oldestSubscription: Option<Subscription>)

  /** The number of records that use email `e`. */
  function Count(subs: seq<Subscription>, e: string): nat
  {
    if subs == [] then 0
    else Count(subs[..|subs| - 1], e) + (if subs[|subs| - 1].email == e then 1 else 0)
  }

  /** The distinct emails among the records. */
  function EmailSet(subs: seq<Subscription>): set<string>
  {
    if subs == [] then {} else EmailSet(subs[..|subs| - 1]) + {subs[|subs| - 1].email}
  }

  /** An email is among the records' emails exactly when some record uses it. */
  lemma {:induction false} EmailSetIndex(subs: seq<Subscription>, e: string)
    ensures e in EmailSet(subs) <==> exists i :: 0 <= i < |subs| && subs[i].email == e
  {
    if subs != [] {
      var prefix := subs[..|subs| - 1];
      EmailSetIndex(prefix, e);
      if e in EmailSet(prefix) {
        var i :| 0 <= i < |prefix| && prefix[i].email == e;
        assert subs[i].email == e;
      }
      if exists i :: 0 <= i < |subs| && subs[i].email == e {
        var i :| 0 <= i < |subs| && subs[i].email == e;
        if i < |prefix| { assert prefix[i].email == e; }
      }
    }
  }

  /**
   * The per-email counts after counting every record, one at a time, in
   * order: the keys are exactly the records' emails.
   */
  function Tally(subs: seq<Subscription>): (r: Obj<nat>)
    ensures KeySet(r) == EmailSet(subs)
  {
    if subs == [] then []
    else
      var counts := Tally(subs[..|subs| - 1]);
      var e := subs[|subs| - 1].email;
      Put(counts, e, Get(counts, e).GetOr(0) + 1)
  }

  /** The counts add up to the number of records. */
  lemma {:induction false} TallySum(subs: seq<Subscription>)
    ensures SumValues(Tally(subs)) == |subs|
  {
    if subs != [] {
      var prefix := subs[..|subs| - 1];
      var e := subs[|subs| - 1].email;
      var counts := Tally(prefix);
      var n := Get(counts, e).GetOr(0) + 1;
      assert Tally(subs) == Put(counts, e, n);
      TallySum(prefix);
      SumPut(counts, e, n);
      assert SumValues(Put(counts, e, n)) == |prefix| + 1;
    }
  }

  /** Each email is counted exactly as often as records use it, and absent emails are not keys. */
  lemma {:induction false} TallyCount(subs: seq<Subscription>, e: string)
    ensures Get(Tally(subs), e) == if Count(subs, e) == 0 then None else Some(Count(subs, e))
  {
    if subs != [] {
      var prefix := subs[..|subs| - 1];
      var last := subs[|subs| - 1].email;
      var counts := Tally(prefix);
      var n := Get(counts, last).GetOr(0) + 1;
      assert Tally(subs) == Put(counts, last, n);
      TallyCount(prefix, e);
      GetPut(counts, last, n, e);
      if e == last {
        assert n == Count(prefix, e) + 1;
        assert Count(subs, e) == n;
        assert Get(Tally(subs), e) == Some(n);
      } else {
        assert Count(subs, e) == Count(prefix, e);
        assert Get(Tally(subs), e) == Get(counts, e);
      }
    }
  }

  /** The sum of the values of an object. */
  function SumValues(d: seq<Entry<nat>>): nat
  {
    if d == [] then 0 else d[0].1 + SumValues(d[1..])
  }

  /** Overwriting a value changes the sum by the difference. */
  lemma {:induction false} SumPut(d: Obj<nat>, k: string, v: nat)
    ensures SumValues(Put(d, k, v)) + Get(d, k).GetOr(0) == SumValues(d) + v
  {
    if d != [] && d[0].0 != k {
      SumPut(d[1..], k, v);
    } else if d != [] {
      assert Get(d[1..], k).None?;
      assert (Put(d, k, v))[1..] == d[1..];
    }
  }

  /** There are no more distinct emails than records. */
  lemma {:induction false} UniqueEmailsBound(subs: seq<Subscription>)
    ensures |EmailSet(subs)| <= |subs|
  {
    if subs != [] {
      UniqueEmailsBound(subs[..|subs| - 1]);
    }
  }

  /** The reducer: the current record replaces the oldest so far only when strictly older. */
  function Older(oldest: Subscription, current: Subscription): (r: Subscription)
    ensures r == oldest || r == current
    ensures r.subscribedAt <= oldest.subscribedAt && r.subscribedAt <= current.subscribedAt
    ensures oldest.subscribedAt <= current.subscribedAt ==> r == oldest
  {
    if current.subscribedAt < oldest.subscribedAt then current else oldest
  }

  /**
   * `rest.reduce(Older, oldest)`, left to right: one of the records seen,
   * no later than any of them.
   */
  function Reduce(oldest: Subscription, rest: seq<Subscription>): (r: Subscription)
    ensures r == oldest || r in rest
    ensures r.subscribedAt <= oldest.subscribedAt
    ensures forall i :: 0 <= i < |rest| ==> r.subscribedAt <= rest[i].subscribedAt
    decreases |rest|
  {
    if rest == [] then oldest else Reduce(Older(oldest, rest[0]), rest[1..])
  }

  /**
   * The oldest record: the reduce started from the first record, or none for
   * no records. There is one exactly when there are records, and it is the
   * first record whose timestamp is no later than any other.
   */
  function Oldest(subs: seq<Subscription>): (r: Option<Subscription>)
    ensures r.None? <==> subs == []
    ensures r.Some? ==> exists i :: 0 <= i < |subs| && subs[i] == r.value && EarliestMinimum(subs, |subs|, i)
  {
    if |subs| > 0 then
      ReduceFindsEarliest(subs, 1, 0);
      Some(Reduce(subs[0], subs[1..]))
    else None
  }

  /**
   * Index `i` holds the earliest timestamp among the first `n` records, and
   * every record before it is strictly later (so it is the first such record).
   */
  ghost predicate EarliestMinimum(subs: seq<Subscription>, n: nat, i: nat)
    requires i < n <= |subs|
  {
    && (forall j :: 0 <= j < n ==> subs[i].subscribedAt <= subs[j].subscribedAt)
    && (forall j :: 0 <= j < i ==> subs[i].subscribedAt < subs[j].subscribedAt)
  }

  /** One step of the reduce keeps the accumulated record the first earliest one seen so far. */
  lemma EarliestStep(subs: seq<Subscription>, n: nat, b: nat)
    requires b < n < |subs| && EarliestMinimum(subs, n, b)
    ensures var next := if subs[n].subscribedAt < subs[b].subscribedAt then n else b;
            EarliestMinimum(subs, n + 1, next) && Older(subs[b], subs[n]) == subs[next]
  {
  }

  lemma ReduceUnfold(oldest: Subscription, subs: seq<Subscription>, n: nat)
    requires n < |subs|
    ensures Reduce(oldest, subs[n..]) == Reduce(Older(oldest, subs[n]), subs[n + 1..])
  {
    assert subs[n..][0] == subs[n] && subs[n..][1..] == subs[n + 1..];
  }

  lemma {:induction false} ReduceFindsEarliest(subs: seq<Subscription>, n: nat, b: nat)
    requires b < n <= |subs| && EarliestMinimum(subs, n, b)
    ensures exists i :: 0 <= i < |subs| && EarliestMinimum(subs, |subs|, i) && Reduce(subs[b], subs[n..]) == subs[i]
    decreases |subs| - n
  {
    if n < |subs| {
      var next := if subs[n].subscribedAt < subs[b].subscribedAt then n else b;
      EarliestStep(subs, n, b);
      ReduceUnfold(subs[b], subs, n);
      ReduceFindsEarliest(subs, n + 1, next);
      var i :| 0 <= i < |subs| && EarliestMinimum(subs, |subs|, i) && Reduce(subs[next], subs[n + 1..]) == subs[i];
      assert Reduce(subs[b], subs[n..]) == subs[i];
    } else {
      assert subs[n..] == [];
      assert EarliestMinimum(subs, |subs|, b);
    }
  }

  /** Counting one more record: the loop step of `getSubscriptionStats`. */
  lemma TallySnoc(subs: seq<Subscription>, i: nat)
    requires i < |subs|
    ensures var counts := Tally(subs[..i]);
            Tally(subs[..i + 1]) == Put(counts, subs[i].email, Get(counts, subs[i].email).GetOr(0) + 1)
  {
    var s := subs[..i + 1];
    assert s[..|s| - 1] == subs[..i];
    assert s[|s| - 1] == subs[i];
  }

  /** `getSubscriptionStats` over the records in iteration order. */
  method SubscriptionStats(subs: seq<Subscription>) returns (st: Stats)
    ensures st.totalSubscriptions == |subs|
    ensures st.emailBreakdown == Tally(subs)
    ensures forall e :: Get(st.emailBreakdown, e) == if Count(subs, e) == 0 then None else Some(Count(subs, e))
    ensures SumValues(st.emailBreakdown) == st.totalSubscriptions
    ensures st.uniqueEmails == |EmailSet(subs)| <= st.totalSubscriptions
    ensures st.oldestSubscription == Oldest(subs)
    ensures st.oldestSubscription.None? <==> subs == []
    ensures st.oldestSubscription.Some? ==>
              exists i :: 0 <= i < |subs| && subs[i] == st.oldestSubscription.value && EarliestMinimum(subs, |subs|, i)
  {
    var counts: Obj<nat> := [];
    for i := 0 to |subs|
      invariant counts == Tally(subs[..i])
    {
      var e := subs[i].email;
      TallySnoc(subs, i);
      counts := Put(counts, e, Get(counts, e).GetOr(0) + 1);
    }
    assert subs[..|subs|] == subs;
    forall e ensures Get(counts, e) == if Count(subs, e) == 0 then None else Some(Count(subs, e)) {
      TallyCount(subs, e);
    }
    KeyCount(counts);
    TallySum(subs);
    UniqueEmailsBound(subs);
    st := Stats(|subs|, |counts|, counts, Oldest(subs));
  }
}
