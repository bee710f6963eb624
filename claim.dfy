/**
 * The transactional claim both `make_i2c` and `make_uart` perform: take the
 * peripheral handle, then the first pin, then the second pin out of the
 * world; when a step finds its handle missing, put back what was already
 * taken (the peripheral first, then the first pin) and report the step.
 */
module Claim {
  import opened Wrappers
  import opened Ecs

  /** The claim step that found its handle missing. */
  datatype Stage = PeripheralStage | FirstPinStage | SecondPinStage

  /** The three handles one transaction claims, in claim order. */
  datatype Request = Request(periph: Resource, first: Resource, second: Resource)

  /** What a transaction reports (`None` for success) and the registry it leaves. */
  datatype Outcome = Outcome(failed: Option<Stage>, after: set<Resource>)

  function Claimed(q: Request): set<Resource>
  {
    {q.periph, q.first, q.second}
  }

  /** All three handles are present and no two of them are the same handle. */
  predicate Available(avail: set<Resource>, q: Request)
  {
    q.periph in avail && q.first in avail && q.second in avail
    && q.periph != q.first && q.periph != q.second && q.first != q.second
  }

  /**
   * The claim as the code runs it, step by step with its rollback. The
   * result is all-or-nothing: on any failure the registry is exactly the one
   * before the call, and the reported step is the first of peripheral,
   * first pin, second pin that could not be taken.
   */
  function Transaction(avail: set<Resource>, q: Request): (o: Outcome)
    ensures o.failed == Some(PeripheralStage) <==> q.periph !in avail
    ensures o.failed == Some(FirstPinStage) <==>
      q.periph in avail && (q.first !in avail || q.first == q.periph)
    ensures o.failed == Some(SecondPinStage) <==>
      q.periph in avail && q.first in avail && q.first != q.periph
      && (q.second !in avail || q.second == q.periph || q.second == q.first)
    ensures o.failed == None <==> Available(avail, q)
    ensures o.failed.Some? ==> o.after == avail
    ensures o.failed.None? ==> o.after == avail - Claimed(q)
  {
    if q.periph !in avail then Outcome(Some(PeripheralStage), avail)
    else
      var held := avail - {q.periph};
      if q.first !in held then Outcome(Some(FirstPinStage), held + {q.periph})
      else
        var held' := held - {q.first};
        if q.second !in held' then
          // the peripheral goes back first, then the first pin
          Outcome(Some(SecondPinStage), held' + {q.periph} + {q.first})
        else Outcome(None, held' - {q.second})
  }

  /**
   * A step that fails ends the claim: the handles of the later steps are
   * never examined, so changing them changes nothing in the outcome.
   */
  lemma LaterStepsNotExamined(avail: set<Resource>, q: Request, first: Resource, second: Resource)
    ensures q.periph !in avail ==>
      Transaction(avail, q.(first := first, second := second)) == Transaction(avail, q)
    ensures Transaction(avail, q).failed == Some(FirstPinStage) ==>
      Transaction(avail, q.(second := second)) == Transaction(avail, q)
  {
  }

  /** Retrying a failed claim fails the same way and changes nothing. */
  lemma RetryAfterFailure(avail: set<Resource>, q: Request)
    requires Transaction(avail, q).failed.Some?
    ensures Transaction(Transaction(avail, q).after, q) == Transaction(avail, q)
  {
  }

  /**
   * After a successful claim, every further claim of the same peripheral
   * fails at the peripheral step and leaves the registry as it is.
   */
  lemma RepeatAfterSuccess(avail: set<Resource>, q: Request, q': Request)
    requires Transaction(avail, q).failed.None?
    requires q'.periph == q.periph
    ensures var after := Transaction(avail, q).after;
      Transaction(after, q') == Outcome(Some(PeripheralStage), after)
  {
  }

  /** A claim of disjoint handles neither helps nor hinders another claim. */
  lemma Independence(avail: set<Resource>, q: Request, q': Request)
    requires Claimed(q) !! Claimed(q')
    ensures Transaction(Transaction(avail, q).after, q').failed == Transaction(avail, q').failed
  {
  }

  // ---- Ownership: no handle is held by two owners ----

  /** The registry and the handles each successful claim owns, in claim order. */
  datatype Ledger = Ledger(avail: set<Resource>, owners: seq<set<Resource>>)

  function Union(owners: seq<set<Resource>>): set<Resource>
  {
    if owners == [] then {} else Union(owners[..|owners| - 1]) + owners[|owners| - 1]
  }

  /**
   * Every handle of the universe is either in the registry or owned by
   * exactly one owner, never both, never two owners.
   */
  ghost predicate Exclusive(universe: set<Resource>, l: Ledger)
  {
    && l.avail + Union(l.owners) == universe
    && (forall i :: 0 <= i < |l.owners| ==> l.avail !! l.owners[i])
    && (forall i, j :: 0 <= i < j < |l.owners| ==> l.owners[i] !! l.owners[j])
  }

  /** One claim: on success its three handles gain an owner (the bus). */
  function Step(l: Ledger, q: Request): Ledger
  {
    var o := Transaction(l.avail, q);
    Ledger(o.after, if o.failed.None? then l.owners + [Claimed(q)] else l.owners)
  }

  /** A start-up sequence of claims. */
  function Run(l: Ledger, qs: seq<Request>): Ledger
    decreases |qs|
  {
    if qs == [] then l else Run(Step(l, qs[0]), qs[1..])
  }

  lemma UnionMember(owners: seq<set<Resource>>, r: Resource)
    ensures r in Union(owners) <==> exists i :: 0 <= i < |owners| && r in owners[i]
    decreases |owners|
  {
    if owners != [] {
      var n := |owners| - 1;
      UnionMember(owners[..n], r);
      if r in Union(owners[..n]) {
        var i :| 0 <= i < n && r in owners[..n][i];
        assert r in owners[i];
      }
      forall i | 0 <= i < n && r in owners[i]
        ensures r in Union(owners[..n])
      {
        assert owners[..n][i] == owners[i];
      }
    }
  }

  lemma {:induction false} StepKeepsExclusive(universe: set<Resource>, l: Ledger, q: Request)
    requires Exclusive(universe, l)
    ensures Exclusive(universe, Step(l, q))
  {
    var o := Transaction(l.avail, q);
    if o.failed.None? {
      var owners := l.owners + [Claimed(q)];
      assert owners[..|owners| - 1] == l.owners;
      assert Union(owners) == Union(l.owners) + Claimed(q);
      forall i | 0 <= i < |l.owners|
        ensures Claimed(q) !! l.owners[i]
      {
        assert Claimed(q) <= l.avail;
      }
    }
  }

  /**
   * Whatever sequence of claims start-up makes, every handle stays either
   * free or owned by exactly one successful claim.
   */
  lemma {:induction false} RunKeepsExclusive(universe: set<Resource>, l: Ledger, qs: seq<Request>)
    requires Exclusive(universe, l)
    ensures Exclusive(universe, Run(l, qs))
    decreases |qs|
  {
    if qs != [] {
      StepKeepsExclusive(universe, l, qs[0]);
      RunKeepsExclusive(universe, Step(l, qs[0]), qs[1..]);
    }
  }

  /** In an exclusive ledger a claimed handle has exactly one owner. */
  lemma OwnedByExactlyOne(universe: set<Resource>, l: Ledger, r: Resource)
    requires Exclusive(universe, l)
    requires r in universe && r !in l.avail
    ensures exists i :: 0 <= i < |l.owners| && r in l.owners[i] &&
                        forall j :: 0 <= j < |l.owners| && j != i ==> r !in l.owners[j]
  {
    UnionMember(l.owners, r);
    var i :| 0 <= i < |l.owners| && r in l.owners[i];
    forall j | 0 <= j < |l.owners| && j != i
      ensures r !in l.owners[j]
    {
      if j < i {
        assert l.owners[j] !! l.owners[i];
      } else {
        assert l.owners[i] !! l.owners[j];
      }
    }
  }

  /** Starting from the populated registry with no owners. */
  lemma {:induction false} StartUpIsExclusive(registry: set<Resource>, qs: seq<Request>)
    ensures Exclusive(registry, Run(Ledger(registry, []), qs))
  {
    RunKeepsExclusive(registry, Ledger(registry, []), qs);
  }
}
