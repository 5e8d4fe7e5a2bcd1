/** The articles service: the current state snapshot, the event stream each
    API pipeline feeds into it, and the retry loop those pipelines run.

    A pipeline makes one API call per attempt. A failed attempt emits its error
    event and then waits for the retry signal, which is itself folded into the
    state (status back to loading) before the next attempt starts. The first
    successful attempt emits its value and ends the pipeline. The outcome of
    each attempt's failure draw is given as a finite sequence `outcomes`. */
module ArticlesPage {
  import opened ArticleTypes
  import opened ApiService
  import opened ArticlesReducer

  /** Which API call a pipeline retries. */
  datatype Request = Load | Delete(id: int)

  /** The error event a failed attempt of the request emits. */
  function ErrorEvent(req: Request): (e: Event)
    ensures IsError(e) && (e.LoadErr? <==> req.Load?)
    ensures req.Load? ==> e.loadError.id.None? && e.loadError.message == BadRequest
    ensures req.Delete? ==> e.deleteError.id == Some(req.id) && e.deleteError.message == BadRequest
  {
    match req
    case Load => LoadErr(ApiError(None, BadRequest))
    case Delete(id) => DeleteErr(ApiError(Some(id), BadRequest))
  }

  /** Some attempt of the request can succeed: it is a load, or a delete of a
      stored id. */
  predicate CanSucceed(store: seq<Article>, req: Request) {
    req.Load? || HasId(store, req.id)
  }

  /** An attempt fails when the failure draw fires or the request cannot
      succeed at all. */
  predicate Fails(store: seq<Article>, req: Request, fail: bool) {
    fail || !CanSucceed(store, req)
  }

  /** The event one attempt emits into the state. */
  function Attempt(store: seq<Article>, req: Request, fail: bool): (e: Event)
    ensures IsError(e) <==> Fails(store, req, fail)
    ensures IsError(e) ==> e == ErrorEvent(req)
    ensures req.Load? && !IsError(e) ==> e == LoadOk(store)
    ensures req.Delete? && !IsError(e) ==> e.DeleteOk? && e.deleted in store && e.deleted.id == req.id
    ensures req.Delete? && !IsError(e) ==> e == DeleteOk(FindById(store, req.id).value)
  {
    match req
    case Load =>
      (match GetArticles(store, fail)
       case Ok(articles) => LoadOk(articles)
       case Err(error) => LoadErr(error))
    case Delete(id) =>
      (match DeleteArticle(store, id, fail)
       case Ok(article) => DeleteOk(article)
       case Err(error) => DeleteErr(error))
  }

  /** What attempt `i` emits: the retry signal that released it, unless it is
      the first, then its own event. */
  function Emitted(i: nat, e: Event): seq<Event> {
    (if i > 0 then [Retry] else []) + [e]
  }

  /** The events a retrying pipeline emits from attempt `i` on, one attempt per
      outcome, stopping at the first success. The stream is empty only when no
      outcome is left. */
  function RetryFrom(store: seq<Article>, req: Request, outcomes: seq<bool>, i: nat): (events: seq<Event>)
    requires i <= |outcomes|
    ensures events == [] <==> i == |outcomes|
    ensures events != [] ==> events[0] == if i > 0 then Retry else Attempt(store, req, outcomes[i])
    decreases |outcomes| - i
  {
    if i == |outcomes| then []
    else
      var e := Attempt(store, req, outcomes[i]);
      Emitted(i, e) + (if IsError(e) then RetryFrom(store, req, outcomes, i + 1) else [])
  }

  /** One attempt's events, then whatever the later attempts emit. */
  lemma RetryFromStep(store: seq<Article>, req: Request, outcomes: seq<bool>, i: nat, before: seq<Event>)
    requires i < |outcomes|
    ensures var e := Attempt(store, req, outcomes[i]);
      before + RetryFrom(store, req, outcomes, i)
      == (before + Emitted(i, e)) + (if IsError(e) then RetryFrom(store, req, outcomes, i + 1) else [])
  {
  }

  /** The number of API calls a pipeline makes from attempt `i` on: one per
      outcome up to and including the first attempt that does not fail. */
  function AttemptsFrom(store: seq<Article>, req: Request, outcomes: seq<bool>, i: nat): (n: nat)
    requires i <= |outcomes|
    ensures n <= |outcomes| - i
    ensures i < |outcomes| ==> 0 < n
    decreases |outcomes| - i
  {
    if i == |outcomes| then 0
    else 1 + (if Fails(store, req, outcomes[i]) then AttemptsFrom(store, req, outcomes, i + 1) else 0)
  }

  /** The whole event stream of a retrying pipeline. */
  function RetryEvents(store: seq<Article>, req: Request, outcomes: seq<bool>): (events: seq<Event>)
    ensures events == [] <==> outcomes == []
    ensures outcomes != [] ==> events[0] == Attempt(store, req, outcomes[0])
  {
    RetryFrom(store, req, outcomes, 0)
  }

  /** `n` failed draws. */
  function Failures(n: nat): (outcomes: seq<bool>)
    ensures |outcomes| == n && forall k :: 0 <= k < n ==> outcomes[k]
  {
    seq(n, _ => true)
  }

  /** `n` rounds of an error followed by the retry signal. */
  function Rounds(error: Event, n: nat): seq<Event> {
    if n == 0 then [] else [error, Retry] + Rounds(error, n - 1)
  }

  /** The event of the attempt that ends the pipeline from attempt `i` on:
      the first success, or the last outcome's failure. */
  function StopEvent(store: seq<Article>, req: Request, outcomes: seq<bool>, i: nat): Event
    requires i < |outcomes|
    decreases |outcomes| - i
  {
    if i + 1 < |outcomes| && Fails(store, req, outcomes[i]) then StopEvent(store, req, outcomes, i + 1)
    else Attempt(store, req, outcomes[i])
  }

  /** The stopping event is that of the last API call, and it is a success
      whenever outcomes are left over. */
  lemma {:induction false} StopEventIsLastCall(store: seq<Article>, req: Request, outcomes: seq<bool>, i: nat)
    requires i < |outcomes|
    ensures var n := AttemptsFrom(store, req, outcomes, i);
      StopEvent(store, req, outcomes, i) == Attempt(store, req, outcomes[i + n - 1])
      && (i + n < |outcomes| ==> !IsError(StopEvent(store, req, outcomes, i)))
    decreases |outcomes| - i
  {
    if i + 1 < |outcomes| && Fails(store, req, outcomes[i]) {
      StopEventIsLastCall(store, req, outcomes, i + 1);
    }
  }

  /** The attempt that stops the pipeline: a success or the last outcome. */
  lemma RetryFromStopped(store: seq<Article>, req: Request, outcomes: seq<bool>, i: nat)
    requires i < |outcomes| && !(i + 1 < |outcomes| && Fails(store, req, outcomes[i]))
    ensures RetryFrom(store, req, outcomes, i) == Emitted(i, StopEvent(store, req, outcomes, i))
    ensures AttemptsFrom(store, req, outcomes, i) == 1
  {
  }

  /** The shape of the events from a later attempt `i` on: the retry signal,
      one round of the request's error and the retry signal per failed call,
      then the stopping event. */
  predicate RoundsFrom(store: seq<Article>, req: Request, outcomes: seq<bool>, i: nat)
    requires i < |outcomes|
  {
    RetryFrom(store, req, outcomes, i)
    == [Retry] + Rounds(ErrorEvent(req), AttemptsFrom(store, req, outcomes, i) - 1) + [StopEvent(store, req, outcomes, i)]
  }

  /** A failed attempt adds one round in front of the later attempts' shape. */
  lemma RoundsFromFailed(store: seq<Article>, req: Request, outcomes: seq<bool>, i: nat)
    requires 0 < i && i + 1 < |outcomes| && Fails(store, req, outcomes[i])
    requires RoundsFrom(store, req, outcomes, i + 1)
    ensures RoundsFrom(store, req, outcomes, i)
  {
  }

  /** A stopping attempt is its own shape. */
  lemma RoundsFromStopped(store: seq<Article>, req: Request, outcomes: seq<bool>, i: nat)
    requires 0 < i < |outcomes| && !(i + 1 < |outcomes| && Fails(store, req, outcomes[i]))
    ensures RoundsFrom(store, req, outcomes, i)
  {
  }

  /** From every later attempt on, the events have that shape. */
  lemma {:induction false} RetryFromRounds(store: seq<Article>, req: Request, outcomes: seq<bool>, i: nat)
    requires 0 < i < |outcomes|
    ensures RoundsFrom(store, req, outcomes, i)
    decreases |outcomes| - i
  {
    if i + 1 < |outcomes| && Fails(store, req, outcomes[i]) {
      RetryFromRounds(store, req, outcomes, i + 1);
      RoundsFromFailed(store, req, outcomes, i);
    } else {
      RoundsFromStopped(store, req, outcomes, i);
    }
  }

  /** A failed first attempt puts its error in front of the later attempts' shape. */
  lemma RetryEventsFailed(store: seq<Article>, req: Request, outcomes: seq<bool>)
    requires 1 < |outcomes| && Fails(store, req, outcomes[0])
    requires RoundsFrom(store, req, outcomes, 1)
    ensures RetryEvents(store, req, outcomes)
         == Rounds(ErrorEvent(req), AttemptsFrom(store, req, outcomes, 0) - 1) + [StopEvent(store, req, outcomes, 0)]
  {
  }

  /** A pipeline making `n` API calls emits `n - 1` rounds of the request's
      error followed by the retry signal, then the event of its last call,
      which succeeded unless the outcomes ran out: every error comes before
      the retry it triggers. */
  lemma RetryEventsRounds(store: seq<Article>, req: Request, outcomes: seq<bool>)
    requires outcomes != []
    ensures var n := AttemptsFrom(store, req, outcomes, 0);
      var last := Attempt(store, req, outcomes[n - 1]);
      RetryEvents(store, req, outcomes) == Rounds(ErrorEvent(req), n - 1) + [last]
      && (n < |outcomes| ==> !IsError(last))
  {
    StopEventIsLastCall(store, req, outcomes, 0);
    if 1 < |outcomes| && Fails(store, req, outcomes[0]) {
      RetryFromRounds(store, req, outcomes, 1);
      RetryEventsFailed(store, req, outcomes);
    } else {
      RetryFromStopped(store, req, outcomes, 0);
      assert Rounds(ErrorEvent(req), 0) == [];
    }
  }

  /** `n` failures then a success take exactly `n + 1` API calls. */
  lemma {:induction false} AttemptsConverge(store: seq<Article>, req: Request, n: nat, i: nat)
    requires CanSucceed(store, req) && i <= n
    ensures AttemptsFrom(store, req, Failures(n) + [false], i) == n + 1 - i
    decreases n - i
  {
    var outcomes := Failures(n) + [false];
    if i < n {
      assert outcomes[i];
      AttemptsConverge(store, req, n, i + 1);
    } else {
      assert !outcomes[i];
    }
  }

  /** A request that cannot succeed uses up every outcome. */
  lemma {:induction false} AttemptsExhaust(store: seq<Article>, req: Request, outcomes: seq<bool>, i: nat)
    requires !CanSucceed(store, req) && i <= |outcomes|
    ensures AttemptsFrom(store, req, outcomes, i) == |outcomes| - i
    decreases |outcomes| - i
  {
    if i < |outcomes| {
      AttemptsExhaust(store, req, outcomes, i + 1);
    }
  }

  /** `n` failures then a success: exactly `n` error events, each followed by
      its retry signal, then the success event. */
  lemma RetryConverges(store: seq<Article>, req: Request, n: nat)
    requires CanSucceed(store, req)
    ensures RetryEvents(store, req, Failures(n) + [false]) == Rounds(ErrorEvent(req), n) + [Attempt(store, req, false)]
  {
    var outcomes := Failures(n) + [false];
    AttemptsConverge(store, req, n, 0);
    RetryEventsRounds(store, req, outcomes);
    assert outcomes[n] == false;
  }

  /** Folding the events of one attempt. */
  lemma RunEmitted(s: ArticlesState, i: nat, e: Event)
    ensures Run(s, Emitted(i, e)) == Step(if i > 0 then Step(s, Retry) else s, e)
  {
    if i > 0 {
      assert Emitted(i, e)[1..] == [e];
      RunSingle(Step(s, Retry), e);
    } else {
      RunSingle(s, e);
    }
  }

  /** Rounds of failures keep the list and leave the state loading, with the
      error payload set. */
  lemma {:induction false} RunRounds(s: ArticlesState, req: Request, n: nat)
    ensures var r := Run(s, Rounds(ErrorEvent(req), n));
      r.articles == s.articles
      && (n == 0 ==> r == s)
      && (n > 0 ==> r.status == Loading && r.error.Some? && Step(s, ErrorEvent(req)).error == r.error)
    decreases n
  {
    if n > 0 {
      var err := ErrorEvent(req);
      var s1 := Step(Step(s, err), Retry);
      assert Rounds(err, n) == [err, Retry] + Rounds(err, n - 1);
      RunAppend(s, [err, Retry], Rounds(err, n - 1));
      assert Run(s, [err, Retry]) == s1 by {
        assert [err, Retry][1..] == [Retry];
        RunSingle(Step(s, err), Retry);
      }
      RunRounds(s1, req, n - 1);
    }
  }

  /** A load that fails `n` times and then succeeds ends with exactly the
      stored list and status success; after a failure the load error stays in
      the state, not cleared by the success. */
  lemma LoadConverges(s: ArticlesState, store: seq<Article>, n: nat)
    ensures var r := Run(s, RetryEvents(store, Load, Failures(n) + [false]));
      r.articles == store && r.status == Success
      && r.error == if n == 0 then s.error else Some(ApiError(None, BadRequest))
  {
    RetryConverges(store, Load, n);
    RunAppend(s, Rounds(ErrorEvent(Load), n), [LoadOk(store)]);
    RunSingle(Run(s, Rounds(ErrorEvent(Load), n)), LoadOk(store));
    RunRounds(s, Load, n);
  }

  /** A delete of a stored id that fails `n` times and then succeeds removes
      that id from the list, whatever `n` is; with distinct ids the list loses
      exactly one article. */
  lemma DeleteConverges(s: ArticlesState, store: seq<Article>, id: int, n: nat)
    requires HasId(store, id)
    ensures var r := Run(s, RetryEvents(store, Delete(id), Failures(n) + [false]));
      r.articles == WithoutId(s.articles, id) && r.status == Success
      && (DistinctIds(s.articles) && HasId(s.articles, id) ==> |r.articles| == |s.articles| - 1)
  {
    var ok := Attempt(store, Delete(id), false);
    RetryConverges(store, Delete(id), n);
    RunAppend(s, Rounds(ErrorEvent(Delete(id)), n), [ok]);
    RunSingle(Run(s, Rounds(ErrorEvent(Delete(id)), n)), ok);
    RunRounds(s, Delete(id), n);
    if DistinctIds(s.articles) && HasId(s.articles, id) {
      WithoutIdRemovesOne(s.articles, id);
    }
  }

  /** From any attempt on, a delete of an id the store lacks never succeeds. */
  lemma {:induction false} DeleteAbsentFailsFrom(s: ArticlesState, store: seq<Article>, id: int, outcomes: seq<bool>, i: nat)
    requires !HasId(store, id) && i < |outcomes|
    ensures var r := Run(s, RetryFrom(store, Delete(id), outcomes, i));
      r.articles == s.articles && r.status == ErrorDeleting && r.error == Some(ApiError(Some(id), BadRequest))
    decreases |outcomes| - i
  {
    var err := ErrorEvent(Delete(id));
    assert Attempt(store, Delete(id), outcomes[i]) == err;
    var rest := RetryFrom(store, Delete(id), outcomes, i + 1);
    RunAppend(s, Emitted(i, err), rest);
    RunEmitted(s, i, err);
    if i + 1 < |outcomes| {
      DeleteAbsentFailsFrom(Run(s, Emitted(i, err)), store, id, outcomes, i + 1);
    }
  }

  /** A delete of an id the store lacks never succeeds: the list is untouched
      and the state ends in error-deleting with an error carrying that id. */
  lemma DeleteAbsentFails(s: ArticlesState, store: seq<Article>, id: int, outcomes: seq<bool>)
    requires !HasId(store, id) && outcomes != []
    ensures var r := Run(s, RetryEvents(store, Delete(id), outcomes));
      r.articles == s.articles && r.status == ErrorDeleting && r.error == Some(ApiError(Some(id), BadRequest))
  {
    DeleteAbsentFailsFrom(s, store, id, outcomes, 0);
  }

  /** A load failing twice and then succeeding passes through loading, error,
      loading, error, loading, success, and ends with the stored list. */
  lemma InitialLoadScenario(store: seq<Article>)
    ensures var events := RetryEvents(store, Load, [true, true, false]);
      [Initial.status] + Trace(Initial, events) == [Loading, Error, Loading, Error, Loading, Success]
      && Run(Initial, events).articles == store
  {
    TwoFailuresStream(store);
    TwoFailuresTrace(store);
    assert Failures(2) + [false] == [true, true, false];
    LoadConverges(Initial, store, 2);
  }

  /** The stream of a load failing twice, written out. */
  lemma TwoFailuresStream(store: seq<Article>)
    ensures var err := ErrorEvent(Load);
      RetryEvents(store, Load, [true, true, false]) == [err] + ([Retry] + ([err] + ([Retry] + [LoadOk(store)])))
  {
    var err := ErrorEvent(Load);
    RetryConverges(store, Load, 2);
    assert Failures(2) + [false] == [true, true, false];
    assert Rounds(err, 2) + [LoadOk(store)] == [err] + ([Retry] + ([err] + ([Retry] + [LoadOk(store)])));
  }

  /** The statuses that stream passes through from the initial state. */
  lemma TwoFailuresTrace(store: seq<Article>)
    ensures var err := ErrorEvent(Load);
      Trace(Initial, [err] + ([Retry] + ([err] + ([Retry] + [LoadOk(store)]))))
      == [Error, Loading, Error, Loading, Success]
  {
    var err := ErrorEvent(Load);
    var ok := LoadOk(store);
    var s1 := Step(Initial, err);
    var s2 := Step(s1, Retry);
    var s3 := Step(s2, err);
    var s4 := Step(s3, Retry);
    TraceCons(s4, ok, []);
    TraceCons(s3, Retry, [ok]);
    TraceCons(s2, err, [Retry] + [ok]);
    TraceCons(s1, Retry, [err] + ([Retry] + [ok]));
    TraceCons(Initial, err, [Retry] + ([err] + ([Retry] + [ok])));
  }


  /** From the initial state, a load and then a delete of a stored id, each
      succeeding at the first attempt, leave the stored list less that id. */
  lemma LoadThenDelete(store: seq<Article>, id: int)
    requires DistinctIds(store) && HasId(store, id)
    ensures var loaded := Run(Initial, RetryEvents(store, Load, [false]));
      var r := Run(loaded, RetryEvents(store, Delete(id), [false]));
      |r.articles| == |store| - 1 && !HasId(r.articles, id) && r.status == Success
  {
    assert Failures(0) + [false] == [false];
    LoadConverges(Initial, store, 0);
    var loaded := Run(Initial, RetryEvents(store, Load, [false]));
    DeleteConverges(loaded, store, id, 0);
    assert !HasId(WithoutId(store, id), id);
  }

  /** With the fixture loaded, deleting id 3 at the first attempt leaves nine
      articles, none with id 3, and status success. */
  lemma DeleteThreeScenario()
    ensures var loaded := Run(Initial, RetryEvents(Fixture, Load, [false]));
      var r := Run(loaded, RetryEvents(Fixture, Delete(3), [false]));
      |r.articles| == 9 && !HasId(r.articles, 3) && r.status == Success
  {
    FixtureIds();
    assert Fixture[2] in Fixture;
    LoadThenDelete(Fixture, 3);
  }

  /** The service: the current state snapshot, overwritten on every event. */
  class ArticlesService {
    var state: ArticlesState

    ghost predicate Valid()
      reads this
    {
      ErrorConsistent(state)
    }

    constructor ()
      ensures Valid() && state == Initial
    {
      state := Initial;
    }

    /** Fold one event into the state. */
    method Apply(e: Event)
      requires Valid()
      modifies this
      ensures Valid()
      ensures state == Step(old(state), e)
    {
      state := Step(state, e);
    }

    /** Attempt `i` of a pipeline: unless it is the first, the retry signal
        that releases it is folded in; then the API call is made and its event
        folded in. */
    method TryOnce(store: seq<Article>, req: Request, fail: bool, i: nat) returns (e: Event)
      requires Valid()
      modifies this
      ensures Valid()
      ensures e == Attempt(store, req, fail)
      ensures state == Run(old(state), Emitted(i, e))
    {
      ghost var s0 := state;
      if i > 0 {
        Apply(Retry);
      }
      e := Attempt(store, req, fail);
      Apply(e);
      if i > 0 {
        RunAppend(s0, [Retry], [e]);
        RunSingle(s0, Retry);
      } else {
        assert Emitted(i, e) == [e];
      }
      RunSingle(Run(s0, if i > 0 then [Retry] else []), e);
    }

    /** One retrying pipeline (`getArticlesWithRetry` for a load,
        `deleteArticleWithRetry$` for a delete): attempt, and after each
        failure take the retry signal and attempt again, until an attempt
        succeeds or the outcomes run out. Returns the number of API calls
        made. */
    method RunWithRetry(store: seq<Article>, req: Request, outcomes: seq<bool>) returns (attempts: nat)
      requires Valid()
      modifies this
      ensures Valid()
      ensures state == Run(old(state), RetryEvents(store, req, outcomes))
      ensures attempts <= |outcomes| && (outcomes != [] ==> 0 < attempts)
      ensures attempts == AttemptsFrom(store, req, outcomes, 0)
    {
      ghost var s0 := state;
      ghost var all := RetryEvents(store, req, outcomes);
      ghost var done: seq<Event> := [];
      attempts := 0;
      var stopped := false;
      while attempts < |outcomes| && !stopped
        invariant attempts <= |outcomes|
        invariant Valid()
        invariant state == Run(s0, done)
        invariant !stopped ==> done + RetryFrom(store, req, outcomes, attempts) == all
        invariant !stopped ==> attempts + AttemptsFrom(store, req, outcomes, attempts) == AttemptsFrom(store, req, outcomes, 0)
        invariant stopped ==> done == all && attempts == AttemptsFrom(store, req, outcomes, 0)
      {
        var e := TryOnce(store, req, outcomes[attempts], attempts);
        RetryFromStep(store, req, outcomes, attempts, done);
        RunAppend(s0, done, Emitted(attempts, e));
        done := done + Emitted(attempts, e);
        attempts := attempts + 1;
        stopped := !IsError(e);
      }
      if !stopped {
        assert done + [] == done;
      }
    }

    /** The reset signal: back to loading, then a fresh load pipeline. */
    method ResetArticles(store: seq<Article>, outcomes: seq<bool>) returns (attempts: nat)
      requires Valid()
      modifies this
      ensures Valid()
      ensures state == Run(old(state), [Reset] + RetryEvents(store, Load, outcomes))
      ensures attempts <= |outcomes| && (outcomes != [] ==> 0 < attempts)
    {
      ghost var s0 := state;
      Apply(Reset);
      attempts := RunWithRetry(store, Load, outcomes);
      RunAppend(s0, [Reset], RetryEvents(store, Load, outcomes));
      RunSingle(s0, Reset);
    }
  }
}
