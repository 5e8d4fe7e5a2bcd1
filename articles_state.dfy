/** The articles state and the six handlers that fold events into it. Each
    handler builds a new snapshot from the old one; `Step` picks the handler
    for an event and `Run` folds a whole event stream. */
module ArticlesReducer {
  import opened ArticleTypes

  datatype Status = Loading | Success | Error | ErrorDeleting

  datatype ArticlesState = ArticlesState(articles: seq<Article>, status: Status, error: Option<ApiError>)

  /** One emission of a source the state is connected to. */
  datatype Event =
    | LoadOk(loaded: seq<Article>)
    | Retry
    | Reset
    | LoadErr(loadError: ApiError)
    | DeleteOk(deleted: Article)
    | DeleteErr(deleteError: ApiError)

  predicate IsError(e: Event) {
    e.LoadErr? || e.DeleteErr?
  }

  /** The state the service starts in. */
  const Initial: ArticlesState := ArticlesState([], Loading, None)

  /** An error status always has an error payload to show. */
  predicate ErrorConsistent(s: ArticlesState) {
    (s.status == Error || s.status == ErrorDeleting) ==> s.error.Some?
  }

  /** `xs` is `ys` with some elements dropped, the rest in their order. */
  ghost predicate IsSubsequence(xs: seq<Article>, ys: seq<Article>)
    decreases |ys|
  {
    xs == [] || (ys != [] && ((xs[0] == ys[0] && IsSubsequence(xs[1..], ys[1..])) || IsSubsequence(xs, ys[1..])))
  }

  /** `articles.filter(a => a.id !== id)`. */
  function WithoutId(articles: seq<Article>, id: int): (r: seq<Article>)
    ensures IsSubsequence(r, articles)
    ensures forall a :: multiset(r)[a] == if a.id == id then 0 else multiset(articles)[a]
    ensures forall a :: a in r <==> a in articles && a.id != id
  {
    if articles == [] then []
    else
      var rest := WithoutId(articles[1..], id);
      assert articles == [articles[0]] + articles[1..];
      if articles[0].id != id then [articles[0]] + rest else rest
  }

  /** Filtering out an id that no article has changes nothing. */
  lemma {:induction false} WithoutIdAbsent(articles: seq<Article>, id: int)
    requires !HasId(articles, id)
    ensures WithoutId(articles, id) == articles
  {
    if articles != [] {
      assert articles[0] in articles;
      assert forall a :: a in articles[1..] ==> a in articles;
      WithoutIdAbsent(articles[1..], id);
    }
  }

  /** Filtering twice by the same id is filtering once. */
  lemma WithoutIdIdempotent(articles: seq<Article>, id: int)
    ensures WithoutId(WithoutId(articles, id), id) == WithoutId(articles, id)
  {
    WithoutIdAbsent(WithoutId(articles, id), id);
  }

  /** With distinct ids, filtering out a present id removes exactly one article. */
  lemma {:induction false} WithoutIdRemovesOne(articles: seq<Article>, id: int)
    requires DistinctIds(articles) && HasId(articles, id)
    ensures |WithoutId(articles, id)| == |articles| - 1
  {
    assert articles != [];
    var tail := articles[1..];
    assert DistinctIds(tail) by {
      forall i, j | 0 <= i < j < |tail| ensures tail[i].id != tail[j].id {
        assert tail[i] == articles[i + 1] && tail[j] == articles[j + 1];
      }
    }
    if articles[0].id == id {
      assert !HasId(tail, id) by {
        forall a | a in tail ensures a.id != id {
          var k :| 0 <= k < |tail| && tail[k] == a;
          assert articles[k + 1] == a;
        }
      }
      WithoutIdAbsent(tail, id);
    } else {
      var a :| a in articles && a.id == id;
      assert a in tail by {
        assert articles == [articles[0]] + tail;
      }
      WithoutIdRemovesOne(tail, id);
    }
  }

  /** Load success: the list becomes exactly the loaded one; the previous
      error, possibly stale, stays. */
  function Loaded(s: ArticlesState, loaded: seq<Article>): (r: ArticlesState)
    ensures r.articles == loaded && r.status == Success && r.error == s.error
  {
    s.(articles := loaded, status := Success)
  }

  /** Retry and reset: back to loading, nothing else changes. */
  function Reloading(s: ArticlesState): (r: ArticlesState)
    ensures r.status == Loading && r.articles == s.articles && r.error == s.error
  {
    s.(status := Loading)
  }

  /** Load error: status error with the payload; the list stays. */
  function LoadFailed(s: ArticlesState, e: ApiError): (r: ArticlesState)
    ensures r.status == Error && r.error == Some(e) && r.articles == s.articles
  {
    s.(status := Error, error := Some(e))
  }

  /** Delete success: the articles with the deleted id leave the list, the
      others keep their order; status success, error kept. */
  function Deleted(s: ArticlesState, deleted: Article): (r: ArticlesState)
    ensures r.status == Success && r.error == s.error
    ensures IsSubsequence(r.articles, s.articles)
    ensures forall a :: a in r.articles <==> a in s.articles && a.id != deleted.id
    ensures forall a :: multiset(r.articles)[a] == if a.id == deleted.id then 0 else multiset(s.articles)[a]
  {
    s.(articles := WithoutId(s.articles, deleted.id), status := Success)
  }

  /** Delete error: status error-deleting with the payload; the list stays. */
  function DeleteFailed(s: ArticlesState, e: ApiError): (r: ArticlesState)
    ensures r.status == ErrorDeleting && r.error == Some(e) && r.articles == s.articles
  {
    s.(status := ErrorDeleting, error := Some(e))
  }

  /** The fold of one event. Only the two error handlers reach the error
      statuses and both set the payload; no handler clears it. */
  function Step(s: ArticlesState, e: Event): (r: ArticlesState)
    ensures ErrorConsistent(s) ==> ErrorConsistent(r)
    ensures s.error.Some? ==> r.error.Some?
    ensures !(e.LoadOk? || e.DeleteOk?) ==> r.articles == s.articles
    ensures !IsError(e) ==> r.error == s.error
    ensures r.status == Loading <==> e.Retry? || e.Reset?
    ensures r.status == Success <==> e.LoadOk? || e.DeleteOk?
    ensures r.status == Error <==> e.LoadErr?
    ensures r.status == ErrorDeleting <==> e.DeleteErr?
  {
    match e
    case LoadOk(loaded) => Loaded(s, loaded)
    case Retry => Reloading(s)
    case Reset => Reloading(s)
    case LoadErr(err) => LoadFailed(s, err)
    case DeleteOk(deleted) => Deleted(s, deleted)
    case DeleteErr(err) => DeleteFailed(s, err)
  }

  /** The state after folding a stream of events, in order: an empty stream
      changes nothing, the status is the one the last event's handler sets,
      and a set error stays set. */
  function Run(s: ArticlesState, events: seq<Event>): (r: ArticlesState)
    ensures events == [] ==> r == s
    ensures events != [] ==> r.status == Step(s, events[|events| - 1]).status
    ensures s.error.Some? ==> r.error.Some?
    decreases |events|
  {
    if events == [] then s else Run(Step(s, events[0]), events[1..])
  }

  /** The statuses passed through while folding a stream of events. */
  function Trace(s: ArticlesState, events: seq<Event>): seq<Status>
    decreases |events|
  {
    if events == [] then [] else [Step(s, events[0]).status] + Trace(Step(s, events[0]), events[1..])
  }

  /** Folding two streams one after the other is folding their concatenation. */
  lemma {:induction false} RunAppend(s: ArticlesState, a: seq<Event>, b: seq<Event>)
    ensures Run(s, a + b) == Run(Run(s, a), b)
    decreases |a|
  {
    if a == [] {
      assert a + b == b;
    } else {
      assert (a + b)[0] == a[0] && (a + b)[1..] == a[1..] + b;
      RunAppend(Step(s, a[0]), a[1..], b);
    }
  }

  /** Folding a one-event stream is one step. */
  lemma RunSingle(s: ArticlesState, e: Event)
    ensures Run(s, [e]) == Step(s, e)
  {
    assert [e][1..] == [];
  }

  /** Tracing a stream is tracing its first step, then the rest. */
  lemma TraceCons(s: ArticlesState, e: Event, rest: seq<Event>)
    ensures Trace(s, [e] + rest) == [Step(s, e).status] + Trace(Step(s, e), rest)
  {
    assert ([e] + rest)[1..] == rest;
  }

  /** Every fold of a consistent state is consistent. */
  lemma {:induction false} RunPreservesConsistency(s: ArticlesState, events: seq<Event>)
    requires ErrorConsistent(s)
    ensures ErrorConsistent(Run(s, events))
    decreases |events|
  {
    if events != [] {
      RunPreservesConsistency(Step(s, events[0]), events[1..]);
    }
  }

  /** Every state reachable from the initial one is consistent. */
  lemma ReachableConsistent(events: seq<Event>)
    ensures Initial.articles == [] && Initial.status == Loading && Initial.error == None
    ensures ErrorConsistent(Run(Initial, events))
  {
    RunPreservesConsistency(Initial, events);
  }

  /** A delete success for an id the list lacks leaves the list as it is. */
  lemma DeleteOkAbsent(s: ArticlesState, deleted: Article)
    requires !HasId(s.articles, deleted.id)
    ensures Step(s, DeleteOk(deleted)).articles == s.articles
  {
    WithoutIdAbsent(s.articles, deleted.id);
  }

  /** Two delete successes for the same article fold to the state one gives. */
  lemma DeleteOkIdempotent(s: ArticlesState, deleted: Article)
    ensures Step(Step(s, DeleteOk(deleted)), DeleteOk(deleted)) == Step(s, DeleteOk(deleted))
  {
    WithoutIdIdempotent(s.articles, deleted.id);
  }

  /** With distinct ids, a delete success for a present id shortens the list by one. */
  lemma DeleteOkRemovesOne(s: ArticlesState, deleted: Article)
    requires DistinctIds(s.articles) && HasId(s.articles, deleted.id)
    ensures |Step(s, DeleteOk(deleted)).articles| == |s.articles| - 1
    ensures !HasId(Step(s, DeleteOk(deleted)).articles, deleted.id)
  {
    WithoutIdRemovesOne(s.articles, deleted.id);
  }
}
