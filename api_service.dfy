/** The mock store behind the articles page. The stored list is passed in as
    `store` and every operation is a function of it, so no operation can change
    it: a deletion shows up only in the articles state. The simulated 20%
    failure (`Math.random() < 0.2`) is the parameter `fail`, true when that
    draw fires. */
module ApiService {
  import opened ArticleTypes

  /** The message every mock error carries. */
  const BadRequest: string := "Error 400 | Bad request"

  /** The ten stored articles. */
  const Fixture: seq<Article> := [
    Article(1, "Getting Started with Angular: A Beginner's Guide"),
    Article(2, "Angular Components: Building Blocks of Web Apps"),
    Article(3, "Angular Services and Dependency Injection Explained"),
    Article(4, "Routing in Angular: Navigating Through Your App"),
    Article(5, "Angular Directives: Enhancing HTML with Power"),
    Article(6, "Angular Forms: From Basics to Advanced Techniques"),
    Article(7, "Testing Angular Applications: Best Practices and Tools"),
    Article(8, "State Management in Angular: A Comprehensive Guide"),
    Article(9, "Angular and RESTful APIs: Making HTTP Requests"),
    Article(10, "Angular Best Practices: Writing Clean and Maintainable Code")
  ]

  /** The lookup `articles.find(a => a.id === id)`: the first stored article
      with that id, if any. */
  function FindById(store: seq<Article>, id: int): (r: Option<Article>)
    ensures r.Some? <==> HasId(store, id)
    ensures r.Some? ==> r.value in store && r.value.id == id
  {
    if store == [] then None
    else if store[0].id == id then Some(store[0])
    else
      assert forall a :: a in store ==> a == store[0] || a in store[1..];
      FindById(store[1..], id)
  }

  /** The lookup returns the first article with the id, not just any. */
  lemma {:induction false} FindByIdIsFirst(store: seq<Article>, id: int, k: nat)
    requires k < |store| && store[k].id == id
    requires forall j :: 0 <= j < k ==> store[j].id != id
    ensures FindById(store, id) == Some(store[k])
  {
    if k > 0 {
      FindByIdIsFirst(store[1..], id, k - 1);
    }
  }

  /** `getArticles`: the whole stored list, or the load error, which has a
      message and no id. */
  function GetArticles(store: seq<Article>, fail: bool): (r: Result<seq<Article>, ApiError>)
    ensures r.Ok? <==> !fail
    ensures r.Ok? ==> r.value == store
    ensures r.Err? ==> r.error.id.None? && r.error.message == BadRequest
  {
    if fail then Err(ApiError(None, BadRequest)) else Ok(store)
  }

  /** `deleteArticle(id)`: an absent id fails whatever the draw; a present id
      yields the stored article unless the draw fires. Every error carries the
      requested id. */
  function DeleteArticle(store: seq<Article>, id: int, fail: bool): (r: Result<Article, ApiError>)
    ensures !HasId(store, id) ==> r.Err?
    ensures r.Ok? <==> HasId(store, id) && !fail
    ensures r.Ok? ==> r.value in store && r.value.id == id
    ensures r.Ok? ==> Some(r.value) == FindById(store, id)
    ensures r.Err? ==> r.error.id == Some(id) && r.error.message == BadRequest
  {
    var error := ApiError(Some(id), BadRequest);
    match FindById(store, id)
    case Some(article) => if fail then Err(error) else Ok(article)
    case None => Err(error)
  }

  /** A successful delete yields the first stored article with the id, not
      just any. */
  lemma DeleteArticleFirst(store: seq<Article>, id: int, k: nat)
    requires k < |store| && store[k].id == id
    requires forall j :: 0 <= j < k ==> store[j].id != id
    ensures DeleteArticle(store, id, false) == Ok(store[k])
  {
    FindByIdIsFirst(store, id, k);
  }

  /** The fixture has ids 1..10 in order, so they are pairwise distinct. */
  lemma FixtureIds()
    ensures |Fixture| == 10
    ensures forall k :: 0 <= k < |Fixture| ==> Fixture[k].id == k + 1
    ensures DistinctIds(Fixture)
  {
  }

  /** Deleting a fixture id without a failure draw yields that fixture entry. */
  lemma DeleteFromFixture(id: int)
    requires 1 <= id <= 10
    ensures DeleteArticle(Fixture, id, false) == Ok(Fixture[id - 1])
  {
    FixtureIds();
    DeleteArticleFirst(Fixture, id, id - 1);
  }
}
