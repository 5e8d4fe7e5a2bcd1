/** Value types shared by the mock API and the articles state: the article
    record, the error payload and the Option/Result wrappers. */
module ArticleTypes {

  datatype Option<+T> = None | Some(value: T)

  /** What a mock API call delivers: the value its observable emits, or the
      error it throws. */
  datatype Result<+T, +E> = Ok(value: T) | Err(error: E)

  /** An article of the list; its identity is its id. */
  datatype Article = Article(id: int, title: string)

  /** The error payload. `id` is present for delete errors only: the load
      error carries just a message. */
  datatype ApiError = ApiError(id: Option<int>, message: string)

  /** Some article of the list has the given id. */
  predicate HasId(articles: seq<Article>, id: int) {
    exists a :: a in articles && a.id == id
  }

  /** No two articles of the list share an id. */
  predicate DistinctIds(articles: seq<Article>) {
    forall i, j :: 0 <= i < j < |articles| ==> articles[i].id != articles[j].id
  }
}
