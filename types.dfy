/** The article record the feed stores and renders. */
module Types {
  import opened Wrappers

  /** One image attached to an article. `kind` is the API's `type` field. */
  datatype MultimediaItem = MultimediaItem(
    url: string,
    format: string,
    height: int,
    width: int,
    kind: string,
    subtype: string,
    caption: string,
    copyright: string)

  /** A news article. `summary` is the API's `abstract` field; `publishedDate` is the publication time in milliseconds,
      local time; `url` is the article's identity for de-duplication.
      `section` is absent on articles mapped from search results. */
  datatype Article = Article(
    title: string,
    summary: string,
    publishedDate: int,
    url: string,
    multimedia: seq<MultimediaItem>,
    section: Option<string>)

  /** The sort key of both `sort` calls over articles: newest first. */
  function PublishedAt(a: Article): int {
    a.publishedDate
  }
}
