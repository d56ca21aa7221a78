/** The values that flow between the search service and the components. */
module Entities {
  import opened Wrappers

  /** A company's `id` as JavaScript sees it: a number, a string, or absent.
      Datatype equality on it is JavaScript's `===` on these values. */
  datatype Id = Undefined | Num(n: int) | Str(s: string)

  /** A company record returned by the search service or listed as recommended.
      `searchEverywhere` is the truthiness of its `isSearchEverywhere` field. */
  datatype Company = Company(id: Id, name: string, url: Option<string>, searchEverywhere: bool)

  /** What the search lookup (`searchCompanies`) resolves to: the parsed JSON
      body, or the empty array it returns for a blank query or on failure.
      `Scalar` stands for a number or a boolean body (no `length`, no `results`). */
  datatype Response =
    | Null
    | Scalar
    | Array(items: seq<Company>)
    | Object(results: Option<seq<Company>>)

  /** The route every company link and pick leads to. */
  const DashboardRoute: string := "/dashboard"

  /** The value `searchCompanies` returns for a blank query or any failure. */
  const FailedLookup: Response := Array([])
}
