/** The values that travel between the scraper's components. */
module SearchTypes {

  /** One scraped result, the dictionary every `parse_results` appends:
      searchEngine, baseUrl, title, link, description and ad_promo. */
  datatype Entry = Entry(
    searchEngine: string,
    baseUrl: string,
    title: string,
    link: string,
    description: string,
    adPromo: bool)

  /** The exceptions that reach the coordinator's `except Exception`. */
  datatype Error =
    | KeyError(key: string)             // `tag["href"]` on a tag without one
    | UnicodeDecodeError                // a bytes keyword that is not UTF-8
    | HttpError(status: int)            // `raise_for_status` on a 4xx/5xx answer
    | RequestError(message: string)     // any other `requests` failure
    | TimeoutError(url: string, cause: Error)  // raised by `get_with_fallback`
    | DriverError(message: string)      // the browser could not be started
    | DatabaseError(message: string)    // persistence failed
    | OtherError(message: string)

  /** The exceptions derived from `requests.exceptions.RequestException`. */
  predicate IsRequestException(e: Error) {
    e.HttpError? || e.RequestError?
  }

  /** What every strategy promises of an entry it emits: it names the
      engine and its base, and both title and link are non-empty. */
  predicate Emitted(e: Entry, engine: string, base: string) {
    e.searchEngine == engine && e.baseUrl == base && e.title != "" && e.link != ""
  }
}
