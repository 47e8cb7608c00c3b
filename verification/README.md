# notion-journal-bot, modelled in Dafny

The journal bot is three cloud functions around one Notion database, with one page per day:

- **write-to-entry** is the only writer. It takes a JSON request. When `contentOrProperty` is
  `"content"`, it turns `(title, type, body, divider)` into Notion blocks and appends them to
  today's page. When it is `"property"`, it sets one property of that page. Any other value gets
  the reply "No page location specified" and nothing is written. When the function loads, it
  finds today's page by its Date property, or creates it.
- **append-news** fetches headlines from NewsAPI. It reshapes each article into a
  `{content, link}` line and posts the lists to write-to-entry.
- **append-prompts** posts a daily journaling prompt. On the first day of the month it posts a
  monthly reflection prompt before it.

The model uses immutable datatypes and pure functions. The block builder's `forEach` is
modelled as a method with a loop invariant. The source looks up the day's page with a single
filtered `databases.query` and takes `results[0]`. The model performs that service-side filter
as its own scan over the pages, a loop in `PageLocator.GetEntryPageIdFromDate`. These operations
are paired with a partner and a lemma that connects the two:

- Block lists and news lines are paired with readers that recover the input from them.
- The URL builder is paired with a query-string parser (`QueryString`).
- The property update is paired with Notion's merge-and-read semantics.
- Lookup-or-create is paired with its idempotence and with the uniqueness of dates.
- The `appendArticles` payload is paired with what write-to-entry does with it
  (`News.DeliverArticles`), and the prompts with their delivery (`Prompts.AppendPrompts`).

The routing and the status check are stated directly, in both directions.

Files:

- `wrappers.dfy`: `Option` and `Result`.
- `blocks.dfy`: `transformDataToBlocks`.
- `properties.dfy`: `updateProperty`.
- `page_locator.dfy`: `getEntryPageIdFromDate` and `addPage`.
- `write_to_entry.dfy`: `writeToEntry` and the page lookup done when the function loads.
- `query_string.dfy`: how `k=v&k=v` strings are written and read.
- `news.dfy`: append-news.
- `prompts.dfy`: append-prompts.

Inputs instead of effects:

- The Notion database is a `seq<Page>` in the order the service returns pages. The id Notion
  gives a new page is a parameter.
- The NewsAPI GET is a function parameter from URL to response.
- JSON decoding of a stringified body is a function parameter that can fail.
- Today's date, yesterday's date (`from`), the day of the month and the API key are plain
  inputs.

Two behaviours of the code are modelled as written:

- A property update whose type is neither "text" nor "number" still issues `pages.update`, with
  empty properties (cloudfunctions/write-to-entry/index.js:74-81).
- A request that is neither "content" nor "property" gets the plain-text reply "No page
  location specified" (cloudfunctions/write-to-entry/index.js:30-33).

## Model

| member | source | states |
|---|---|---|
| Blocks.BuildBlocks | cloudfunctions/write-to-entry/index.js:172-237 | there are 1 + \|body\| + (2 if divider) blocks; the first is a heading_1 with the title and a null link; block i+1 comes from body line i; with a divider the last two are an empty, colorless paragraph and a divider; without one the list ends with the last body block, or with the heading if the body is empty |
| Blocks.BodyBlocks | cloudfunctions/write-to-entry/index.js:190-214 | the forEach makes exactly one block per line, in the lines' order |
| Blocks.TransformDataToBlocks | cloudfunctions/write-to-entry/index.js:167-238 | a stringified body is decoded first, and a decoding failure is the only failure; otherwise the loop that pushes blocks builds exactly BuildBlocks of the decoded lines |
| Blocks.BuildThenRead | cloudfunctions/write-to-entry/index.js:172-237 | round trip: reading the built list back gives the title and every body line in order, with none dropped, duplicated or reordered |
| Blocks.ReadLineBlock | cloudfunctions/write-to-entry/index.js:194-211 | a bookmark block holds the raw line value as its url; any other block holds the line's text (the string itself, or `content`) and its link, and a bare string gets a null link |
| Blocks.BodyBlockTagged | cloudfunctions/write-to-entry/index.js:191-193 | every body block is tagged with the request's type |
| Blocks.LastBlock | cloudfunctions/write-to-entry/index.js:216-236 | the list ends with the divider block exactly when a divider was asked for; its last block's type is "divider" in exactly one more case: the flag is off, the body is non-empty and the request's type is "divider", since the type is copied unchecked |
| Properties.UpdateProperty | cloudfunctions/write-to-entry/index.js:55-77 | at most one key is set; "text" and "number" set exactly the key `property`, to a rich-text value holding `value` or to a number converted from `value`; any other type leaves the map empty |
| Properties.UpdateThenRead | cloudfunctions/write-to-entry/index.js:56-81 | after Notion applies the update, the property reads back as the value sent; no other property changes; an unsupported type changes nothing, although the update call is still made |
| PageLocator.Query | cloudfunctions/write-to-entry/index.js:126-138 | the query returns exactly the pages whose Date equals the date |
| PageLocator.GetEntryPageIdFromDate | cloudfunctions/write-to-entry/index.js:118-151 | if no page has the date, one page is created with title and Date equal to the date, and its id is returned; otherwise the first match's id is returned and nothing is created |
| PageLocator.LocateIdempotent | cloudfunctions/write-to-entry/index.js:139-147 | a second lookup for the same date returns the same id and creates nothing |
| PageLocator.LocateEffect | cloudfunctions/write-to-entry/index.js:84-111 | at most one page is appended; the existing pages are unchanged; the id returned belongs to a page with that date; queries for other dates see no change |
| PageLocator.LocateKeepsDatesUnique | cloudfunctions/write-to-entry/index.js:139-147 | a database with at most one page per date keeps that property |
| WriteToEntry.HandleRequest | cloudfunctions/write-to-entry/index.js:9-34 | "content" appends the built blocks to the page and replies with the success text; "property" issues the property update and replies with the update text; anything else issues no write and replies "No page location specified"; at most one write is issued |
| WriteToEntry.ColdStart | cloudfunctions/write-to-entry/index.js:4-7 | the page for the date is looked up or created before any request is routed; every write targets that page |
| News.TransformArticles | cloudfunctions/append-news/index.js:91-101 | output has the articles' length and order; element i has content = title of article i and link {type "url", url of article i} |
| News.TransformThenRead | cloudfunctions/append-news/index.js:91-101 | round trip: each article's title and url can be read back from the lines, in order |
| News.RequestUrlShape | cloudfunctions/append-news/index.js:57-63 | the URL is the endpoint address, then `?`, then the query string of the request's parameters |
| News.RequestUrlParameters | cloudfunctions/append-news/index.js:58-62 | parsing the query string gives `q` exactly when the query is truthy, and first when present; then always from, pageSize, sortBy, language and apiKey, in that order, with the values given |
| News.RequestUrl | cloudfunctions/append-news/index.js:57-62 | the URL starts with the endpoint address and `?`; right after it comes `q=<query>&` when the query is truthy, and `from=` follows; without a query `from=` comes straight after `?` |
| News.FetchArticles | cloudfunctions/append-news/index.js:45-73 | one GET of the request URL; articles are returned exactly when the response is a 200; any other status fails with "Error: Failed to fetch articles: " and the status text |
| News.CheckResponse | cloudfunctions/append-news/index.js:64-72 | only a 200 response yields articles; any other status fails with the status text, and so does a transport failure |
| News.AppendArticles | cloudfunctions/append-news/index.js:75-89 | the payload always has contentOrProperty "content" and divider true, and passes title, type and body through |
| News.DeliverArticles | cloudfunctions/append-news/index.js:75-89 | the endpoint appends an `appendArticles` request as the lines' blocks of the given type, closed by the empty paragraph and the divider, to the day's page, and replies with the success text |
| News.AppendNews | cloudfunctions/append-news/index.js:9-43 | nothing is posted unless the top, sports and tech fetches all succeed; "Top Headlines" then holds top, sports and tech in that order, its length being the sum; "Crypto Articles" follows exactly when the crypto fetch also succeeds; every post is a "content" request of type "bulleted_list_item" with divider true |
| News.HeadlineBlocks | cloudfunctions/append-news/index.js:31-36 | the headline list becomes \|all\| + 3 blocks; block i+1 is a bulleted item with article i's title linked to its url; top come first, then sports, then tech |
| Prompts.SelectPrompts | cloudfunctions/append-prompts/index.js:24-34 | on day "1" the monthly prompt comes first and then the daily one; on any other day only the daily one; the daily prompt is sent exactly once, and last |
| Prompts.PromptPayloads | cloudfunctions/append-prompts/index.js:4-22 | monthly: heading_3, three lines, divider, "content"; daily: paragraph, empty body, divider, "content" |
| Prompts.PromptBlocks | cloudfunctions/append-prompts/index.js:4-22 | the daily prompt becomes exactly heading, empty paragraph, divider; the monthly prompt becomes six blocks, with its three questions as heading_3 blocks |
| Prompts.AppendPrompts | cloudfunctions/append-prompts/index.js:24-44 | each prompt of the day is appended to the day's page, in order; the last append is the daily prompt's three blocks; on day "1" the first append has six blocks |

## Left out

- The Notion SDK, `fetch` and `process.env` are not modelled as code. They are foreign I/O. The
  database is a sequence of pages, the GET is a function parameter, and keys and endpoints are
  inputs.
- Service errors from Notion are not modelled: a failing query, or an `addPage` that returns
  undefined. The database always answers.
- `JSON.parse` of a stringified body is a decoder parameter that either gives the lines or fails.
  The JSON serialisation of the requests posted to write-to-entry is not modelled either.
- `Number(value)` is float parsing. A number property keeps its source text (`NumberValue`).
- `moment`/`Date` time zones and the ISO normalisation of the date (`toISOString().substr(0, 10)`)
  are not modelled. The date, yesterday's date and the day of the month are plain strings.
- The page id is cached at module load. `ColdStart` models one load followed by one request;
  reuse of that id across later requests and later days is not modelled.
- Errors inside `writeContent` and `updateProperty` cannot reach their `catch`, because those
  calls are not awaited. `HandleRequest` models the visible effect only: the success text is
  replied even when a stringified body cannot be decoded, and then nothing is appended.
- `res` is undefined inside `writeContent`. That line is only reached after an error, which the
  model does not raise, so it is left out.
- Logging is left out.
- Prompts.AppendPrompts: it assumes every post to write-to-entry is delivered. A rejected
  monthly post would skip the daily one, and that is not modelled.
- News.AppendNews: the `appendArticles` posts are not awaited, so the model lists the posts
  issued, not the posts delivered.
- News.RequestUrlParameters: it holds only for values without `&`, `#`, `%` or `+`. The source
  does not escape values, so a `&` splits a value, a `#` ends the query string, and `%XX` and `+`
  are decoded by the server: any of them changes the parameters the server reads.
