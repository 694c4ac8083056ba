# notion-sns-poster, modelled in Dafny

notion-sns-poster cross-posts articles kept in a Notion database to Bluesky
and X (Twitter). An article is a row of the database with a title, a URL and
a `Posted` checkbox. The system reaches it by two routes:

- **The scheduler.** The `SchedulerUseCase` builds its list of posters from
  the application config. Bluesky joins only after a successful login. The
  use case then fetches the unposted articles and, for each one, posts it
  through every poster and ticks its `Posted` flag.
- **The webhook handler.** A Cloudflare Worker receives Notion's webhook. It
  acknowledges Notion's one-time verification token, checks the HMAC-SHA256
  signature of the request body, and reads its configuration. As written,
  it checks the signature under the key `undefined` rather than the
  configured token (see "## Findings"). For each
  unposted article it then asks Gemini for a summary and stores it, posts
  the article to both networks, and marks it as posted.

The model covers the decision procedures around the network calls:

- the scheduler's poster list, fan-out and marking decision (`scheduler.dfy`);
- the webhook's branch order and article loop (`webhook.dfy`);
- the constant-time signature comparison and the signature check (`notion.dfy`);
- the extraction of articles from query results, in both repositories
  (`notion_pages.dfy`, `notion.dfy`, `notion_api_repository.dfy`);
- the environment validators (`env_config.dfy`, `app_config.dfy`);
- the two post-text formatters (`sns_text.dfy`, `services_text.dfy`).

Collaborators are oracles held in a `World` value:

- Notion queries and updates;
- the social-network posters, the construction of the Bluesky agent, and the Bluesky login;
- Gemini;
- `JSON.parse`;
- HMAC-SHA256.

The two drivers, the scheduler's `execute` (`Scheduler.SchedulerUseCase`)
and the webhook handler (`Webhook.WebhookHandler`), return the log of the
calls they made as a `seq<Call>`, and so do their steps. The properties
speak about that log: which posts and marks happen, and in what order. The
single-call operations `NotionApiRepository.MarkArticleAsPosted` and
`Notion.VerifyNotionWebhookSignature` take their oracle as a parameter and
return only its result, with no log.

The scheduler chains each post with a `.then` and a `.catch`, and both of
them resolve. So `Promise.allSettled` reports the outer status `'fulfilled'`
for every poster, and the success flag reads that outer status. As a
result, every article is marked as soon as there is one poster, even when
every post failed. The log messages, by contrast, describe an
at-least-one-success rule. The model keeps both status layers:

- `OuterDecisionIgnoresOutcomes` proves the behaviour as written;
- `AllFailuresStillMarked` shows a run where every post fails and the
  article is still marked;
- `InnerDecisionIsAtLeastOneSuccess` proves that the inner tag is the one
  that records whether a post succeeded;
- `TaggedArticleCalls` is the at-least-one-success rule the log messages
  describe. `TaggedDecisionMarksIffSomePostPasses` proves it marks an
  article exactly when a post succeeded, and
  `AllFailuresMarkedUnlikeTaggedDecision` shows where it parts from the
  code. The rest of the model keeps the behaviour as written.

## Model

| member | source | states |
|---|---|---|
| Scheduler.Then | src/application/usecases/scheduler_usecase.ts:74-77 | `.then` on a resolved promise resolves with the callback's value; on a rejected one it keeps the reason |
| Scheduler.Catch | src/application/usecases/scheduler_usecase.ts:77-80 | `.catch` with a non-throwing callback always resolves: a resolved promise is unchanged, a rejection becomes the callback's value |
| Scheduler.Attempt | src/application/usecases/scheduler_usecase.ts:73-81 | each chained post has outer status fulfilled; its inner tag is `'fulfilled'` exactly when the post succeeded; it carries the poster's class name, and the rejection reason on failure |
| Scheduler.SettleAll | src/application/usecases/scheduler_usecase.ts:73-83 | the `allSettled` results hold one entry per poster, in poster order, each that poster's attempt |
| Scheduler.OuterDecisionIgnoresOutcomes | src/application/usecases/scheduler_usecase.ts:83-89 | some result has outer status `'fulfilled'` exactly when the poster list is non-empty, whatever the posts answered |
| Scheduler.InnerDecisionIsAtLeastOneSuccess | src/application/usecases/scheduler_usecase.ts:73-99 | some result carries the inner tag `'fulfilled'` exactly when at least one poster's post succeeded |
| Scheduler.AllFailuresStillMarked | src/application/usecases/scheduler_usecase.ts:77-99 | with every post rejected, the article is still posted everywhere and then marked, while no inner tag reports a success |
| Scheduler.TaggedDecisionMarksIffSomePostPasses | src/application/usecases/scheduler_usecase.ts:73-99 | if the mark followed the inner tags, an article would be marked exactly when one of its posts succeeded |
| Scheduler.AllFailuresMarkedUnlikeTaggedDecision | src/application/usecases/scheduler_usecase.ts:77-99 | with every post rejected, `execute` marks the article, while the inner-tag decision would not |
| Scheduler.NewPosters | src/application/usecases/scheduler_usecase.ts:22-42 | Bluesky is added exactly when configured and logged in; Twitter exactly when configured; Bluesky comes before Twitter |
| Scheduler.ArticleCallsWithPosters | src/application/usecases/scheduler_usecase.ts:71-101 | with a poster, one article is posted once through every poster, in poster order, then marked once |
| Scheduler.RunCallsWithPosters | src/application/usecases/scheduler_usecase.ts:71-101 | with a poster, the loop's posts are every (poster, article) pair, article by article in input order, and its marks are the article ids in input order |
| Scheduler.NoPostersNoFetch | src/application/usecases/scheduler_usecase.ts:53-58 | when initialisation does not throw and the poster list is empty, `execute` makes only the login call: no fetch, no post, no mark |
| Scheduler.FetchFailureNoPostOrMark | src/application/usecases/scheduler_usecase.ts:61-67 | when initialisation does not throw and the fetch throws, `execute` stops after it: no post and no mark |
| Scheduler.ProcessPostsAndMarksAll | src/application/usecases/scheduler_usecase.ts:61-101 | after initialisation, with a poster and a successful fetch, every article is posted through every poster and marked, in order |
| Scheduler.ExecuteMarksEveryArticle | src/application/usecases/scheduler_usecase.ts:50-104 | one `execute` whose initialisation does not throw, with a poster and a successful fetch, posts every fetched article through every poster and marks every one, in input order, whatever the posts and marks answer |
| Scheduler.AttemptAll | src/application/usecases/scheduler_usecase.ts:73-83 | the `map` over the posters makes one post per poster, in poster order, and returns the `allSettled` results |
| Scheduler.AnyFulfilled | src/application/usecases/scheduler_usecase.ts:85-89 | the `forEach` raises the flag exactly when some result has outer status `'fulfilled'` |
| Scheduler.PostAndMark | src/application/usecases/scheduler_usecase.ts:72-100 | one loop iteration posts through every poster and marks exactly when the flag is raised; a failed mark changes nothing |
| Scheduler.PostAndMarkAll | src/application/usecases/scheduler_usecase.ts:71-101 | the article loop handles every article in input order; no failure stops it |
| Scheduler.Process | src/application/usecases/scheduler_usecase.ts:55-101 | no call without a poster; otherwise the fetch, a stop when it fails, then the article loop |
| Scheduler.SchedulerUseCase.constructor | src/application/usecases/scheduler_usecase.ts:10-16 | a new use case holds the given config and an empty poster list |
| Scheduler.SchedulerUseCase.InitializeSnsPosters | src/application/usecases/scheduler_usecase.ts:18-48 | throws exactly when Bluesky is configured and its poster cannot be built, and then makes no call and leaves the list as it was; otherwise appends the new posters to the existing list, never removing one, and logs in exactly when Bluesky is configured |
| Scheduler.SchedulerUseCase.Execute | src/application/usecases/scheduler_usecase.ts:50-104 | rejects, with no call made and no poster added, exactly when the Bluesky poster cannot be built; otherwise appends the new posters (so a second `execute` doubles the list) and makes exactly the calls of initialisation followed by the processing over the grown list |
| Notion.MaskSignature | src/notion.ts:25-31 | a signature of at most 24 characters is unchanged; a longer one becomes its first 12 characters, `...` and its last 12, 27 characters in all |
| Notion.XorZeroIffEqual | src/notion.ts:40 | `a ^ b` is zero exactly when the two character codes are equal |
| Notion.OrZeroIffBothZero | src/notion.ts:40 | the bitwise or of the accumulator and a code is zero exactly when both are |
| Notion.TimingSafeEqualString | src/notion.ts:33-44 | the constant-time loop returns true exactly when the two strings are equal; different lengths give false |
| Notion.VerifyNotionWebhookSignature | src/notion.ts:46-62 | accepts exactly a header equal to `sha256=` followed by the HMAC of the body under the token; an absent or empty header, or a failing HMAC, gives false |
| Notion.SignatureBindsSecretAndBody | src/notion.ts:53-58 | a header accepted for two (secret, body) pairs has equal HMAC values for both, so a signature made with another secret is rejected unless the digests collide |
| Notion.Extracted | src/notion.ts:119-138 | a query result yields an article only if it is a `'page'` with properties, and every such page yields exactly the article its properties give, if any |
| Notion.UnpostedArticles | src/notion.ts:101-141 | no more articles than results, each with a non-empty title and URL |
| Notion.UnpostedArticlesAppend | src/notion.ts:105-139 | extraction preserves iteration order: the articles of consecutive runs of results are concatenated |
| Notion.UnpostedArticlesSound | src/notion.ts:119-138 | every returned article is the article of some result |
| Notion.UnpostedArticlesComplete | src/notion.ts:119-138 | the article of every result that yields one is returned |
| Notion.UnpostedArticlesMembership | src/notion.ts:119-138 | an article is returned exactly when some result yields it |
| Notion.GetUnpostedArticles | src/notion.ts:101-141 | the loop returns exactly the extracted articles, in iteration order |
| NotionPages.PlainTextAppend | src/notion.ts:130 | the plain text of consecutive fragment lists is their plain texts concatenated in order |
| NotionPages.PlainTextEmptyIff | src/notion.ts:128-136 | a title is empty exactly when all of its fragments are |
| NotionPages.TitleText | src/notion.ts:128-133 | the title is the fragments joined for a `'title'` or `'rich_text'` property, and `''` for any other or a missing one |
| NotionPages.UrlText | src/notion.ts:134 | a URL is read exactly from a property of type `'url'`: such a property gives its value, any other property none |
| NotionPages.ArticleOf | src/notion.ts:136-138 | a page yields an article exactly when its title and URL are non-empty; the article carries the page id, that title and that URL |
| NotionApiRepository.ExtractedArticle | src/infrastructure/persistence/notion_api_repository.ts:25-39 | a result without properties throws; otherwise it yields the same article as the webhook repository |
| NotionApiRepository.FailurePersists | src/infrastructure/persistence/notion_api_repository.ts:18-43 | once a result throws, the whole call fails with that error |
| NotionApiRepository.FailsIffPropertiesMissing | src/infrastructure/persistence/notion_api_repository.ts:25-26 | the call throws exactly when some result has no properties |
| NotionApiRepository.AgreesWithWebhookRepository | src/infrastructure/persistence/notion_api_repository.ts:18-43 | on results that are all pages with properties, it returns the same articles as the webhook repository, in order, each with its page id |
| NotionApiRepository.GetUnpostedArticles | src/infrastructure/persistence/notion_api_repository.ts:15-46 | the loop returns exactly the extracted articles in iteration order, or the error of the first result without properties |
| NotionApiRepository.MarkArticleAsPosted | src/infrastructure/persistence/notion_api_repository.ts:48-64 | sends the update that ticks `Posted` on the page and rethrows its failure unchanged |
| Webhook.ExtractVerificationToken | src/index.ts:29-36 | gives the token exactly when the body parses and `verification_token` is a string; otherwise none |
| Webhook.ConfigError | src/index.ts:59-62 | the handler's first configuration error, in the order Notion, Bluesky, X, Gemini; none exactly when all four load |
| Webhook.StoredSummary | src/index.ts:93-95 | an answer leads to one summary update, with the answer trimmed, exactly when it is a non-empty string; an error or an empty answer leads to none |
| Webhook.SummaryStep | src/index.ts:86-95 | the summary step makes at most two calls, and the first is the Gemini request with the prompt |
| Webhook.SummaryStepOnlySummarizesAndUpdates | src/index.ts:86-95 | the summary step makes only Gemini requests and summary updates, so it cannot post or mark |
| Webhook.SummaryAskedIffUrlNotBlank | src/index.ts:86 | Gemini is asked exactly when the URL has a character that is not white space |
| Webhook.SummaryStoresTrimmedAnswer | src/index.ts:89-95 | once Gemini is asked, a second call stores its answer trimmed, exactly when that answer is a non-empty string |
| Webhook.ArticleCallsProjections | src/index.ts:86-108 | one article is posted through every poster, in order, then marked once, whatever Gemini and the posters answer |
| Webhook.LoopFailurePersists | src/index.ts:85-115 | once a mark has failed, the loop ends with that error and makes no further call |
| Webhook.LoopSucceedsIffMarksPass | src/index.ts:85-110 | the loop succeeds exactly when every mark succeeds, and then it has reached every article |
| Webhook.LoopStopsAtFirstFailingMark | src/index.ts:108-115 | a failing loop stops at the first failing mark, rethrows its error, and every earlier mark succeeded |
| Webhook.LoopPostsAndMarksReached | src/index.ts:85-109 | the loop posts every article it reaches through every poster and marks each one, in input order |
| Webhook.SummaryDoesNotAffectPostingOrMarking | src/index.ts:86-98 | Gemini and the summary update change neither the posts, nor the marks, nor the outcome |
| Webhook.VerificationTokenShortCircuits | src/index.ts:42-51 | a body with a non-empty string token gets 200 before any signature check, config read or Notion call |
| Webhook.BadSignatureRejected | src/index.ts:53-57 | under the intended key, the configured token: a signature that does not verify gets 401 with no fetch, post or mark |
| Webhook.AcceptedRequestFetches | src/index.ts:53-80 | under the intended key, the configured token: a request that passes the token, signature and config checks goes on to fetch the articles |
| Webhook.FetchAndProcessMarksEveryArticle | src/index.ts:79-115 | a failed fetch is rethrown with no post or mark; no article gives 200 with no post or mark; otherwise 200 exactly when every mark succeeds, and then every article was posted to Bluesky and X and marked, in order |
| Webhook.SummarizeArticle | src/index.ts:86-100 | makes exactly the calls of the summary step for the source's prompt on the article's URL, and never fails: a rejected request or update is swallowed |
| Webhook.PostAndMark | src/index.ts:86-108 | one iteration: the summary step, one post per poster, then the mark, whose outcome it returns |
| Webhook.ProcessArticles | src/index.ts:85-110 | the loop over the articles, leaving at the first failing mark with its error |
| Webhook.WebhookHandler | src/index.ts:38-116 | the handler's result and calls follow its branches in source order: token, webhook config, signature under the configured token (the intended key), config, fetch, loop |
| Webhook.AsWrittenVerdictIgnoresToken | src/index.ts:53-57 | as written, a request without a token gets 401 exactly when the header fails the HMAC under the key `undefined`; the value of `NOTION_VERIFICATION_TOKEN` plays no part |
| Webhook.AsWrittenRejectsWhenKeylessHmacFails | src/index.ts:53-57 | as written, when the HMAC throws for the key `undefined`, every request without a token gets 401 with no fetch, post or mark |
| Webhook.AsWrittenRejectsWhatIntendedAccepts | src/index.ts:53-57 | a request signed with the configured token, under a complete configuration, is fetched for and answered 200 under the intended key, and answered 401 with no call as written |
| Js.Trim | src/index.ts:94 | a trimmed string neither starts nor ends with white space |
| Js.TrimIsInfix | src/index.ts:94 | a trimmed string is an infix of the original, and what was removed on either side is white space only |
| Js.TrimEmptyIffBlank | src/index.ts:86 | `url.trim().length > 0` holds exactly when the URL has a character that is not white space |
| EnvConfig.MissingKeys | src/config.ts:34-41 | the listed keys are exactly those whose value is missing or empty |
| EnvConfig.ProvideTwitterConfig | src/config.ts:28-46 | throws exactly when one of the four keys is missing or empty, with the missing-keys message; otherwise returns the four values unchanged |
| EnvConfig.TwitterMessageListsMissingKeys | src/config.ts:33-42 | the Twitter error lists exactly the missing keys (at least one), in declaration order, joined by `, ` |
| EnvConfig.ProvideNotionConfig | src/config.ts:48-64 | throws exactly when one of the three keys is missing or empty; otherwise returns the three values unchanged |
| EnvConfig.NotionMessageListsMissingKeys | src/config.ts:52-60 | the Notion error lists exactly the missing keys (at least one), in declaration order |
| EnvConfig.ProvideNotionWebhookConfig | src/config.ts:66-73 | throws the fixed message exactly when `NOTION_VERIFICATION_TOKEN` is missing or empty |
| EnvConfig.BlueskyService | src/config.ts:78 | the service is `BLUESKY_SERVICE` when that is set and non-empty, otherwise the default `https://bsky.social`; so it is never empty |
| EnvConfig.ProvideBlueskyConfig | src/config.ts:75-91 | throws exactly when the identifier or the password is missing or empty; returns them unchanged, with the service or its default |
| EnvConfig.BlueskyMissingKeys | src/config.ts:80-86 | only the identifier and the password can be listed as missing, in that order |
| EnvConfig.BlueskyMessages | src/config.ts:80-87 | the Bluesky error is one of three messages, naming both credentials, the identifier or the password |
| EnvConfig.BlueskyServiceNeverReported | src/config.ts:78-87 | `BLUESKY_SERVICE` never appears in the Bluesky error |
| EnvConfig.ProvideGeminiConfig | src/config.ts:93-99 | throws the fixed message exactly when `GEMINI_API_KEY` is missing or empty |
| ConfigService.LoadAppConfig | src/infrastructure/config/config_service.ts:26-63 | missing Notion keys throw before any social-network key is read, and with both Notion keys set the only error is the no-credentials message; the Bluesky and Twitter sections are present exactly when their credentials are complete, and hold the env values; the call throws exactly when neither is, so a loaded config has at least one |
| SnsText.BuildText | src/sns/utils.ts:3 | the post text is the bookmark and a space, the title verbatim, a space and the URL verbatim, with the length that adds up |
| SnsText.ParseBuildText | src/sns/utils.ts:3 | title and URL are recovered from the post text whenever the URL has no space |
| SnsText.EmptyTitleTwoSpaces | src/sns/utils.test.ts:28-37 | an empty title leaves two spaces between the bookmark and the URL |
| ServicesText.BuildText | src/infrastructure/services/utils.ts:6 | the post text starts with the title, then a newline, then ends with the URL |
| ServicesText.SplitBuildText | src/infrastructure/services/utils.ts:6 | splitting at the first newline recovers the title and the URL when the title is a single line |

## Findings

| source | as written | input that shows it | evidently intended | confidence | as-written member | corrected member |
|---|---|---|---|---|---|---|
| src/index.ts:53 | destructures `notionVerificationToken` from the object of src/config.ts:72, whose only field is `NotionVerificationToken`, so the signature is checked under the key `undefined` | body `{}` without a token, every key set, `X-Notion-Signature` equal to `sha256=` and the HMAC of the body under `NOTION_VERIFICATION_TOKEN`: 401 as written (the HMAC of an `undefined` key throws), while the signed request should go on to fetch | the signature is checked under the configured `NOTION_VERIFICATION_TOKEN` | high (by reading the code; not executed) | Webhook.AsWrittenRejectsWhatIntendedAccepts | Webhook.AcceptedRequestFetches |

`Webhook.HandleAsWritten` is the handler as written. `AsWrittenVerdictIgnoresToken`
and `AsWrittenRejectsWhenKeylessHmacFails` state what it does. `Webhook.Handle`,
which `Webhook.WebhookHandler` follows, checks the signature under the
configured token.

## Left out

- Strings are sequences of Unicode scalar values. JavaScript measures `.length` and `slice` in UTF-16 code units, so counts differ for characters outside the Basic Multilingual Plane. For example, the bookmark emoji of `SnsText.Prefix` is one character here and two code units in JavaScript. `Notion.TimingSafeEqualString` agrees with the source on the hex signatures it receives, and `Notion.MaskSignature` on strings of characters from the Basic Multilingual Plane.
- Notion.TimingSafeEqualString: `^` and `|` are modelled on unbounded non-negative integers (`BitXor`, `BitOr`), not on 32-bit integers. They agree for character codes.
- The HMAC-SHA256 of crypto-js, the Bluesky login and posting (`@atproto/api`), the OAuth 1.0a signing and posting of X, the Notion SDK calls and Gemini are not part of this model. Each enters as an oracle of the `World` that answers success, a value, or failure.
- `getPrimaryDataSourceId` and the paginated query of `NotionRepository.getUnpostedArticles` are folded into the fetch oracle. The model of the loop starts from the sequence of query results.
- `NotionRepository.verifyWebhookSignature` only delegates to `verifyNotionWebhookSignature`, so it has no member of its own. The same holds for `updateArticleSummary`, which is the `UpdateSummary` call of the log.
- `JSON.parse` of the webhook body is an oracle that throws or yields the kind of its `verification_token` member.
- `Promise.allSettled` and the awaits are sequential in the model: every poster is attempted in list order and the results are collected. Interleavings of the concurrent posts are not modelled.
- Each oracle answers the same way every time it is asked the same question. Two posts of the same article through the same poster (a poster list holding it twice) therefore answer alike.
- Webhook.WebhookHandler: the `'No valid SNS posters found.'` throw (src/index.ts:75-77) is unreachable and has no branch. The poster list is always Bluesky then X.
- The Hono application around the handler is not part of this model: the health-check route, and the 500 response built from a thrown error (src/index.ts:15-27, 118-120). A `Failure` result stands for that thrown error.
- The Worker entry points and the dev-only gate (src/entrypoints/worker, src/main.ts) are not part of this model.
- Webhook.WebhookHandler: follows the intended signature key, not the code as written (see "## Findings"). As written, no request without a token gets past the signature check when the HMAC throws for the key `undefined`, so the configuration, fetch, posts and marks are never reached.
- Webhook.WebhookHandler: the same capitalisation mismatch makes every credential destructured at src/index.ts:59-62 `undefined`, so the Notion client, both posters and Gemini are built without credentials (src/index.ts:64-68). The oracles of `World` do not receive credentials, so the model does not capture this.
- Scheduler.SchedulerUseCase.InitializeSnsPosters: the construction of the Bluesky poster (`new AtpAgent({ service })`, src/infrastructure/services/bluesky_poster.ts:10) is the oracle `World.agent`, keyed by the service. `loadAppConfig` passes `BLUESKY_SERVICE` through unchanged, so an empty value reaches it; whether a given service string parses as a URL is not modelled. The construction of the X poster is taken never to throw.
- Logging (`console.*`) is not modelled. `_maskSignature` (src/notion.ts:25-31) is defined but called nowhere in the source; `Notion.MaskSignature` models it on its own.
- The poster classes are not part of this model, including the text the Bluesky poster sends. Their formatters are modelled as `SnsText.BuildText` and `ServicesText.BuildText`.
