/**
 * `loadAppConfig` of src/infrastructure/config/config_service.ts: the Notion
 * section is mandatory, the Bluesky and Twitter sections are each present
 * when their credentials are complete, and at least one of them must be.
 */
module ConfigService {
  import opened Wrappers
  import opened Js

  datatype NotionConfig = NotionConfig(apiKey: string, databaseId: string)
  datatype BlueskyConfig = BlueskyConfig(identifier: string, password: string, service: Option<string>)
  datatype TwitterConfig = TwitterConfig(appKey: string, appSecret: string, accessToken: string, accessSecret: string)
  datatype AppConfig = AppConfig(notion: NotionConfig, bluesky: Option<BlueskyConfig>, twitter: Option<TwitterConfig>)

  const MissingNotionMessage: string := "Missing Notion API Key or Database ID in environment variables."
  const NoSnsMessage: string := "No Bluesky or Twitter authentication credentials set."

  /** Both Bluesky credentials are set and non-empty. */
  predicate HasBlueskyCredentials(env: Env)
  {
    Truthy(Get(env, "BLUESKY_IDENTIFIER")) && Truthy(Get(env, "BLUESKY_PASSWORD"))
  }

  /** All four Twitter credentials are set and non-empty. */
  predicate HasTwitterCredentials(env: Env)
  {
    && Truthy(Get(env, "TWITTER_CONSUMER_KEY")) && Truthy(Get(env, "TWITTER_CONSUMER_SECRET"))
    && Truthy(Get(env, "TWITTER_ACCESS_TOKEN")) && Truthy(Get(env, "TWITTER_ACCESS_SECRET"))
  }

  /** `loadAppConfig(env)`. */
  function LoadAppConfig(env: Env): (r: Result<AppConfig, string>)
    // The Notion keys are checked before any social-network key.
    ensures !Truthy(Get(env, "NOTION_API_KEY")) || !Truthy(Get(env, "NOTION_DATABASE_ID")) ==> r == Failure(MissingNotionMessage)
    ensures r.Failure? <==> (|| !Truthy(Get(env, "NOTION_API_KEY")) || !Truthy(Get(env, "NOTION_DATABASE_ID"))
                             || (!HasBlueskyCredentials(env) && !HasTwitterCredentials(env)))
    ensures r.Failure? && r != Failure(MissingNotionMessage) ==> r == Failure(NoSnsMessage)
    // With both Notion keys set, the only error is the missing social network.
    ensures Truthy(Get(env, "NOTION_API_KEY")) && Truthy(Get(env, "NOTION_DATABASE_ID")) && r.Failure? ==> r == Failure(NoSnsMessage)
    ensures r.Success? ==> (Get(env, "NOTION_API_KEY") == Some(r.value.notion.apiKey)
                         && Get(env, "NOTION_DATABASE_ID") == Some(r.value.notion.databaseId))
    ensures r.Success? ==> (r.value.bluesky.Some? <==> HasBlueskyCredentials(env))
    ensures r.Success? && r.value.bluesky.Some? ==> (Get(env, "BLUESKY_IDENTIFIER") == Some(r.value.bluesky.value.identifier)
                                                && Get(env, "BLUESKY_PASSWORD") == Some(r.value.bluesky.value.password)
                                                && Get(env, "BLUESKY_SERVICE") == r.value.bluesky.value.service)
    ensures r.Success? ==> (r.value.twitter.Some? <==> HasTwitterCredentials(env))
    ensures r.Success? && r.value.twitter.Some? ==> (Get(env, "TWITTER_CONSUMER_KEY") == Some(r.value.twitter.value.appKey)
                                                && Get(env, "TWITTER_CONSUMER_SECRET") == Some(r.value.twitter.value.appSecret)
                                                && Get(env, "TWITTER_ACCESS_TOKEN") == Some(r.value.twitter.value.accessToken)
                                                && Get(env, "TWITTER_ACCESS_SECRET") == Some(r.value.twitter.value.accessSecret))
    // A configuration that loads always has at least one social network.
    ensures r.Success? ==> r.value.bluesky.Some? || r.value.twitter.Some?
  {
    var notionApiKey := Get(env, "NOTION_API_KEY");
    var notionDatabaseId := Get(env, "NOTION_DATABASE_ID");
    if !Truthy(notionApiKey) || !Truthy(notionDatabaseId) then
      Failure(MissingNotionMessage)
    else
      var blueskyIdentifier := Get(env, "BLUESKY_IDENTIFIER");
      var blueskyPassword := Get(env, "BLUESKY_PASSWORD");
      var blueskyService := Get(env, "BLUESKY_SERVICE");
      var twitterAppKey := Get(env, "TWITTER_CONSUMER_KEY");
      var twitterAppSecret := Get(env, "TWITTER_CONSUMER_SECRET");
      var twitterAccessToken := Get(env, "TWITTER_ACCESS_TOKEN");
      var twitterAccessSecret := Get(env, "TWITTER_ACCESS_SECRET");
      var notionConfig := NotionConfig(notionApiKey.value, notionDatabaseId.value);
      var blueskyConfig :=
        if Truthy(blueskyIdentifier) && Truthy(blueskyPassword) then
          Some(BlueskyConfig(blueskyIdentifier.value, blueskyPassword.value, blueskyService))
        else None;
      var twitterConfig :=
        if Truthy(twitterAppKey) && Truthy(twitterAppSecret) && Truthy(twitterAccessToken) && Truthy(twitterAccessSecret) then
          Some(TwitterConfig(twitterAppKey.value, twitterAppSecret.value, twitterAccessToken.value, twitterAccessSecret.value))
        else None;
      if blueskyConfig.None? && twitterConfig.None? then
        Failure(NoSnsMessage)
      else
        Success(AppConfig(notionConfig, blueskyConfig, twitterConfig))
  }
}
