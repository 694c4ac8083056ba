/**
 * The `provide*Config` validators of src/config.ts: each reads its keys from
 * the Worker environment and throws an error naming exactly the keys that
 * are missing or empty, or returns their values.
 */
module EnvConfig {
  import opened Wrappers
  import opened Js

  datatype TwitterConfig = TwitterConfig(consumerKey: string, consumerSecret: string, accessToken: string, accessSecret: string)
  datatype NotionConfig = NotionConfig(databaseId: string, apiKey: string, verificationToken: string)
  datatype NotionWebhookConfig = NotionWebhookConfig(verificationToken: string)
  datatype BlueskyConfig = BlueskyConfig(identifier: string, password: string, service: string)
  datatype GeminiConfig = GeminiConfig(apiKey: string)

  /** The Bluesky service used when `BLUESKY_SERVICE` is unset or empty. */
  const DefaultBlueskyService: string := "https://bsky.social"

  /** A key name together with the value read for it. */
  type Entry = (string, Option<string>)

  /** The names of the entries whose value is falsy, in the order of the entries. */
  function MissingKeys(entries: seq<Entry>): (missing: seq<string>)
    ensures |missing| <= |entries|
    ensures forall k :: k in missing <==> exists i :: 0 <= i < |entries| && entries[i].0 == k && !Truthy(entries[i].1)
  {
    if entries == [] then []
    else
      var last := entries[|entries| - 1];
      MissingKeys(entries[..|entries| - 1]) + (if Truthy(last.1) then [] else [last.0])
  }

  /** Missing keys are listed in the order in which the entries are declared. */
  lemma {:induction false} MissingKeysAppend(a: seq<Entry>, b: seq<Entry>)
    ensures MissingKeys(a + b) == MissingKeys(a) + MissingKeys(b)
    decreases |b|
  {
    if b != [] {
      assert (a + b)[..|a + b| - 1] == a + b[..|b| - 1];
      MissingKeysAppend(a, b[..|b| - 1]);
    } else {
      assert a + b == a;
    }
  }

  /** A single entry is listed exactly when its value is falsy. */
  lemma MissingKeysSingle(e: Entry)
    ensures MissingKeys([e]) == if Truthy(e.1) then [] else [e.0]
  {
    assert [e][..0] == [];
  }

  /** Missing keys of a three-entry list, one entry at a time. */
  lemma MissingKeysOfThree(a: Entry, b: Entry, c: Entry)
    ensures MissingKeys([a, b, c]) == MissingKeys([a]) + MissingKeys([b]) + MissingKeys([c])
  {
    assert [a, b, c] == [a] + [b] + [c];
    MissingKeysAppend([a], [b]);
    MissingKeysAppend([a] + [b], [c]);
  }

  /** Missing keys of a four-entry list, one entry at a time. */
  lemma MissingKeysOfFour(a: Entry, b: Entry, c: Entry, d: Entry)
    ensures MissingKeys([a, b, c, d]) == MissingKeys([a]) + MissingKeys([b]) + MissingKeys([c]) + MissingKeys([d])
  {
    assert [a, b, c, d] == [a, b, c] + [d];
    MissingKeysAppend([a, b, c], [d]);
    MissingKeysOfThree(a, b, c);
  }

  /** The error thrown for a list of missing keys. */
  function MissingMessage(missing: seq<string>): string
  {
    Join(missing, ", ") + " must be set"
  }

  function TwitterEntries(env: Env): seq<Entry>
  {
    [("TWITTER_CONSUMER_KEY", Get(env, "TWITTER_CONSUMER_KEY")),
     ("TWITTER_CONSUMER_SECRET", Get(env, "TWITTER_CONSUMER_SECRET")),
     ("TWITTER_ACCESS_TOKEN", Get(env, "TWITTER_ACCESS_TOKEN")),
     ("TWITTER_ACCESS_SECRET", Get(env, "TWITTER_ACCESS_SECRET"))]
  }

  /** `provideTwitterConfig(env)`. */
  function ProvideTwitterConfig(env: Env): (r: Result<TwitterConfig, string>)
    ensures r.Failure? <==> (!Truthy(Get(env, "TWITTER_CONSUMER_KEY")) || !Truthy(Get(env, "TWITTER_CONSUMER_SECRET"))
                          || !Truthy(Get(env, "TWITTER_ACCESS_TOKEN")) || !Truthy(Get(env, "TWITTER_ACCESS_SECRET")))
    ensures r.Failure? ==> r.error == MissingMessage(MissingKeys(TwitterEntries(env)))
    ensures r.Success? ==> (Get(env, "TWITTER_CONSUMER_KEY") == Some(r.value.consumerKey)
                         && Get(env, "TWITTER_CONSUMER_SECRET") == Some(r.value.consumerSecret)
                         && Get(env, "TWITTER_ACCESS_TOKEN") == Some(r.value.accessToken)
                         && Get(env, "TWITTER_ACCESS_SECRET") == Some(r.value.accessSecret))
  {
    var consumerKey := Get(env, "TWITTER_CONSUMER_KEY");
    var consumerSecret := Get(env, "TWITTER_CONSUMER_SECRET");
    var accessToken := Get(env, "TWITTER_ACCESS_TOKEN");
    var accessSecret := Get(env, "TWITTER_ACCESS_SECRET");
    if !Truthy(consumerKey) || !Truthy(consumerSecret) || !Truthy(accessToken) || !Truthy(accessSecret) then
      Failure(MissingMessage(MissingKeys(TwitterEntries(env))))
    else
      Success(TwitterConfig(consumerKey.value, consumerSecret.value, accessToken.value, accessSecret.value))
  }

  /**
   * The Twitter error lists exactly the missing keys (at least one), in the
   * order in which they are declared.
   */
  lemma TwitterMessageListsMissingKeys(env: Env)
    requires ProvideTwitterConfig(env).Failure?
    ensures ProvideTwitterConfig(env).error == MissingMessage(
      (if Truthy(Get(env, "TWITTER_CONSUMER_KEY")) then [] else ["TWITTER_CONSUMER_KEY"]) +
      (if Truthy(Get(env, "TWITTER_CONSUMER_SECRET")) then [] else ["TWITTER_CONSUMER_SECRET"]) +
      (if Truthy(Get(env, "TWITTER_ACCESS_TOKEN")) then [] else ["TWITTER_ACCESS_TOKEN"]) +
      (if Truthy(Get(env, "TWITTER_ACCESS_SECRET")) then [] else ["TWITTER_ACCESS_SECRET"]))
    ensures MissingKeys(TwitterEntries(env)) != []
  {
    var e := TwitterEntries(env);
    MissingKeysOfFour(e[0], e[1], e[2], e[3]);
    MissingKeysSingle(e[0]);
    MissingKeysSingle(e[1]);
    MissingKeysSingle(e[2]);
    MissingKeysSingle(e[3]);
  }

  function NotionEntries(env: Env): seq<Entry>
  {
    [("NOTION_DATABASE_ID", Get(env, "NOTION_DATABASE_ID")),
     ("NOTION_API_KEY", Get(env, "NOTION_API_KEY")),
     ("NOTION_VERIFICATION_TOKEN", Get(env, "NOTION_VERIFICATION_TOKEN"))]
  }

  /** `provideNotionConfig(env)`. */
  function ProvideNotionConfig(env: Env): (r: Result<NotionConfig, string>)
    ensures r.Failure? <==> (!Truthy(Get(env, "NOTION_DATABASE_ID")) || !Truthy(Get(env, "NOTION_API_KEY"))
                          || !Truthy(Get(env, "NOTION_VERIFICATION_TOKEN")))
    ensures r.Failure? ==> r.error == MissingMessage(MissingKeys(NotionEntries(env)))
    ensures r.Success? ==> (Get(env, "NOTION_DATABASE_ID") == Some(r.value.databaseId)
                         && Get(env, "NOTION_API_KEY") == Some(r.value.apiKey)
                         && Get(env, "NOTION_VERIFICATION_TOKEN") == Some(r.value.verificationToken))
  {
    var databaseId := Get(env, "NOTION_DATABASE_ID");
    var apiKey := Get(env, "NOTION_API_KEY");
    var verificationToken := Get(env, "NOTION_VERIFICATION_TOKEN");
    if !Truthy(databaseId) || !Truthy(apiKey) || !Truthy(verificationToken) then
      Failure(MissingMessage(MissingKeys(NotionEntries(env))))
    else
      Success(NotionConfig(databaseId.value, apiKey.value, verificationToken.value))
  }

  /** The Notion error lists exactly the missing keys (at least one), in declaration order. */
  lemma NotionMessageListsMissingKeys(env: Env)
    requires ProvideNotionConfig(env).Failure?
    ensures ProvideNotionConfig(env).error == MissingMessage(
      (if Truthy(Get(env, "NOTION_DATABASE_ID")) then [] else ["NOTION_DATABASE_ID"]) +
      (if Truthy(Get(env, "NOTION_API_KEY")) then [] else ["NOTION_API_KEY"]) +
      (if Truthy(Get(env, "NOTION_VERIFICATION_TOKEN")) then [] else ["NOTION_VERIFICATION_TOKEN"]))
    ensures MissingKeys(NotionEntries(env)) != []
  {
    var e := NotionEntries(env);
    MissingKeysOfThree(e[0], e[1], e[2]);
    MissingKeysSingle(e[0]);
    MissingKeysSingle(e[1]);
    MissingKeysSingle(e[2]);
  }

  /** `provideNotionWebhookConfig(env)`. */
  function ProvideNotionWebhookConfig(env: Env): (r: Result<NotionWebhookConfig, string>)
    ensures r.Failure? <==> !Truthy(Get(env, "NOTION_VERIFICATION_TOKEN"))
    ensures r.Failure? ==> r.error == "NOTION_VERIFICATION_TOKEN must be set"
    ensures r.Success? ==> Get(env, "NOTION_VERIFICATION_TOKEN") == Some(r.value.verificationToken)
  {
    var verificationToken := Get(env, "NOTION_VERIFICATION_TOKEN");
    if !Truthy(verificationToken) then Failure("NOTION_VERIFICATION_TOKEN must be set")
    else Success(NotionWebhookConfig(verificationToken.value))
  }

  /** `env.BLUESKY_SERVICE || 'https://bsky.social'`. */
  function BlueskyService(env: Env): (service: string)
    ensures service != ""
    ensures Truthy(Get(env, "BLUESKY_SERVICE")) ==> service == Get(env, "BLUESKY_SERVICE").value
    ensures !Truthy(Get(env, "BLUESKY_SERVICE")) ==> service == DefaultBlueskyService
  {
    var service := Get(env, "BLUESKY_SERVICE");
    if Truthy(service) then service.value else DefaultBlueskyService
  }

  function BlueskyEntries(env: Env): seq<Entry>
  {
    [("BLUESKY_IDENTIFIER", Get(env, "BLUESKY_IDENTIFIER")),
     ("BLUESKY_PASSWORD", Get(env, "BLUESKY_PASSWORD")),
     ("BLUESKY_SERVICE", Some(BlueskyService(env)))]
  }

  /** `provideBlueskyConfig(env)`. */
  function ProvideBlueskyConfig(env: Env): (r: Result<BlueskyConfig, string>)
    ensures r.Failure? <==> !Truthy(Get(env, "BLUESKY_IDENTIFIER")) || !Truthy(Get(env, "BLUESKY_PASSWORD"))
    ensures r.Failure? ==> r.error == MissingMessage(MissingKeys(BlueskyEntries(env)))
    ensures r.Success? ==> (Get(env, "BLUESKY_IDENTIFIER") == Some(r.value.identifier)
                         && Get(env, "BLUESKY_PASSWORD") == Some(r.value.password))
    ensures r.Success? && Truthy(Get(env, "BLUESKY_SERVICE")) ==> Get(env, "BLUESKY_SERVICE") == Some(r.value.service)
    ensures r.Success? && !Truthy(Get(env, "BLUESKY_SERVICE")) ==> r.value.service == DefaultBlueskyService
  {
    var identifier := Get(env, "BLUESKY_IDENTIFIER");
    var password := Get(env, "BLUESKY_PASSWORD");
    var service := BlueskyService(env);
    if !Truthy(identifier) || !Truthy(password) || service == "" then
      Failure(MissingMessage(MissingKeys(BlueskyEntries(env))))
    else
      Success(BlueskyConfig(identifier.value, password.value, service))
  }

  /** The Bluesky entries that can be missing: the identifier and the password, in that order. */
  lemma BlueskyMissingKeys(env: Env)
    ensures MissingKeys(BlueskyEntries(env))
         == (if Truthy(Get(env, "BLUESKY_IDENTIFIER")) then [] else ["BLUESKY_IDENTIFIER"])
          + (if Truthy(Get(env, "BLUESKY_PASSWORD")) then [] else ["BLUESKY_PASSWORD"])
  {
    var e := BlueskyEntries(env);
    MissingKeysOfThree(e[0], e[1], e[2]);
    MissingKeysSingle(e[0]);
    MissingKeysSingle(e[1]);
    MissingKeysSingle(e[2]);
  }

  /** The three errors that a missing identifier, password or both produce. */
  lemma BlueskyMessages(hasIdentifier: bool, hasPassword: bool)
    requires !hasIdentifier || !hasPassword
    ensures var message := MissingMessage((if hasIdentifier then [] else ["BLUESKY_IDENTIFIER"])
                                        + (if hasPassword then [] else ["BLUESKY_PASSWORD"]));
            || message == "BLUESKY_IDENTIFIER" + ", " + "BLUESKY_PASSWORD" + " must be set"
            || message == "BLUESKY_IDENTIFIER" + " must be set"
            || message == "BLUESKY_PASSWORD" + " must be set"
  {
    var missing := (if hasIdentifier then [] else ["BLUESKY_IDENTIFIER"])
                 + (if hasPassword then [] else ["BLUESKY_PASSWORD"]);
    if !hasIdentifier && !hasPassword {
      assert missing == ["BLUESKY_IDENTIFIER", "BLUESKY_PASSWORD"];
      JoinPair("BLUESKY_IDENTIFIER", "BLUESKY_PASSWORD", ", ");
    } else if !hasIdentifier {
      assert missing == ["BLUESKY_IDENTIFIER"];
    } else {
      assert missing == ["BLUESKY_PASSWORD"];
    }
  }

  /**
   * `BLUESKY_SERVICE` has a default, so it never appears in the Bluesky
   * error: only the identifier and the password can be reported.
   */
  lemma BlueskyServiceNeverReported(env: Env)
    requires ProvideBlueskyConfig(env).Failure?
    ensures var message := ProvideBlueskyConfig(env).error;
            || message == "BLUESKY_IDENTIFIER" + ", " + "BLUESKY_PASSWORD" + " must be set"
            || message == "BLUESKY_IDENTIFIER" + " must be set"
            || message == "BLUESKY_PASSWORD" + " must be set"
  {
    BlueskyMissingKeys(env);
    BlueskyMessages(Truthy(Get(env, "BLUESKY_IDENTIFIER")), Truthy(Get(env, "BLUESKY_PASSWORD")));
  }

  /** `provideGeminiConfig(env)`. */
  function ProvideGeminiConfig(env: Env): (r: Result<GeminiConfig, string>)
    ensures r.Failure? <==> !Truthy(Get(env, "GEMINI_API_KEY"))
    ensures r.Failure? ==> r.error == "GEMINI_API_KEY must be set"
    ensures r.Success? ==> Get(env, "GEMINI_API_KEY") == Some(r.value.apiKey)
  {
    var apiKey := Get(env, "GEMINI_API_KEY");
    if !Truthy(apiKey) then Failure("GEMINI_API_KEY must be set")
    else Success(GeminiConfig(apiKey.value))
  }
}
