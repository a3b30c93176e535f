/**
 * What the model's rules decide for concrete requests, events and users,
 * on the endpoints and hooks WordPress uses.
 */
module Scenarios {
  import opened Wrappers
  import opened PhpStrings
  import opened UserMeta
  import opened UpdatesExclusive

  /** The plugin update check is blocked. */
  lemma PluginUpdateCheckBlocked(pre: bool, args: int)
    ensures BlockRequest(pre, args, "https://api.wordpress.org/plugins/update-check/1.1/",
                         UrlParts(Some("api.wordpress.org"), Some("/plugins/update-check/1.1/")))
      == ShortCircuit
  {
    MatchWitness("api.wordpress.org", BlockedHost, 0);
    MatchWitness("/plugins/update-check/1.1/", BlockedPathUpdateCheck, 9);
  }

  /** Matching ignores ASCII case, in the host and in the path. */
  lemma MixedCaseBrowseHappyBlocked(pre: bool, args: int)
    ensures BlockRequest(pre, args, "https://API.WordPress.org/core/Browse-Happy/1.1/",
                         UrlParts(Some("API.WordPress.org"), Some("/core/Browse-Happy/1.1/")))
      == ShortCircuit
  {
    MatchWitness("API.WordPress.org", BlockedHost, 0);
    MatchWitness("/core/Browse-Happy/1.1/", BlockedPathBrowseHappy, 6);
  }

  /** The host test is a substring test, so a host that merely contains the name is matched too. */
  lemma LookalikeHostBlocked(pre: bool, args: int)
    ensures BlockRequest(pre, args, "https://api.wordpress.org.example.com/themes/update-check/",
                         UrlParts(Some("api.wordpress.org.example.com"), Some("/themes/update-check/")))
      == ShortCircuit
  {
    MatchWitness("api.wordpress.org.example.com", BlockedHost, 0);
    MatchWitness("/themes/update-check/", BlockedPathUpdateCheck, 8);
  }

  /** The core version check path has neither marker, so the request passes through. */
  lemma CoreVersionCheckPasses(pre: bool, args: int)
    ensures BlockRequest(pre, args, "https://api.wordpress.org/core/version-check/1.7/",
                         UrlParts(Some("api.wordpress.org"), Some("/core/version-check/1.7/")))
      == Unchanged(pre)
  {
    FirstCharAbsent("/core/version-check/1.7/", BlockedPathUpdateCheck);
    FirstCharAbsent("/core/version-check/1.7/", BlockedPathBrowseHappy);
  }

  /** Other api.wordpress.org calls pass through. */
  lemma CreditsPasses(pre: bool, args: int)
    ensures BlockRequest(pre, args, "https://api.wordpress.org/core/credits/1.1/",
                         UrlParts(Some("api.wordpress.org"), Some("/core/credits/1.1/")))
      == Unchanged(pre)
  {
    FirstCharAbsent("/core/credits/1.1/", BlockedPathUpdateCheck);
    FirstCharAbsent("/core/credits/1.1/", BlockedPathBrowseHappy);
  }

  /** An update-check path on another host passes through. */
  lemma OtherHostPasses(pre: bool, args: int)
    ensures BlockRequest(pre, args, "https://example.com/update-check",
                         UrlParts(Some("example.com"), Some("/update-check")))
      == Unchanged(pre)
  {
  }

  /** A URL without a path is never blocked. */
  lemma NoPathPasses(pre: bool, args: int)
    ensures BlockRequest(pre, args, "https://api.wordpress.org",
                         UrlParts(Some("api.wordpress.org"), None))
      == Unchanged(pre)
  {
  }

  /** The cron veto is an exact, case-sensitive match on the hook name; a `false` stays `false`. */
  lemma CronVetoIsExact(e: CronEvent)
    ensures FilterCronEvents(Some(e.(hook := "wp_update_plugins"))) == None
    ensures FilterCronEvents(Some(e.(hook := "WP_UPDATE_PLUGINS"))) == Some(e.(hook := "WP_UPDATE_PLUGINS"))
    ensures FilterCronEvents(Some(e.(hook := "wp_update_plugins_extra"))).Some?
    ensures FilterCronEvents(None) == None
  {
  }

  /** An administrator viewing another administrator sees the box; otherwise it is hidden. */
  lemma FieldVisibility(meta: MetaStore, target: UserId)
    ensures UpdaterField(meta, target, map["administrator" := true], true).Checkbox?
    ensures UpdaterField(meta, target, map["editor" := true], true) == Hidden
    ensures UpdaterField(meta, target, map["administrator" := true], false) == Hidden
  {
  }

  /** A refused save of "1" leaves the stored flag where it was. */
  lemma RefusedSaveKeepsFlag(meta: MetaStore, target: UserId)
    ensures UpdaterFlag(SaveProfile(meta, target, false, "1"), target) == UpdaterFlag(meta, target)
  {
  }
}
