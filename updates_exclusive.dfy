/**
 * The decision logic of the Show/Hide Updates Exclusive plugin: who is
 * exempt from update suppression, which outbound HTTP requests and cron
 * events are blocked, the manufactured "no updates" snapshot, and the
 * "Show Update" checkbox on the user profile screen with its save handler.
 * Everything the host supplies (parsed URL parts, the clock, the installed
 * version, capability checks, posted form values) is a parameter.
 */
module UpdatesExclusive {
  import opened Wrappers
  import opened PhpStrings
  import opened UserMeta

  /** The user-meta key that holds the updater flag. */
  const UpdaterKey := "updater"

  /** The flag value that exempts a user from suppression. */
  const ExemptFlag := "1"

  // ---------------------------------------------------------------------
  // Access check (is_update_user)
  // ---------------------------------------------------------------------

  /** The stored updater flag of a user ("" when none was ever saved). */
  function UpdaterFlag(meta: MetaStore, id: UserId): string {
    GetUserMeta(meta, id, UpdaterKey)
  }

  /**
   * `is_update_user`: whether the suppression bundle is registered for the
   * current user in this request (true for users who are NOT updaters).
   */
  function ActivatesSuppression(meta: MetaStore, currentUser: UserId): (activates: bool)
    ensures !(currentUser in meta && UpdaterKey in meta[currentUser]) ==> activates
    ensures currentUser in meta && UpdaterKey in meta[currentUser] ==>
      (activates <==> meta[currentUser][UpdaterKey] != ExemptFlag)
  {
    ExemptFlag != UpdaterFlag(meta, currentUser)
  }

  // ---------------------------------------------------------------------
  // Outbound request filter (block_request)
  // ---------------------------------------------------------------------

  /** What `parse_url` yields for the two components the filter reads. */
  datatype UrlParts = UrlParts(host: Option<string>, path: Option<string>)

  /** The value a `pre_http_request` filter returns: `true`, or `$pre` itself. */
  datatype PreHttpResult<P> = ShortCircuit | Unchanged(pre: P)

  const BlockedHost := "api.wordpress.org"
  const BlockedPathUpdateCheck := "update-check"
  const BlockedPathBrowseHappy := "browse-happy"

  /** An absent path reads as "" (a null argument to `stripos`). */
  function PathText(parts: UrlParts): string {
    if parts.path.Some? then parts.path.value else ""
  }

  /** When the plugin blocks a request, stated with the reference substring test. */
  ghost predicate ShouldBlock(url: string, parts: UrlParts) {
    !IsEmpty(url) &&
    IsTruthy(parts.host) &&
    ContainsIgnoringCase(parts.host.value, BlockedHost) &&
    (ContainsIgnoringCase(PathText(parts), BlockedPathUpdateCheck) ||
     ContainsIgnoringCase(PathText(parts), BlockedPathBrowseHappy))
  }

  /**
   * `block_request($pre, $args, $url)`: `parts` is what `parse_url($url)` gives.
   * Returns `true` for an update-check or browse-happy call to api.wordpress.org,
   * and `$pre` unchanged for everything else.
   */
  function BlockRequest<P, A>(pre: P, args: A, url: string, parts: UrlParts): (r: PreHttpResult<P>)
    ensures IsEmpty(url) ==> r == Unchanged(pre)
    ensures !IsTruthy(parts.host) ==> r == Unchanged(pre)
    ensures r == ShortCircuit <==> ShouldBlock(url, parts)
    ensures r != ShortCircuit ==> r == Unchanged(pre)
  {
    if IsEmpty(url) then Unchanged(pre)
    else if !IsTruthy(parts.host) then Unchanged(pre)
    else
      var host := parts.host.value;
      if StrIPos(host, BlockedHost).Some? &&
         (StrIPos(PathText(parts), BlockedPathUpdateCheck).Some? ||
          StrIPos(PathText(parts), BlockedPathBrowseHappy).Some?)
      then ShortCircuit
      else Unchanged(pre)
  }

  /** The filter's `$args` never influences its outcome. */
  lemma BlockRequestIgnoresArgs<P, A>(pre: P, args1: A, args2: A, url: string, parts: UrlParts)
    ensures BlockRequest(pre, args1, url, parts) == BlockRequest(pre, args2, url, parts)
  {
  }

  // ---------------------------------------------------------------------
  // Cron veto (filter_cron_events)
  // ---------------------------------------------------------------------

  /** A host cron event as handed to the `schedule_event` filter. */
  datatype CronEvent = CronEvent(hook: string, timestamp: int, schedule: Option<string>, args: seq<string>)

  /** The four update-related hooks the plugin refuses to schedule. */
  const VetoedHooks: set<string> :=
    {"wp_version_check", "wp_update_plugins", "wp_update_themes", "wp_maybe_auto_update"}

  /**
   * `filter_cron_events($event)`: `None` stands for `false`, both the `false`
   * that vetoes an event and the `false` an earlier filter on the hook may
   * already have produced (its null `hook` matches no case and it is returned
   * as it came). Any event not vetoed comes back as it was.
   */
  function FilterCronEvents(event: Option<CronEvent>): (r: Option<CronEvent>)
    ensures event.None? ==> r.None?
    ensures event.Some? ==> (r.None? <==> event.value.hook in VetoedHooks)
    ensures r.Some? ==> r == event
  {
    match event
    case None => None
    case Some(e) =>
      if e.hook == "wp_version_check" || e.hook == "wp_update_plugins" ||
         e.hook == "wp_update_themes" || e.hook == "wp_maybe_auto_update"
      then None
      else event
  }

  // ---------------------------------------------------------------------
  // Manufactured update snapshot (last_checked_atm)
  // ---------------------------------------------------------------------

  /** The stand-in for the update_core/update_plugins/update_themes transient. */
  datatype UpdateSnapshot<U> = UpdateSnapshot(updates: seq<U>, versionChecked: string, lastChecked: int)

  /**
   * `last_checked_atm($t)`: `wpVersion` is the installed `$wp_version` and
   * `now` is `time()`. The cached value `t` is discarded.
   */
  function LastCheckedAtm<T, U>(t: T, wpVersion: string, now: int): (r: UpdateSnapshot<U>)
    ensures r.updates == []
    ensures r.versionChecked == wpVersion
    ensures r.lastChecked == now
  {
    UpdateSnapshot([], wpVersion, now)
  }

  /** The snapshot depends only on the version and the clock, never on the cached value. */
  lemma LastCheckedAtmIgnoresCached<T, U>(t1: T, t2: T, wpVersion: string, now: int)
    ensures LastCheckedAtm<T, U>(t1, wpVersion, now) == LastCheckedAtm<T, U>(t2, wpVersion, now)
  {
  }

  // ---------------------------------------------------------------------
  // Profile checkbox (updater_field) and its save
  // ---------------------------------------------------------------------

  /** What `updater_field` renders: nothing, or the checkbox in a given state. */
  datatype FieldState = Hidden | Checkbox(checked: bool)

  /**
   * `updater_field($user)`: `viewerIsAdministrator` is
   * `current_user_can('administrator')`; `targetCaps` is the target's `caps`
   * from `get_userdata`, where a present key is an `isset` key.
   */
  function UpdaterField(meta: MetaStore, target: UserId, targetCaps: map<string, bool>,
                        viewerIsAdministrator: bool): (r: FieldState)
    ensures r.Checkbox? <==> viewerIsAdministrator && "administrator" in targetCaps
    ensures r.Checkbox? ==> (r.checked <==> UpdaterFlag(meta, target) == ExemptFlag)
  {
    var updater := UpdaterFlag(meta, target);
    if viewerIsAdministrator && "administrator" in targetCaps then Checkbox(updater == ExemptFlag)
    else Hidden
  }

  /** A shown checkbox is ticked exactly when the target is exempt from suppression. */
  lemma CheckedIffExempt(meta: MetaStore, target: UserId, targetCaps: map<string, bool>)
    requires "administrator" in targetCaps
    ensures UpdaterField(meta, target, targetCaps, true) == Checkbox(!ActivatesSuppression(meta, target))
  {
  }

  /**
   * The store after `save_custom_user_profile_fields($user_id)`:
   * `permitted` is `current_user_can('administrator', $user_id)` and
   * `submitted` is `$_POST['updater']`.
   */
  function SaveProfile(meta: MetaStore, userId: UserId, permitted: bool, submitted: string): (m': MetaStore)
    ensures !permitted ==> m' == meta
    ensures permitted ==> UpdaterFlag(m', userId) == submitted
    ensures forall u, k :: (u != userId || k != UpdaterKey) ==> GetUserMeta(m', u, k) == GetUserMeta(meta, u, k)
    ensures forall u :: u in meta && u != userId ==> u in m' && m'[u] == meta[u]
    ensures m'.Keys <= meta.Keys + {userId}
  {
    if !permitted then meta else UpdateUserMeta(meta, userId, UpdaterKey, submitted)
  }

  /**
   * Saving decides the saved user's suppression on later requests, and no
   * other user's: after a permitted save the user is exempt exactly when the
   * submitted value is "1"; a refused save changes nobody's decision.
   */
  lemma SaveDecidesSuppression(meta: MetaStore, userId: UserId, permitted: bool, submitted: string, other: UserId)
    ensures permitted ==>
      (ActivatesSuppression(SaveProfile(meta, userId, permitted, submitted), userId) <==> submitted != ExemptFlag)
    ensures !permitted ==>
      ActivatesSuppression(SaveProfile(meta, userId, permitted, submitted), userId) == ActivatesSuppression(meta, userId)
    ensures other != userId ==>
      ActivatesSuppression(SaveProfile(meta, userId, permitted, submitted), other) == ActivatesSuppression(meta, other)
  {
  }

  /** Ticking the checkbox and saving it shows it ticked on the next render. */
  lemma SaveCheckedRoundTrip(meta: MetaStore, userId: UserId, targetCaps: map<string, bool>, checked: bool)
    requires "administrator" in targetCaps
    ensures UpdaterField(SaveProfile(meta, userId, true, if checked then ExemptFlag else ""), userId, targetCaps, true)
      == Checkbox(checked)
  {
  }

  /**
   * `save_custom_user_profile_fields($user_id)` against the host store.
   */
  method SaveCustomUserProfileFields(store: UserMetaStore, userId: UserId, permitted: bool, submitted: string)
    modifies store
    ensures store.entries == SaveProfile(old(store.entries), userId, permitted, submitted)
  {
    if !permitted {
      return;
    }
    store.Update(userId, UpdaterKey, submitted);
  }
}
