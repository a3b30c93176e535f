# Show/Hide Updates Exclusive — a Dafny model of its decision logic

The WordPress plugin *Show/Hide Updates Exclusive* hides update notices and turns off
automatic updates for every user except the ones an administrator has flagged as
"updater". Most of the plugin registers hook callbacks with WordPress. This project
models the decisions behind those callbacks, each as a function of its inputs:

- **Access check** (`is_update_user`). Suppression is switched on for the current user
  unless their stored `updater` meta value is `"1"`.
- **Outbound request filter** (`block_request`). A `pre_http_request` filter. It returns
  `true`, which short-circuits the request, when two things hold: the parsed host
  contains `api.wordpress.org`, and the path contains `update-check` or `browse-happy`.
  Both tests ignore ASCII case. In every other case it returns `$pre` unchanged.
- **Cron veto** (`filter_cron_events`). A `schedule_event` filter. It maps the four
  update hooks to `false` and returns every other event as it was.
- **Manufactured snapshot** (`last_checked_atm`). The stand-in value for the three
  update transients: no updates, the installed version, and the current time.
- **Profile checkbox** (`updater_field`). Whether the "Show Update" checkbox is rendered,
  and whether it is ticked.
- **Saving the checkbox** (`save_custom_user_profile_fields`). A guarded write of one
  meta entry.

The model has four modules:

- `PhpStrings`: `empty()`, truthiness of a string, and `stripos`. `stripos` is written
  as a left-to-right search and proved against an existential "contains, ignoring case"
  definition.
- `UserMeta`: the host's per-user meta store. It is a map from user id to a map from
  meta key to value. A `UserMetaStore` class holds it as mutable state.
- `UpdatesExclusive`: the plugin's operations and the lemmas that relate them.
- `Scenarios`: concrete requests, events and users.

Host inputs are parameters:

- `parse_url` output, as an optional host and an optional path;
- `time()` and `$wp_version`;
- the results of `current_user_can`;
- the target's `caps` from `get_userdata`;
- the posted `updater` value;
- the meta store.

The request's `$pre` and `$args`, and the cached transient `$t`, are type parameters.
This makes it visible that the functions cannot inspect them.

**Core version checks.** The path test at show-hide-updates-exclusive.php:180 does
not match `/core/version-check/1.7/`, so a request to
`https://api.wordpress.org/core/version-check/1.7/` passes through
(`Scenarios.CoreVersionCheckPasses`). The plugin's other measures for core checks are
the snapshot that replaces the cached `update_core` result (line 83), the cron veto
(line 192) and `wp_clear_scheduled_hook('wp_version_check')` (line 155). Nothing in
the plugin blocks a direct call of `wp_version_check`.

## Model

| member | source | states |
|---|---|---|
| `PhpStrings.FindFrom` | show-hide-updates-exclusive.php:180 | The first case-insensitive match at or after `from`: the result is a match, and no index between `from` and it matches. `None` means no index at or after `from` matches. |
| `PhpStrings.StrIPos` | show-hide-updates-exclusive.php:180 | `stripos`. The result is present exactly when the needle occurs in the haystack, ignoring ASCII case. It is then a match position, and no earlier index matches. |
| `UserMeta.UpdateUserMeta` | show-hide-updates-exclusive.php:247 | `update_user_meta` sets the one (user, key) entry to the value. Every other (user, key) entry reads as before, and no other user's row changes. |
| `UserMeta.UserMetaStore.Update` | show-hide-updates-exclusive.php:247 | The store's new contents are the old contents with that single entry updated. |
| `UpdatesExclusive.ActivatesSuppression` | show-hide-updates-exclusive.php:56-62 | `is_update_user`. Suppression is activated exactly when the user's stored `updater` value is not `"1"`. It is always activated when no value is stored. |
| `UpdatesExclusive.BlockRequest` | show-hide-updates-exclusive.php:166-185 | An empty URL (`""` or `"0"`) gives back `$pre`. A host that is absent or falsy gives back `$pre`. The result is `true` exactly when the URL is non-empty, the host is truthy, the host contains `api.wordpress.org`, and the path contains `update-check` or `browse-happy`, all ignoring case. Every other result is exactly `$pre`. |
| `UpdatesExclusive.BlockRequestIgnoresArgs` | show-hide-updates-exclusive.php:166-185 | The outcome is the same for any two `$args`. |
| `UpdatesExclusive.FilterCronEvents` | show-hide-updates-exclusive.php:190-201 | An event is vetoed (`false`) exactly when its hook is one of the four update hooks. Any other event is returned unchanged. A `false` passed in by an earlier filter comes back as `false`. |
| `UpdatesExclusive.LastCheckedAtm` | show-hide-updates-exclusive.php:206-215 | The snapshot has an empty `updates` list. `version_checked` is the installed version and `last_checked` is the current time. |
| `UpdatesExclusive.LastCheckedAtmIgnoresCached` | show-hide-updates-exclusive.php:206-215 | The snapshot is the same whatever cached value it replaces. |
| `UpdatesExclusive.UpdaterField` | show-hide-updates-exclusive.php:220-238 | The checkbox is shown exactly when the viewer is an administrator and the target's `caps` has an `administrator` key. When shown, it is ticked exactly when the target's stored flag is `"1"`. |
| `UpdatesExclusive.CheckedIffExempt` | show-hide-updates-exclusive.php:221-231 | A shown checkbox is ticked exactly when the access check would not suppress updates for that user. |
| `UpdatesExclusive.SaveProfile` | show-hide-updates-exclusive.php:243-248 | Without permission, the store is unchanged. With permission, the user's `updater` entry becomes the submitted value. Every other (user, key) entry reads as before, and no other user's row changes. |
| `UpdatesExclusive.SaveDecidesSuppression` | show-hide-updates-exclusive.php:243-248 | After a permitted save, the user is suppressed exactly when the submitted value is not `"1"`. After a refused save, their decision is unchanged. No other user's decision changes either way. |
| `UpdatesExclusive.SaveCheckedRoundTrip` | show-hide-updates-exclusive.php:231-247 | Save a ticked box (`"1"`) or an unticked one (`""`), and the next render shows the box in that same state. |
| `UpdatesExclusive.SaveCustomUserProfileFields` | show-hide-updates-exclusive.php:243-248 | The method leaves the store equal to `SaveProfile` of the old store. |
| `Scenarios.PluginUpdateCheckBlocked` | show-hide-updates-exclusive.php:180-181 | `api.wordpress.org/plugins/update-check/1.1/` is short-circuited. |
| `Scenarios.MixedCaseBrowseHappyBlocked` | show-hide-updates-exclusive.php:180-181 | `API.WordPress.org/core/Browse-Happy/1.1/` is short-circuited, because matching ignores case. |
| `Scenarios.LookalikeHostBlocked` | show-hide-updates-exclusive.php:180-181 | A host that only contains `api.wordpress.org` (`api.wordpress.org.example.com`) is matched too. |
| `Scenarios.CoreVersionCheckPasses` | show-hide-updates-exclusive.php:180-184 | `api.wordpress.org/core/version-check/1.7/` passes through unchanged. |
| `Scenarios.CreditsPasses` | show-hide-updates-exclusive.php:180-184 | `api.wordpress.org/core/credits/1.1/` passes through unchanged. |
| `Scenarios.OtherHostPasses` | show-hide-updates-exclusive.php:180-184 | `example.com/update-check` passes through unchanged. |
| `Scenarios.NoPathPasses` | show-hide-updates-exclusive.php:177-184 | A URL on `api.wordpress.org` with no path passes through unchanged. |
| `Scenarios.CronVetoIsExact` | show-hide-updates-exclusive.php:191-200 | `wp_update_plugins` is vetoed. The upper-case variant and a longer name are kept. A `false` input stays `false`. |
| `Scenarios.FieldVisibility` | show-hide-updates-exclusive.php:223 | Viewer admin and target admin: the box is shown. Target not admin: hidden. Viewer not admin: hidden. |
| `Scenarios.RefusedSaveKeepsFlag` | show-hide-updates-exclusive.php:244-246 | A refused save of `"1"` leaves the stored flag where it was. |

## Left out

- Hook registration and dispatch (`__construct`, `construct`, and `add_filter`/`add_action` in general). Their effect lives in WordPress's hook dispatcher, which is not part of this model. The model has each callback's decision, not the wiring.
- `admin_init` (capability overwrite, `remove_action` of the nag notices, `wp_clear_scheduled_hook`). It only calls host primitives whose meaning lives in WordPress.
- The `__return_false`/`__return_true` feature-flag filters, and the `define()` of `AUTOMATIC_UPDATER_DISABLED` and `WP_AUTO_UPDATE_CORE`. These are constant values and process-global constants of the host.
- `get_instance`. It is a singleton accessor with no behaviour of its own.
- `parse_url`, `time()` and the `include` of `version.php`. These are host builtins and I/O, so their results are parameters. An absent path reads as `""`, which is how `stripos` treats a null argument.
- `$_POST`, `global $current_user`, `current_user_can`, `get_userdata`. They are host state, supplied as inputs. For an unticked checkbox `$_POST['updater']` is undefined, so line 247 passes `null`. The model uses `""` in its place. Both compare unequal to `'1'` at lines 59 and 231, so every decision is the same.
- User id 0 (a visitor who is not logged in). The host never stores meta for id 0, but `UserId` admits 0, so the model's store can hold a row for it (for example after `SaveProfile(meta, 0, true, "1")`), which the host never produces.
- The HTML that `updater_field` prints. Only its two booleans are modelled: visible, and checked.
- `ActivatesSuppression`: compares the flag to `"1"` by exact string equality. PHP's `!=` also treats numeric strings such as `"01"` or `"1.0"` as equal to `'1'`. That loose comparison is not modelled.
- `UpdaterField`: the same exact-equality simplification applies to `$updater == '1'`. It also reads `isset($user->caps['administrator'])` as presence of the key, because the host stores boolean capability values there, never null.
- `StrIPos`: folds case for ASCII letters only, over characters rather than bytes. That matches `stripos` from PHP 8.2 on. Older PHP versions folded case by locale.
