/**
 * The choices `PlaywrightAdapter` makes in playwright_adapter.py: the
 * Chromium launch flags, the options of a new browser context, and the
 * `handle_route` predicate that aborts heavy resources and trackers when
 * the context is created for a performant run.
 */
module PlaywrightAdapter {
  import opened Wrappers
  import opened Text
  import opened Retry

  /** `ANALYTICS_HOST_SUBSTRINGS` (a set in the source; only membership matters). */
  const AnalyticsHostSubstrings: seq<string> := [
    "googletagmanager.com",
    "google-analytics.com",
    "www.google-analytics.com",
    "analytics.google.com",
    "doubleclick.net",
    "facebook.net",
    "connect.facebook.net",
    "mixpanel.com",
    "segment.io",
    "cdn.segment.com",
    "hotjar.com",
    "fullstory.com",
    "static.cloudflareinsights.com"
  ]

  const BlockedResourceTypes: seq<string> := ["image", "font", "media"]

  /** `x or ""` for an optional string. */
  function OrEmpty(x: Option<string>): string {
    if x.Some? then x.value else ""
  }

  /** A tracker host occurs in the URL, compared in lower case. */
  predicate Tracked(url: string) {
    exists k :: 0 <= k < |AnalyticsHostSubstrings| && Contains(Lower(url), AnalyticsHostSubstrings[k])
  }

  datatype RouteDecision = Abort | Continue

  /**
   * `handle_route`: a request is aborted exactly when its resource type is
   * an image, a font or media, or its URL names a tracker host.
   */
  function HandleRoute(url: Option<string>, resourceType: Option<string>): (d: RouteDecision)
    ensures d == Abort <==> OrEmpty(resourceType) in BlockedResourceTypes || Tracked(OrEmpty(url))
  {
    ContainsAnyIff(Lower(OrEmpty(url)), AnalyticsHostSubstrings);
    if OrEmpty(resourceType) in BlockedResourceTypes then Abort
    else if ContainsAny(Lower(OrEmpty(url)), AnalyticsHostSubstrings) then Abort
    else Continue
  }

  /** The host test ignores the case of the URL. */
  lemma RouteIgnoresUrlCase(url: string, resourceType: Option<string>)
    ensures HandleRoute(Some(url), resourceType) == HandleRoute(Some(Lower(url)), resourceType)
  {
    assert Lower(Lower(url)) == Lower(url);
  }

  const StorageStateKey: string := "storage_state"

  /**
   * The option dictionary of `new_context` (lines 67-79) and whether the
   * route handler is installed. The device preset is copied in; the
   * storage-state file is added when a path is given and the file is found
   * to exist; a failing existence check is ignored. The handler is
   * installed only for a performant context.
   */
  method NewContext(device: map<string, string>, performant: bool, storagePath: Option<string>,
                    fileExists: Outcome<bool>)
      returns (options: map<string, string>, routeInstalled: bool)
    ensures StorageStateKey in options <==>
      StorageStateKey in device || (Given(storagePath) && fileExists == Returned(true))
    ensures Given(storagePath) && fileExists == Returned(true) ==> options[StorageStateKey] == storagePath.value
    ensures !(Given(storagePath) && fileExists == Returned(true)) && StorageStateKey in device ==>
      options[StorageStateKey] == device[StorageStateKey]
    ensures forall k :: k in device && k != StorageStateKey ==> k in options && options[k] == device[k]
    ensures forall k :: k in options ==> k in device || k == StorageStateKey
    ensures routeInstalled == performant
  {
    options := map[];
    if device != map[] {
      options := options + device;
    }
    if Given(storagePath) {
      if fileExists == Returned(true) {
        options := options[StorageStateKey := storagePath.value];
      }
    }
    routeInstalled := false;
    if performant {
      routeInstalled := true;
    }
  }

  /** The `chromium_launch_args` default of config.py. */
  const DefaultLaunchArgs: seq<string> := [
    "--disable-dev-shm-usage",
    "--disable-gpu",
    "--disable-background-networking",
    "--disable-background-timer-throttling",
    "--disable-renderer-backgrounding",
    "--no-default-browser-check",
    "--no-first-run",
    "--no-zygote",
    "--disable-extensions",
    "--mute-audio",
    "--blink-settings=imagesEnabled=false"
  ]

  /**
   * `launch_browser`'s flags: in low-resource mode (a missing mode setting
   * counting as on) the configured `chromium_launch_args`, which default to
   * `DefaultLaunchArgs` when the configuration does not set them; none
   * otherwise.
   */
  function LaunchArgs(lowResourceMode: Option<bool>, configured: Option<seq<string>>): (args: seq<string>)
    ensures lowResourceMode != Some(false) && configured.Some? ==> args == configured.value
    ensures lowResourceMode != Some(false) && configured.None? ==> args == DefaultLaunchArgs
    ensures lowResourceMode == Some(false) ==> args == []
  {
    if lowResourceMode.None? || lowResourceMode.value then configured.GetOr(DefaultLaunchArgs) else []
  }
}
