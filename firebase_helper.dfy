/**
 * The decision rules of the app's Firebase helper (FirebaseHelper.java): the
 * lazily memoized remote-config default map and its two sources, the check
 * that the Firebase resource keys are present, and the rule for accepting a
 * news source fetched from remote config.
 */
module Utils {
  import opened Wrappers

  /**
   * A remote-config default value. The resource map holds strings, integers
   * and booleans; a JSON override file may also hold fractional numbers.
   */
  datatype ConfigValue = Text(s: string) | Number(n: int) | Flag(b: bool) | Fractional(x: real)

  type ConfigMap = map<string, ConfigValue>

  // Remote-config keys whose defaults are localized resource strings.
  const RateAppDialogTextTitle := "rate_app_dialog_text_title"
  const RateAppDialogTextContent := "rate_app_dialog_text_content"
  const RateAppDialogTextPositive := "rate_app_dialog_text_positive"
  const RateAppDialogTextNegative := "rate_app_dialog_text_negative"
  const FirstLaunchNotificationMessage := "first_launch_notification_message"
  const ShareAppDialogTitle := "str_share_app_dialog_title"
  const ShareAppDialogContent := "str_share_app_dialog_content"
  const ShareAppDialogMsg := "str_share_app_dialog_msg"

  // Remote-config keys whose defaults are build-time constants.
  const RateAppDialogThreshold := "rate_app_dialog_threshold"
  const RateAppNotificationThreshold := "rate_app_notification_threshold"
  const ShareAppDialogThreshold := "share_app_dialog_threshold"
  const EnableMyShotUnread := "enable_my_shot_unread"
  const EnablePrivateMode := "enable_private_mode"
  const BannerManifest := "banner_manifest"
  const ScreenshotCategoryManifest := "screenshot_category_manifest"
  const FeatureSurvey := "feature_survey"
  const VpnRecommenderUrl := "vpn_recommender_url"
  const VpnRecommenderPackage := "vpn_recommender_package"
  const FirstLaunchTimerMinutes := "first_launch_timer_minutes"

  const TextKeys: set<string> := {
    RateAppDialogTextTitle, RateAppDialogTextContent, RateAppDialogTextPositive,
    RateAppDialogTextNegative, FirstLaunchNotificationMessage, ShareAppDialogTitle,
    ShareAppDialogContent, ShareAppDialogMsg
  }

  const ConstantKeys: set<string> := {
    RateAppDialogThreshold, RateAppNotificationThreshold, ShareAppDialogThreshold,
    EnableMyShotUnread, BannerManifest, EnablePrivateMode, FeatureSurvey,
    ScreenshotCategoryManifest, VpnRecommenderPackage, VpnRecommenderUrl,
    FirstLaunchTimerMinutes
  }

  // Names of the Firebase string resources that must be present in a Firebase build.
  const FirebaseWebId := "default_web_client_id"
  const FirebaseDbUrl := "firebase_database_url"
  const FirebaseCrashReport := "google_crash_reporting_api_key"
  const FirebaseAppId := "google_app_id"
  const FirebaseApiKey := "google_api_key"
  const FirebaseProjectId := "project_id"

  const FirebaseResourceNames: seq<string> := [
    FirebaseWebId, FirebaseDbUrl, FirebaseCrashReport, FirebaseAppId, FirebaseApiKey, FirebaseProjectId
  ]

  /** What the first-launch message appends to the default-browser question: "?" and U+1F60A. */
  const FirstLaunchSuffix := "?\U{1F60A}"

  const ApiKeysMissingMessage := "Firebase related keys are not set"

  /**
   * The Android context as the helper uses it: localized string resources by
   * name, and the String.format that `getString(id, args...)` applies to a
   * resource template.
   */
  datatype Context = Context(strings: map<string, string>, format: (string, seq<string>) -> string)
  {
    /** `getString(R.string.name)`; a name with no resource reads as "". */
    function GetString(name: string): string {
      if name in strings then strings[name] else ""
    }

    /** `getString(R.string.name, args...)`: the template formatted with the arguments. */
    function GetFormatted(name: string, args: seq<string>): string {
      format(GetString(name), args)
    }
  }

  /**
   * Values defined by other classes of the app (DialogUtils, MainActivity,
   * HomeFragment, AppConfigWrapper, RemoteConfigConstants, ScreenshotManager,
   * FeatureSurveyViewHelper, FirstLaunchWorker) and put into the resource map.
   */
  datatype StaticDefaults = StaticDefaults(
    rateDialogThreshold: ConfigValue,
    rateNotificationThreshold: ConfigValue,
    shareDialogThreshold: ConfigValue,
    myShotUnread: ConfigValue,
    bannerManifest: ConfigValue,
    privateModeEnabled: ConfigValue,
    featureSurvey: ConfigValue,
    screenshotCategoryManifest: ConfigValue,
    vpnPackage: ConfigValue,
    vpnUrl: ConfigValue,
    firstLaunchTimer: ConfigValue)

  /** The build variant (AppConstants). */
  datatype BuildFlavor = BuildFlavor(isDevBuild: bool, isBetaBuild: bool, isBuiltWithFirebase: bool)

  /**
   * The local override file `remote_config.json`: whether external storage is
   * readable, and what FileUtils.fromJsonOnDisk returns or throws.
   */
  datatype LocalConfigFile = LocalConfigFile(canReadExternalStorage: bool, contents: Result<ConfigMap, string>)

  /** Where the defaults of one process come from. */
  datatype ConfigSource = LocalOverrideFile | ResourceStrings

  /** The source `getRemoteConfigDefault` picks on its first call. */
  function ChooseSource(build: BuildFlavor, onMainLooper: bool): (src: ConfigSource)
    ensures src == LocalOverrideFile <==> (build.isDevBuild || build.isBetaBuild) && !onMainLooper
  {
    var mayUseLocalFile := build.isDevBuild || build.isBetaBuild;
    if mayUseLocalFile && !onMainLooper then LocalOverrideFile else ResourceStrings
  }

  /** The eight localized text defaults. */
  function TextDefaults(c: Context): (m: ConfigMap)
    ensures m.Keys == TextKeys
  {
    var appName := c.GetString("app_name");
    map[
      RateAppDialogTextTitle := Text(c.GetFormatted("rate_app_dialog_text_title", [appName])),
      RateAppDialogTextContent := Text(c.GetString("rate_app_dialog_text_content")),
      RateAppDialogTextPositive := Text(c.GetString("rate_app_dialog_btn_go_rate")),
      RateAppDialogTextNegative := Text(c.GetString("rate_app_dialog_btn_feedback")),
      FirstLaunchNotificationMessage := Text(c.GetString("preference_default_browser") + FirstLaunchSuffix),
      ShareAppDialogTitle := Text(c.GetFormatted("share_app_dialog_text_title", [appName])),
      ShareAppDialogContent := Text(c.GetString("share_app_dialog_text_content")),
      ShareAppDialogMsg := Text(c.GetFormatted("share_app_promotion_text",
        [appName, c.GetString("share_app_google_play_url"), c.GetString("mozilla")]))
    ]
  }

  /** The eleven constant defaults, put over `base` in the order `fromResourceString` puts them. */
  function WithConstants(base: ConfigMap, statics: StaticDefaults): (m: ConfigMap)
    ensures m.Keys == base.Keys + ConstantKeys
    ensures forall k :: k in base && k !in ConstantKeys ==> m[k] == base[k]
  {
    base[RateAppDialogThreshold := statics.rateDialogThreshold]
        [RateAppNotificationThreshold := statics.rateNotificationThreshold]
        [ShareAppDialogThreshold := statics.shareDialogThreshold]
        [EnableMyShotUnread := statics.myShotUnread]
        [BannerManifest := statics.bannerManifest]
        [EnablePrivateMode := statics.privateModeEnabled]
        [FeatureSurvey := statics.featureSurvey]
        [ScreenshotCategoryManifest := statics.screenshotCategoryManifest]
        [VpnRecommenderPackage := statics.vpnPackage]
        [VpnRecommenderUrl := statics.vpnUrl]
        [FirstLaunchTimerMinutes := statics.firstLaunchTimer]
  }

  /** No key is both a text key and a constant key. */
  lemma TextAndConstantKeysDisjoint()
    ensures TextKeys !! ConstantKeys
  {
  }

  /** `m` holds every constant key, each mapped to its build-time value. */
  predicate HoldsConstants(m: ConfigMap, statics: StaticDefaults) {
    && ConstantKeys <= m.Keys
    && m[RateAppDialogThreshold] == statics.rateDialogThreshold
    && m[RateAppNotificationThreshold] == statics.rateNotificationThreshold
    && m[ShareAppDialogThreshold] == statics.shareDialogThreshold
    && m[EnableMyShotUnread] == statics.myShotUnread
    && m[BannerManifest] == statics.bannerManifest
    && m[EnablePrivateMode] == statics.privateModeEnabled
    && m[FeatureSurvey] == statics.featureSurvey
    && m[ScreenshotCategoryManifest] == statics.screenshotCategoryManifest
    && m[VpnRecommenderPackage] == statics.vpnPackage
    && m[VpnRecommenderUrl] == statics.vpnUrl
    && m[FirstLaunchTimerMinutes] == statics.firstLaunchTimer
  }

  /**
   * The map `fromResourceString` builds: the constant defaults always, the
   * text defaults only when there is a context.
   */
  function ResourceDefaults(ctx: Option<Context>, statics: StaticDefaults): (m: ConfigMap)
    ensures HoldsConstants(m, statics)
    ensures ctx.Some? <==> TextKeys <= m.Keys
    ensures ctx.None? ==> m.Keys == ConstantKeys
    ensures ctx.Some? ==> m.Keys == TextKeys + ConstantKeys
  {
    TextAndConstantKeysDisjoint();
    assert RateAppDialogTextTitle !in ConstantKeys;
    match ctx
    case Some(c) => WithConstants(TextDefaults(c), statics)
    case None => WithConstants(map[], statics)
  }

  /** The map `fromFile` returns: the parsed file when it can be read and parsed, else the resource map. */
  function FileDefaults(c: Context, statics: StaticDefaults, file: LocalConfigFile): ConfigMap {
    if file.canReadExternalStorage && file.contents.Success? then file.contents.value
    else ResourceDefaults(Some(c), statics)
  }

  /** The map the first call of `getRemoteConfigDefault` resolves. */
  function ResolvedDefaults(c: Context, statics: StaticDefaults, build: BuildFlavor, onMainLooper: bool,
                            file: LocalConfigFile): ConfigMap
  {
    match ChooseSource(build, onMainLooper)
    case LocalOverrideFile => FileDefaults(c, statics, file)
    case ResourceStrings => ResourceDefaults(Some(c), statics)
  }

  /** Holds the memoized default map; `resolutions` counts how often a source was consulted. */
  class FirebaseHelper {
    var remoteConfigDefault: Option<ConfigMap>
    ghost var resolutions: nat

    /** Over sequential calls, the defaults are resolved at most once, and exactly once when cached. */
    ghost predicate Valid()
      reads this
    {
      resolutions == if remoteConfigDefault.Some? then 1 else 0
    }

    constructor ()
      ensures Valid() && remoteConfigDefault == None
    {
      remoteConfigDefault := None;
      resolutions := 0;
    }

    /** The default map, resolved from one source on the first call and cached after it. */
    method GetRemoteConfigDefault(c: Context, statics: StaticDefaults, build: BuildFlavor, onMainLooper: bool,
                                  file: LocalConfigFile) returns (r: ConfigMap)
      requires Valid()
      modifies this
      ensures Valid() && remoteConfigDefault == Some(r)
      ensures old(remoteConfigDefault).Some? ==> r == old(remoteConfigDefault).value && resolutions == old(resolutions)
      ensures old(remoteConfigDefault).None? ==> r == ResolvedDefaults(c, statics, build, onMainLooper, file)
    {
      if remoteConfigDefault.None? {
        var mayUseLocalFile := build.isDevBuild || build.isBetaBuild;
        var m: ConfigMap;
        if mayUseLocalFile && !onMainLooper {
          m := FromFile(c, statics, file);
        } else {
          m := FromResourceString(Some(c), statics);
        }
        remoteConfigDefault := Some(m);
        resolutions := resolutions + 1;
      }
      r := remoteConfigDefault.value;
    }

    /** Reads the override file, falling back to the resource map on any failure. */
    method FromFile(c: Context, statics: StaticDefaults, file: LocalConfigFile) returns (r: ConfigMap)
      ensures file.canReadExternalStorage && file.contents.Success? ==> r == file.contents.value
      ensures !file.canReadExternalStorage || file.contents.Failure? ==> r == ResourceDefaults(Some(c), statics)
    {
      if file.canReadExternalStorage {
        match file.contents
        case Success(parsed) =>
          return parsed;
        case Failure(_) =>
          r := FromResourceString(Some(c), statics);
          return;
      }
      r := FromResourceString(Some(c), statics);
    }

    /** Builds the resource map by a sequence of puts into an empty map. */
    method FromResourceString(ctx: Option<Context>, statics: StaticDefaults) returns (r: ConfigMap)
      ensures r == ResourceDefaults(ctx, statics)
    {
      var m: ConfigMap := map[];
      if ctx.Some? {
        var c := ctx.value;
        m := m[RateAppDialogTextTitle := Text(c.GetFormatted("rate_app_dialog_text_title", [c.GetString("app_name")]))];
        m := m[RateAppDialogTextContent := Text(c.GetString("rate_app_dialog_text_content"))];
        m := m[RateAppDialogTextPositive := Text(c.GetString("rate_app_dialog_btn_go_rate"))];
        m := m[RateAppDialogTextNegative := Text(c.GetString("rate_app_dialog_btn_feedback"))];
        m := m[FirstLaunchNotificationMessage := Text(c.GetString("preference_default_browser") + FirstLaunchSuffix)];
        m := m[ShareAppDialogTitle := Text(c.GetFormatted("share_app_dialog_text_title", [c.GetString("app_name")]))];
        m := m[ShareAppDialogContent := Text(c.GetString("share_app_dialog_text_content"))];
        var shareAppDialogMsg := c.GetFormatted("share_app_promotion_text",
          [c.GetString("app_name"), c.GetString("share_app_google_play_url"), c.GetString("mozilla")]);
        m := m[ShareAppDialogMsg := Text(shareAppDialogMsg)];
        assert m == TextDefaults(c);
      }
      m := m[RateAppDialogThreshold := statics.rateDialogThreshold];
      m := m[RateAppNotificationThreshold := statics.rateNotificationThreshold];
      m := m[ShareAppDialogThreshold := statics.shareDialogThreshold];
      m := m[EnableMyShotUnread := statics.myShotUnread];
      m := m[BannerManifest := statics.bannerManifest];
      m := m[EnablePrivateMode := statics.privateModeEnabled];
      m := m[FeatureSurvey := statics.featureSurvey];
      m := m[ScreenshotCategoryManifest := statics.screenshotCategoryManifest];
      m := m[VpnRecommenderPackage := statics.vpnPackage];
      m := m[VpnRecommenderUrl := statics.vpnUrl];
      m := m[FirstLaunchTimerMinutes := statics.firstLaunchTimer];
      r := m;
    }
  }

  /** Two calls on one helper return the same map, whatever the second call's surroundings. */
  method RepeatedCallsShareOneResolution(h: FirebaseHelper, c: Context, statics: StaticDefaults,
                                         build1: BuildFlavor, onMainLooper1: bool, file1: LocalConfigFile,
                                         build2: BuildFlavor, onMainLooper2: bool, file2: LocalConfigFile)
    returns (first: ConfigMap, second: ConfigMap)
    requires h.Valid()
    modifies h
    ensures first == second && h.Valid() && h.resolutions == 1
  {
    first := h.GetRemoteConfigDefault(c, statics, build1, onMainLooper1, file1);
    second := h.GetRemoteConfigDefault(c, statics, build2, onMainLooper2, file2);
  }

  /** The override file is not read unless the build is dev or beta and the call is off the main looper. */
  lemma OverrideFileIgnoredUnlessAllowed(c: Context, statics: StaticDefaults, build: BuildFlavor,
                                         onMainLooper: bool, file: LocalConfigFile)
    requires !(build.isDevBuild || build.isBetaBuild) || onMainLooper
    ensures ResolvedDefaults(c, statics, build, onMainLooper, file) == ResourceDefaults(Some(c), statics)
  {
  }

  /** A readable, well-formed override file is returned exactly as parsed. */
  lemma OverrideFileReturnedVerbatim(c: Context, statics: StaticDefaults, build: BuildFlavor,
                                     onMainLooper: bool, file: LocalConfigFile)
    requires ChooseSource(build, onMainLooper) == LocalOverrideFile
    requires file.canReadExternalStorage && file.contents.Success?
    ensures ResolvedDefaults(c, statics, build, onMainLooper, file) == file.contents.value
  {
  }

  /** An unreadable or malformed override file falls back to the resource map; nothing is thrown. */
  lemma UnusableOverrideFileFallsBack(c: Context, statics: StaticDefaults, build: BuildFlavor,
                                      onMainLooper: bool, file: LocalConfigFile)
    requires !file.canReadExternalStorage || file.contents.Failure?
    ensures ResolvedDefaults(c, statics, build, onMainLooper, file) == ResourceDefaults(Some(c), statics)
  {
  }

  /**
   * No constant is merged into the parsed file: an empty override file gives an
   * empty default map, without the threshold keys.
   */
  lemma FileBranchAddsNoConstants(c: Context, statics: StaticDefaults)
    ensures var build := BuildFlavor(true, false, true);
            var file := LocalConfigFile(true, Success(map[]));
            RateAppDialogThreshold !in ResolvedDefaults(c, statics, build, false, file)
  {
  }

  /** The three composed texts, looked up in the localized part of the map. */
  lemma TextDefaultsComposed(c: Context)
    ensures var t := TextDefaults(c);
            var appName := c.GetString("app_name");
            && t[RateAppDialogTextTitle] == Text(c.format(c.GetString("rate_app_dialog_text_title"), [appName]))
            && t[ShareAppDialogTitle] == Text(c.format(c.GetString("share_app_dialog_text_title"), [appName]))
            && t[FirstLaunchNotificationMessage] == Text(c.GetString("preference_default_browser") + FirstLaunchSuffix)
  {
  }

  /**
   * The titles are their templates formatted with the app name, and the
   * first-launch message is the default-browser question with "?" and an emoji.
   */
  lemma ResourceTextsUseAppName(c: Context, statics: StaticDefaults)
    ensures var m := ResourceDefaults(Some(c), statics);
            var appName := c.GetString("app_name");
            && m[RateAppDialogTextTitle] == Text(c.format(c.GetString("rate_app_dialog_text_title"), [appName]))
            && m[ShareAppDialogTitle] == Text(c.format(c.GetString("share_app_dialog_text_title"), [appName]))
            && m[FirstLaunchNotificationMessage] == Text(c.GetString("preference_default_browser") + "?" + "\U{1F60A}")
  {
    TextAndConstantKeysDisjoint();
    TextDefaultsComposed(c);
    var t := TextDefaults(c);
    assert ResourceDefaults(Some(c), statics) == WithConstants(t, statics);
    assert RateAppDialogTextTitle !in ConstantKeys && ShareAppDialogTitle !in ConstantKeys;
    assert FirstLaunchNotificationMessage !in ConstantKeys;
  }

  /** `getStringResourceByName`: the string of the named resource, or "" when no resource has that name. */
  function GetStringResourceByName(c: Context, name: string): (r: string)
    ensures name !in c.strings ==> r == ""
    ensures name in c.strings ==> r == c.strings[name]
  {
    // getIdentifier yields 0 for an unknown name, which reads as ""; GetString does the same.
    c.GetString(name)
  }

  /**
   * `checkIfApiReady`: in a Firebase build, fails with IllegalStateException
   * when any of the six Firebase resources reads as empty.
   */
  function CheckIfApiReady(build: BuildFlavor, c: Context): (r: Result<(), string>)
    ensures r.Failure? <==> (build.isBuiltWithFirebase &&
      exists i :: 0 <= i < |FirebaseResourceNames| && GetStringResourceByName(c, FirebaseResourceNames[i]) == "")
    ensures r.Failure? ==> r.error == ApiKeysMissingMessage
  {
    if build.isBuiltWithFirebase then
      var names := FirebaseResourceNames;
      assert names[0] == FirebaseWebId && names[1] == FirebaseDbUrl && names[2] == FirebaseCrashReport;
      assert names[3] == FirebaseAppId && names[4] == FirebaseApiKey && names[5] == FirebaseProjectId;
      var webId := GetStringResourceByName(c, FirebaseWebId);
      var dbUrl := GetStringResourceByName(c, FirebaseDbUrl);
      var crashReport := GetStringResourceByName(c, FirebaseCrashReport);
      var appId := GetStringResourceByName(c, FirebaseAppId);
      var apiKey := GetStringResourceByName(c, FirebaseApiKey);
      var projectId := GetStringResourceByName(c, FirebaseProjectId);
      if webId == "" || dbUrl == "" || crashReport == "" || appId == "" || apiKey == "" || projectId == "" then
        Failure(ApiKeysMissingMessage)
      else
        Success(())
    else
      Success(())
  }

  /**
   * The news settings the remote-config callback touches: the news priority,
   * the stored news source, and the source NewsSourceManager uses. A null
   * string is modelled as "" (TextUtils.isEmpty treats both alike).
   */
  datatype NewsSettings = NewsSettings(newsPriority: int, newsSource: string, managerSource: string)

  /**
   * The remote-config fetch callback: a non-empty fetched source is applied
   * when Firebase may override the current priority or no source is stored yet.
   */
  function ApplyFetchedNewsSource(settings: NewsSettings, source: string, canOverride: bool,
                                  firebasePriority: int): (r: NewsSettings)
    ensures source == "" ==> r == settings
    ensures !canOverride && settings.newsSource != "" ==> r == settings
    ensures source != "" && (canOverride || settings.newsSource == "") ==>
      r.newsPriority == firebasePriority && r.newsSource == source && r.managerSource == source
  {
    if source != "" && (canOverride || settings.newsSource == "") then
      settings.(newsPriority := firebasePriority, newsSource := source, managerSource := source)
    else
      settings
  }

  /** Applying the same fetched source twice leaves the settings as applying it once. */
  lemma ApplyFetchedNewsSourceIdempotent(settings: NewsSettings, source: string, canOverride: bool,
                                         firebasePriority: int)
    ensures var once := ApplyFetchedNewsSource(settings, source, canOverride, firebasePriority);
            ApplyFetchedNewsSource(once, source, canOverride, firebasePriority) == once
  {
  }
}
