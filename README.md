# FirefoxLite: remote-config defaults, tab counter and chrome view model

A Dafny model of three small pieces of the FirefoxLite Android browser that carry decision logic:

- **`Utils`** (`firebase_helper.dfy`, from `FirebaseHelper.java`). The remote-config default map is resolved lazily and memoized. On its first request it comes from one of two sources. The local override file `remote_config.json` is used only on dev/beta builds, only off the main looper, and only when storage is readable and the parse succeeds. Otherwise the map is built from localized resource strings plus eleven build-time constants. The module also models the check that the six Firebase resource strings are present, and the rule for accepting a news source fetched from remote config. The helper is a class whose `remoteConfigDefault` field is assigned once. `fromResourceString` is a method that builds the map by successive puts, proved equal to the specification function `ResourceDefaults`. The remaining rules are functions.
- **`Tabs`** (`tab_counter.dfy`, from `TabCounter.java`). The tab counter is a class with fields `count`, `currentTextRatio` and `text`, plus counters for the layout re-size requests and the animation starts. The class invariant says the text always shows the count in its size class, or the initial ":)" at count 0. The decimal rendering of a count is proved to read back as that count.
- **`Content`** (`chrome_view_model.dfy`, from `ChromeViewModel.kt`). The chrome view model is a class with the five observable values. Every `MutableLiveData` assignment is appended to that field's emission log. The class invariant says each value is the last value its log emitted.
- **`Wrappers`** (`wrappers.dfy`): Option and Result.

Collaborators outside these files become parameters:
- Android's `Context` becomes a map from resource name to string, plus an abstract `format` standing for `String.format`.
- `FileUtils.canReadExternalStorage` and `FileUtils.fromJsonOnDisk` become a `LocalConfigFile` value: a readability flag and a `Result` that is either the parsed map or the exception.
- `AppConstants` becomes a `BuildFlavor`.
- `Looper.myLooper() == Looper.getMainLooper()` becomes a boolean.
- The constants that other classes define become a `StaticDefaults` value.
- `Settings.canOverride(PREF_INT_NEWS_PRIORITY, PRIORITY_FIREBASE)` and `Settings.PRIORITY_FIREBASE` become parameters.

The override file, when it is read and parses, is returned unchanged (`FirebaseHelper.java:206`). The constants are put only in `fromResourceString` (`FirebaseHelper.java:236-246`). `Utils.FileBranchAddsNoConstants` shows an empty override file yielding a map without the threshold keys. So the default map is complete only in the resource branch.

## Model

| member | source | states |
|---|---|---|
| `Utils.ChooseSource` | app/src/main/java/org/mozilla/focus/utils/FirebaseHelper.java:189-195 | the override file is chosen exactly when the build is dev or beta and the caller is off the main looper |
| `Utils.TextDefaults` | app/src/main/java/org/mozilla/focus/utils/FirebaseHelper.java:220-233 | the localized part of the map has exactly the eight text keys |
| `Utils.WithConstants` | app/src/main/java/org/mozilla/focus/utils/FirebaseHelper.java:236-246 | putting the constants adds exactly the eleven constant keys and leaves every other key's value as it was |
| `Utils.TextAndConstantKeysDisjoint` | app/src/main/java/org/mozilla/focus/utils/FirebaseHelper.java:49-79 | no text key is also a constant key, so neither group of puts overwrites the other |
| `Utils.ResourceDefaults` | app/src/main/java/org/mozilla/focus/utils/FirebaseHelper.java:218-249 | the resource map always holds the eleven constants with their build-time values, even without a context; it holds the text keys iff the context is non-null; its key set is exactly constants, or constants plus texts |
| `Utils.ResourceTextsUseAppName` | app/src/main/java/org/mozilla/focus/utils/FirebaseHelper.java:221-228 | the rate-dialog and share-dialog titles are their templates formatted with `app_name`; the first-launch message is `preference_default_browser` followed by "?" and U+1F60A |
| `Utils.FirebaseHelper.constructor` | app/src/main/java/org/mozilla/focus/utils/FirebaseHelper.java:81-90 | a new helper has no cached map and has consulted no source |
| `Utils.FirebaseHelper.GetRemoteConfigDefault` | app/src/main/java/org/mozilla/focus/utils/FirebaseHelper.java:186-199 | once cached, the same map is returned and no source is consulted again; the first call resolves from the chosen source, caches that map and counts one resolution |
| `Utils.FirebaseHelper.FromFile` | app/src/main/java/org/mozilla/focus/utils/FirebaseHelper.java:201-215 | a readable, parsed file is returned exactly as parsed, with no constant added; unreadable storage or a read/parse exception yields the resource map, and nothing is thrown |
| `Utils.FirebaseHelper.FromResourceString` | app/src/main/java/org/mozilla/focus/utils/FirebaseHelper.java:218-249 | the map built by successive puts equals `ResourceDefaults` for the same context and constants |
| `Utils.RepeatedCallsShareOneResolution` | app/src/main/java/org/mozilla/focus/utils/FirebaseHelper.java:188-198 | two calls return the identical map, however the build, thread and file differ between them, and only one resolution happens |
| `Utils.OverrideFileIgnoredUnlessAllowed` | app/src/main/java/org/mozilla/focus/utils/FirebaseHelper.java:189-195 | unless the build is dev or beta and the call is off the main looper, the result is the resource map whatever the file holds |
| `Utils.OverrideFileReturnedVerbatim` | app/src/main/java/org/mozilla/focus/utils/FirebaseHelper.java:204-206 | when the file source is chosen and the file is readable and parses, the defaults are exactly the parsed map |
| `Utils.UnusableOverrideFileFallsBack` | app/src/main/java/org/mozilla/focus/utils/FirebaseHelper.java:204-214 | when storage is unreadable or the read throws, the defaults are the resource map, whichever source was chosen |
| `Utils.FileBranchAddsNoConstants` | app/src/main/java/org/mozilla/focus/utils/FirebaseHelper.java:206 | on a dev build off the main looper, an empty parsed file yields defaults without the rate-dialog threshold key: constants are not merged into the file map |
| `Utils.GetStringResourceByName` | app/src/main/java/org/mozilla/focus/utils/FirebaseHelper.java:251-261 | a name with no string resource yields ""; a known name yields its localized string |
| `Utils.CheckIfApiReady` | app/src/main/java/org/mozilla/focus/utils/FirebaseHelper.java:107-120 | fails with "Firebase related keys are not set" iff the build uses Firebase and at least one of the six Firebase resources reads as empty |
| `Utils.ApplyFetchedNewsSource` | app/src/main/java/org/mozilla/focus/utils/FirebaseHelper.java:137-147 | a non-empty fetched source is applied (priority set to Firebase, source stored and handed to the news manager) when Firebase may override or no source is stored; an empty source, or a stored source that Firebase may not override, leaves the settings untouched |
| `Utils.ApplyFetchedNewsSourceIdempotent` | app/src/main/java/org/mozilla/focus/utils/FirebaseHelper.java:142-146 | a second delivery of the same fetched source changes nothing more |
| `Tabs.Digits` | app/src/main/java/org/mozilla/focus/tabs/TabCounter.java:236 | the decimal rendering of a natural number is a non-empty string of digits, one digit exactly below 10, with no leading zero |
| `Tabs.DigitsRoundTrip` | app/src/main/java/org/mozilla/focus/tabs/TabCounter.java:236 | reading the digits back gives the number |
| `Tabs.DecimalRoundTrip` | app/src/main/java/org/mozilla/focus/tabs/TabCounter.java:236 | the rendering of any integer count, with a minus sign when negative, reads back as that count |
| `Tabs.FormatForDisplay` | app/src/main/java/org/mozilla/focus/tabs/TabCounter.java:232-237 | above 99 the text is "∞"; otherwise it is the count's decimal rendering, which reads back as the count |
| `Tabs.RatioFor` | app/src/main/java/org/mozilla/focus/tabs/TabCounter.java:240 | the two-digit size class is chosen iff 10 <= n <= 99, otherwise the one-digit class |
| `Tabs.TwoDigitRatioMatchesDisplayWidth` | app/src/main/java/org/mozilla/focus/tabs/TabCounter.java:232-243 | for a non-negative count, the two-digit size class is chosen exactly when the shown text is two characters wide |
| `Tabs.TabCounter.constructor` | app/src/main/java/org/mozilla/focus/tabs/TabCounter.java:51-75 | a new counter shows ":)" with count 0, raised by the default-text padding, with no size class chosen and nothing scheduled or animated |
| `Tabs.TabCounter.AdjustTextSize` | app/src/main/java/org/mozilla/focus/tabs/TabCounter.java:239-256 | the size class becomes the one for the new count; a re-size is scheduled only when the class differs from the current one |
| `Tabs.TabCounter.SetCount` | app/src/main/java/org/mozilla/focus/tabs/TabCounter.java:112-118 | afterwards the count is n, the text is `formatForDisplay(n)`, the padding is cleared and the size class matches n, without animation |
| `Tabs.TabCounter.SetCountWithAnimation` | app/src/main/java/org/mozilla/focus/tabs/TabCounter.java:81-110 | from count 0 it acts as SetCount without animating; an unchanged count changes nothing; while old and new counts both exceed 99 only the count changes; otherwise the text becomes `formatForDisplay(n)` and the animation is started once; the display invariant is kept |
| `Content.ChromeViewModel.constructor` | app/src/main/java/org/mozilla/rocket/content/ChromeViewModel.kt:28-34 | night mode equals the settings flag, the tab count is (0, false), the three flags are false, and each field has emitted exactly that value once |
| `Content.ChromeViewModel.Invalidate` | app/src/main/java/org/mozilla/rocket/content/ChromeViewModel.kt:36-42 | all five values are unchanged and each is emitted exactly once more |
| `Content.ChromeViewModel.OnNightModeChanged` | app/src/main/java/org/mozilla/rocket/content/ChromeViewModel.kt:44-48 | night mode becomes the argument and is emitted only when it differed |
| `Content.ChromeViewModel.OnTabCountChanged` | app/src/main/java/org/mozilla/rocket/content/ChromeViewModel.kt:50-56 | the pair (count, needAnimation) is stored and emitted iff the count differs; the same count with another animation flag emits nothing and keeps the old pair |
| `Content.ChromeViewModel.OnPageLoadingStarted` | app/src/main/java/org/mozilla/rocket/content/ChromeViewModel.kt:58-62 | refreshing becomes true, and true is emitted only when it was not refreshing |
| `Content.ChromeViewModel.OnPageLoadingStopped` | app/src/main/java/org/mozilla/rocket/content/ChromeViewModel.kt:64-68 | refreshing becomes false, and false is emitted only when it was refreshing |
| `Content.ChromeViewModel.OnNavigationStateChanged` | app/src/main/java/org/mozilla/rocket/content/ChromeViewModel.kt:70-77 | back and forward flags are each set and emitted independently, each only when it changed |
| `Content.PageLoadingEventsIdempotent` | app/src/main/java/org/mozilla/rocket/content/ChromeViewModel.kt:58-68 | two loading-started (or two loading-stopped) events in a row emit at most one value, as a single one does |

## Left out

- Firebase SDK and platform calls are not modelled: `FirebaseApp.initializeApp`, enabling analytics, messaging and remote config, the `BlockingEnabler` AsyncTask with `deleteInstanceId`, `LocalBroadcastManager`, and the `ThreadUtils` background posting. They are foreign calls and threading. Only the decision rules they wrap are modelled: the `checkIfApiReady` rule that `init` applies, and the news-source rule in the remote-config callback. That a failed check aborts `init` before `enableFirebase` is not modelled.
- `FileUtils.canReadExternalStorage` and `FileUtils.fromJsonOnDisk` are not part of this model. They do file I/O. Their outcomes are the `LocalConfigFile` parameter, and JSON parsing itself is not modelled.
- The localized texts and `String.format` are abstract. A claim that a formatted title contains the app name verbatim depends on the template, so it is not stated.
- Utils.FirebaseHelper.GetRemoteConfigDefault: calls are modelled as sequential. The Java memo field is read and assigned without synchronization, and the method runs both on and off the main looper, so two concurrent first calls can each resolve the defaults, possibly from different sources, and return different maps.
- Utils.ApplyFetchedNewsSource: a null stored source or fetched string is represented as "". `TextUtils.isEmpty` treats null and "" alike. `Settings.canOverride` is a boolean parameter because `Settings` is not part of this model.
- Utils.ApplyFetchedNewsSourceIdempotent: `canOverride` is held fixed across the two deliveries. In the app it is recomputed from the priority that the first delivery set.
- Tabs.FormatForDisplay: locale-specific digits and the grouping separators of `NumberFormat` are not modelled. The rendering is plain decimal with a leading minus sign. Grouping separators matter only for counts of -1000 or less, since counts above 99 show "∞". Locale digits and minus signs differ for any count in locales that use them.
- TabCounter's animator graph and timings, `tintDrawables`, `setNightMode` and the pixel text-size calculation are not modelled. They are float animation and layout code. Only the number of animation starts and of scheduled re-sizes is kept. Whether a running animation is cancelled before the restart depends on timing, so it is not modelled. `getText` reads the `text` field.
- ChromeViewModel's `SingleLiveEvent` fields (`showTabTray`, `showMenu`, ...) are not modelled. The model does not assign them. The Kotlin default `needAnimation = false` of `onTabCountChanged` is not a separate member; it is the call with `false`.
- Content.ChromeViewModel: the model assumes that only the view model assigns the five values and that they are never null. In the source they are public `MutableLiveData` of `Boolean?` and `Pair<Int, Boolean>?`, so any class can assign them, null included, and then a value need not be the last one the view model emitted. With a null value, `onNightModeChanged`, `onTabCountChanged` and `onNavigationStateChanged` always emit their argument, since null differs from any argument, and `onPageLoadingStarted` and `onPageLoadingStopped` treat null as false: started emits true, stopped emits nothing.
- The rest of the app (views, adapters, factories, UI tests) is not modelled.
