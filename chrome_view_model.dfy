/**
 * The browser chrome's view model (ChromeViewModel.kt): five observable values
 * with setters that publish only on change. Each assignment to a LiveData's
 * value is an emission to its observers; the model appends it to that field's
 * emission log.
 */
module Content {

  /** The `Pair<Int, Boolean>` of `tabCount`: the count and whether to animate it. */
  datatype TabCount = TabCount(count: int, needAnimation: bool)

  /** The five values are taken to be assigned only by this class and never to be null. */
  class ChromeViewModel {
    var isNightMode: bool
    var tabCount: TabCount
    var isRefreshing: bool
    var canGoBack: bool
    var canGoForward: bool

    var nightModeEmissions: seq<bool>
    var tabCountEmissions: seq<TabCount>
    var refreshingEmissions: seq<bool>
    var canGoBackEmissions: seq<bool>
    var canGoForwardEmissions: seq<bool>

    /** Every field has been emitted, and its current value is the last value emitted. */
    ghost predicate Valid()
      reads this
    {
      && |nightModeEmissions| > 0 && nightModeEmissions[|nightModeEmissions| - 1] == isNightMode
      && |tabCountEmissions| > 0 && tabCountEmissions[|tabCountEmissions| - 1] == tabCount
      && |refreshingEmissions| > 0 && refreshingEmissions[|refreshingEmissions| - 1] == isRefreshing
      && |canGoBackEmissions| > 0 && canGoBackEmissions[|canGoBackEmissions| - 1] == canGoBack
      && |canGoForwardEmissions| > 0 && canGoForwardEmissions[|canGoForwardEmissions| - 1] == canGoForward
    }

    /** `init`: each field is emitted once with its initial value; night mode comes from the settings. */
    constructor (settingsNightModeEnabled: bool)
      ensures Valid()
      ensures isNightMode == settingsNightModeEnabled && tabCount == TabCount(0, false)
      ensures !isRefreshing && !canGoBack && !canGoForward
      ensures nightModeEmissions == [settingsNightModeEnabled] && tabCountEmissions == [TabCount(0, false)]
      ensures refreshingEmissions == [false] && canGoBackEmissions == [false] && canGoForwardEmissions == [false]
    {
      isNightMode := settingsNightModeEnabled;
      nightModeEmissions := [settingsNightModeEnabled];
      tabCount := TabCount(0, false);
      tabCountEmissions := [TabCount(0, false)];
      isRefreshing := false;
      refreshingEmissions := [false];
      canGoBack := false;
      canGoBackEmissions := [false];
      canGoForward := false;
      canGoForwardEmissions := [false];
    }

    /** Re-emits every field once with its current value. */
    method Invalidate()
      requires Valid()
      modifies this
      ensures Valid()
      ensures isNightMode == old(isNightMode) && tabCount == old(tabCount) && isRefreshing == old(isRefreshing)
      ensures canGoBack == old(canGoBack) && canGoForward == old(canGoForward)
      ensures nightModeEmissions == old(nightModeEmissions) + [isNightMode]
      ensures tabCountEmissions == old(tabCountEmissions) + [tabCount]
      ensures refreshingEmissions == old(refreshingEmissions) + [isRefreshing]
      ensures canGoBackEmissions == old(canGoBackEmissions) + [canGoBack]
      ensures canGoForwardEmissions == old(canGoForwardEmissions) + [canGoForward]
    {
      nightModeEmissions := nightModeEmissions + [isNightMode];
      tabCountEmissions := tabCountEmissions + [tabCount];
      refreshingEmissions := refreshingEmissions + [isRefreshing];
      canGoBackEmissions := canGoBackEmissions + [canGoBack];
      canGoForwardEmissions := canGoForwardEmissions + [canGoForward];
    }

    method OnNightModeChanged(isEnabled: bool)
      requires Valid()
      modifies this`isNightMode, this`nightModeEmissions
      ensures Valid() && isNightMode == isEnabled
      ensures nightModeEmissions == old(nightModeEmissions) + if old(isNightMode) != isEnabled then [isEnabled] else []
    {
      if isNightMode != isEnabled {
        isNightMode := isEnabled;
        nightModeEmissions := nightModeEmissions + [isEnabled];
      }
    }

    /** Publishes (count, needAnimation) only when the count differs; the flag alone never publishes. */
    method OnTabCountChanged(count: int, needAnimation: bool)
      requires Valid()
      modifies this`tabCount, this`tabCountEmissions
      ensures Valid() && tabCount.count == count
      ensures old(tabCount.count) != count ==>
        tabCount == TabCount(count, needAnimation) && tabCountEmissions == old(tabCountEmissions) + [tabCount]
      ensures old(tabCount.count) == count ==>
        tabCount == old(tabCount) && tabCountEmissions == old(tabCountEmissions)
    {
      var currentCount := tabCount.count;
      if currentCount != count {
        tabCount := TabCount(count, needAnimation);
        tabCountEmissions := tabCountEmissions + [tabCount];
      }
    }

    method OnPageLoadingStarted()
      requires Valid()
      modifies this`isRefreshing, this`refreshingEmissions
      ensures Valid() && isRefreshing
      ensures refreshingEmissions == old(refreshingEmissions) + if old(isRefreshing) then [] else [true]
    {
      if !isRefreshing {
        isRefreshing := true;
        refreshingEmissions := refreshingEmissions + [true];
      }
    }

    method OnPageLoadingStopped()
      requires Valid()
      modifies this`isRefreshing, this`refreshingEmissions
      ensures Valid() && !isRefreshing
      ensures refreshingEmissions == old(refreshingEmissions) + if old(isRefreshing) then [false] else []
    {
      if isRefreshing {
        isRefreshing := false;
        refreshingEmissions := refreshingEmissions + [false];
      }
    }

    /** Updates the two navigation flags independently, each only when it changes. */
    method OnNavigationStateChanged(canGoBack: bool, canGoForward: bool)
      requires Valid()
      modifies this`canGoBack, this`canGoBackEmissions, this`canGoForward, this`canGoForwardEmissions
      ensures Valid() && this.canGoBack == canGoBack && this.canGoForward == canGoForward
      ensures canGoBackEmissions == old(canGoBackEmissions) + if old(this.canGoBack) != canGoBack then [canGoBack] else []
      ensures canGoForwardEmissions ==
        old(canGoForwardEmissions) + if old(this.canGoForward) != canGoForward then [canGoForward] else []
    {
      if this.canGoBack != canGoBack {
        this.canGoBack := canGoBack;
        canGoBackEmissions := canGoBackEmissions + [canGoBack];
      }
      if this.canGoForward != canGoForward {
        this.canGoForward := canGoForward;
        canGoForwardEmissions := canGoForwardEmissions + [canGoForward];
      }
    }
  }

  /** A second loading-started or loading-stopped event emits nothing more than the first. */
  method PageLoadingEventsIdempotent(vm: ChromeViewModel, started: bool)
    requires vm.Valid()
    modifies vm
    ensures vm.Valid() && vm.isRefreshing == started
    ensures vm.refreshingEmissions == old(vm.refreshingEmissions) + if old(vm.isRefreshing) == started then [] else [started]
  {
    if started {
      vm.OnPageLoadingStarted();
      vm.OnPageLoadingStarted();
    } else {
      vm.OnPageLoadingStopped();
      vm.OnPageLoadingStopped();
    }
  }
}
